/** The four actions a side can choose in a turn. */
module Actions {
  datatype Action = Attack | Defend | SuperAttack | Switch

  /** Every action, in the order the value-table bootstrap enumerates them. */
  const AllActions: seq<Action> := [Attack, Defend, SuperAttack, Switch]
}
