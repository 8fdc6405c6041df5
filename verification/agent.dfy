/** The tabular Q-learning agent: a three-member team, the active-member
    index, the value table and the epsilon-greedy policy. */
module Agents {
  import opened Wrappers
  import opened Actions
  import opened Characters

  /** Health bucket in 0..10: the floor of ten times the health fraction,
      clamped. Integer division stands in for the floating-point ratio. */
  function Discretize(health: int, maxHealth: int): (b: int)
    requires maxHealth > 0
    ensures 0 <= b <= 10
    ensures health <= 0 ==> b == 0
    ensures health >= maxHealth ==> b == 10
    ensures 0 <= health <= maxHealth ==> b * maxHealth <= health * 10 < (b + 1) * maxHealth
  {
    var q := health * 10 / maxHealth;
    FloorDiv(health * 10, maxHealth);
    if q < 0 then 0 else if q > 10 then 10 else q
  }

  lemma FloorDiv(x: int, d: int)
    requires d > 0
    ensures (x / d) * d <= x < (x / d + 1) * d
    ensures x < 0 ==> x / d < 0
    ensures 0 <= x ==> 0 <= x / d
    ensures x >= 10 * d ==> x / d >= 10
  {
    var q, r := x / d, x % d;
    assert x == q * d + r && 0 <= r < d;
    if q < 10 {
      MulMonotone(q + 1, 10, d);
    }
    if q < 0 {
      MulMonotone(q + 1, 0, d);
    }
  }

  lemma MulMonotone(a: int, b: int, d: int)
    requires a <= b && d > 0
    ensures a * d <= b * d
  {
  }

  lemma DivMonotone(x: int, y: int, d: int)
    requires x <= y && d > 0
    ensures x / d <= y / d
  {
    FloorDiv(x, d);
    FloorDiv(y, d);
    if x / d > y / d {
      MulMonotone(y / d + 1, x / d, d);
    }
  }

  /** More health never gives a lower bucket. */
  lemma DiscretizeMonotone(h1: int, h2: int, maxHealth: int)
    requires maxHealth > 0 && h1 <= h2
    ensures Discretize(h1, maxHealth) <= Discretize(h2, maxHealth)
  {
    DivMonotone(h1 * 10, h2 * 10, maxHealth);
  }

  function TypeIndex(a: Archetype): (i: nat)
    ensures i < 3
  {
    match a
    case Tank => 0
    case Hybrid => 1
    case Offensive => 2
  }

  lemma TypeIndexInjective(a: Archetype, b: Archetype)
    ensures TypeIndex(a) == TypeIndex(b) ==> a == b
  {
  }

  /** The discretized state: both active characters' health buckets and
      type indices, and both teams' alive counts. */
  datatype State = State(ownHealth: int, enemyHealth: int, ownType: nat, enemyType: nat,
                         ownAlive: nat, enemyAlive: nat)

  predicate InStateSpace(s: State) {
    0 <= s.ownHealth <= 10 && 0 <= s.enemyHealth <= 10 && s.ownType < 3 && s.enemyType < 3
    && s.ownAlive <= 3 && s.enemyAlive <= 3
  }

  /** The state as seen from `me` facing `foe`, given the two alive counts. */
  function Observe(me: Character, foe: Character, ownAlive: nat, enemyAlive: nat): (s: State)
    reads me, foe
    requires ownAlive <= 3 && enemyAlive <= 3
    ensures InStateSpace(s)
    ensures s.ownAlive == ownAlive && s.enemyAlive == enemyAlive
  {
    State(Discretize(me.health, me.MaxHealth()), Discretize(foe.health, foe.MaxHealth()),
          TypeIndex(me.archetype), TypeIndex(foe.archetype), ownAlive, enemyAlive)
  }

  /** The value table; a missing entry reads as 0.0. */
  type QTable = map<(State, Action), real>

  function QValue(q: QTable, s: State, a: Action): real {
    if (s, a) in q then q[(s, a)] else 0.0
  }

  /** Reading after a write: the written pair reads as the new value, every
      other pair reads as before. */
  lemma QValueUpdate(q: QTable, k: (State, Action), v: real, s: State, a: Action)
    ensures QValue(q[k := v], s, a) == if k == (s, a) then v else QValue(q, s, a)
  {
  }

  /** The largest value of `acts` in state `s`. */
  function MaxQ(q: QTable, s: State, acts: seq<Action>): (m: real)
    requires |acts| > 0
    ensures forall a :: a in acts ==> QValue(q, s, a) <= m
    ensures exists a :: a in acts && QValue(q, s, a) == m
  {
    if |acts| == 1 then QValue(q, s, acts[0])
    else
      var rest := MaxQ(q, s, acts[1..]);
      assert forall a :: a in acts[1..] ==> a in acts;
      if QValue(q, s, acts[0]) >= rest then QValue(q, s, acts[0]) else rest
  }

  /** The one-step update: only the entry for (s, a) changes, and it moves by
      alpha times the temporal-difference error, whose bootstrap is the best
      value over all four actions in `next`, legal there or not. */
  function QUpdate(q: QTable, alpha: real, gamma: real, s: State, a: Action, reward: real, next: State): (q': QTable)
    ensures forall k :: k in q' <==> k in q || k == (s, a)
    ensures forall k :: k in q && k != (s, a) ==> q'[k] == q[k]
    ensures QValue(q', s, a) == Moved(QValue(q, s, a), alpha, Target(q, gamma, reward, next))
  {
    q[(s, a) := Moved(QValue(q, s, a), alpha, Target(q, gamma, reward, next))]
  }

  /** The bootstrapped target: the reward plus the discounted best value in
      `next` over all four actions, legal there or not. */
  function Target(q: QTable, gamma: real, reward: real, next: State): real {
    reward + gamma * MaxQ(q, next, AllActions)
  }

  /** `before` moved by the fraction `alpha` of the way towards `target`. */
  function Moved(before: real, alpha: real, target: real): real {
    before + alpha * (target - before)
  }

  /** With a learning rate in [0, 1] the new value lies between the old value
      and the bootstrapped target. */
  lemma QUpdateBetween(q: QTable, alpha: real, gamma: real, s: State, a: Action, reward: real, next: State)
    requires 0.0 <= alpha <= 1.0
    ensures var before, target := QValue(q, s, a), Target(q, gamma, reward, next);
            var after := QValue(QUpdate(q, alpha, gamma, s, a, reward, next), s, a);
            (before <= target ==> before <= after <= target) &&
            (target <= before ==> target <= after <= before)
  {
    var before, target := QValue(q, s, a), Target(q, gamma, reward, next);
    var after := QValue(QUpdate(q, alpha, gamma, s, a, reward, next), s, a);
    assert after == Moved(before, alpha, target);
    StepBetween(before, target, after, alpha);
  }

  lemma StepBetween(before: real, target: real, after: real, alpha: real)
    requires 0.0 <= alpha <= 1.0
    requires after == Moved(before, alpha, target)
    ensures before <= target ==> before <= after <= target
    ensures target <= before ==> target <= after <= before
  {
    var x := target - before;
    assert x - alpha * x == (1.0 - alpha) * x;
    if x >= 0.0 {
      assert (1.0 - alpha) * x >= 0.0;
    } else {
      assert (1.0 - alpha) * x <= 0.0;
    }
  }

  /** Number of members of `cs` with positive health. */
  function CountAliveOf(cs: seq<Character>): (n: nat)
    reads cs
    ensures n <= |cs|
  {
    if cs == [] then 0
    else CountAliveOf(cs[..|cs| - 1]) + (if cs[|cs| - 1].health > 0 then 1 else 0)
  }

  function AliveIndicesOf(cs: seq<Character>): set<int>
    reads cs
  {
    set i | 0 <= i < |cs| && cs[i].health > 0
  }

  /** The count is the number of alive positions. */
  lemma {:induction false} CountAliveOfIsCardinality(cs: seq<Character>)
    ensures CountAliveOf(cs) == |AliveIndicesOf(cs)|
  {
    if cs != [] {
      var n := |cs| - 1;
      CountAliveOfIsCardinality(cs[..n]);
      if cs[n].health > 0 {
        assert AliveIndicesOf(cs) == AliveIndicesOf(cs[..n]) + {n};
      } else {
        assert AliveIndicesOf(cs) == AliveIndicesOf(cs[..n]);
      }
    }
  }

  /** The count depends on the members' health only. */
  twostate lemma {:induction false} CountAliveOfFramed(cs: seq<Character>)
    requires forall c :: c in cs ==> old(c.health) == c.health
    ensures old(CountAliveOf(cs)) == CountAliveOf(cs)
  {
    if cs != [] {
      CountAliveOfFramed(cs[..|cs| - 1]);
    }
  }

  /** Members of `cs` with positive health. */
  function AliveOf(cs: seq<Character>): (alive: seq<Character>)
    reads cs
    ensures forall c :: c in alive ==> c in cs && c.health > 0
    ensures forall i :: 0 <= i < |cs| && cs[i].health > 0 ==> cs[i] in alive
    ensures |alive| == CountAliveOf(cs)
  {
    if cs == [] then []
    else
      var n := |cs| - 1;
      assert cs == cs[..n] + [cs[n]];
      AliveOf(cs[..n]) + (if cs[n].health > 0 then [cs[n]] else [])
  }

  /** Indices below `k` of alive members other than `active`, ascending. */
  function BenchOf(cs: seq<Character>, active: int, k: nat): (b: seq<nat>)
    reads cs
    requires k <= |cs|
    ensures forall i :: i in b <==> 0 <= i < k && i != active && cs[i].health > 0
    ensures forall x, y :: 0 <= x < y < |b| ==> b[x] < b[y]
  {
    if k == 0 then []
    else
      var prefix := BenchOf(cs, active, k - 1);
      assert forall x :: 0 <= x < |prefix| ==> prefix[x] in prefix;
      prefix + (if k - 1 != active && cs[k - 1].health > 0 then [k - 1] else [])
  }

  class QLearningAgent {
    const team: seq<Character>
    var activeIndex: int
    var qTable: QTable
    var alpha: real
    var gamma: real
    var epsilon: real

    ghost predicate Valid()
      reads this
    {
      |team| == 3 && 0 <= activeIndex < |team|
    }

    constructor (team: seq<Character>)
      requires |team| == 3
      ensures Valid() && this.team == team && activeIndex == 0 && qTable == map[]
      ensures alpha == 0.1 && gamma == 0.9 && epsilon == 0.2
    {
      this.team := team;
      activeIndex := 0;
      qTable := map[];
      alpha := 0.1;
      gamma := 0.9;
      epsilon := 0.2;
    }

    /** The active character. */
    function Active(): (c: Character)
      reads this
      requires Valid()
      ensures c in team
    {
      team[activeIndex]
    }

    function AliveTeam(): (alive: seq<Character>)
      reads team
      ensures forall c :: c in alive ==> c in team && c.IsAlive()
      ensures forall i :: 0 <= i < |team| && team[i].IsAlive() ==> team[i] in alive
    {
      AliveOf(team)
    }

    /** Alive members other than the active one, by index in team order. */
    function Bench(): (bench: seq<nat>)
      reads this, team
      ensures forall i :: i in bench <==> 0 <= i < |team| && i != activeIndex && team[i].IsAlive()
      ensures forall x, y :: 0 <= x < y < |bench| ==> bench[x] < bench[y]
    {
      BenchOf(team, activeIndex, |team|)
    }

    function CountAlive(): (n: nat)
      reads team
      ensures n == |AliveTeam()| && n <= |team|
    {
      CountAliveOf(team)
    }

    function HasSwitchAvailable(): (b: bool)
      reads this, team
      ensures b <==> exists i :: 0 <= i < |team| && i != activeIndex && team[i].IsAlive()
    {
      var bench := Bench();
      assert bench != [] ==> bench[0] in bench;
      |bench| > 0
    }

    /** Observation of this agent against `enemy`. */
    function GetState(enemy: QLearningAgent): (s: State)
      reads this, team, enemy, enemy.team
      requires Valid() && enemy.Valid()
      ensures InStateSpace(s)
      ensures s.ownAlive == |AliveIndicesOf(team)| && s.enemyAlive == |AliveIndicesOf(enemy.team)|
    {
      CountAliveOfIsCardinality(team);
      CountAliveOfIsCardinality(enemy.team);
      Observe(Active(), enemy.Active(), CountAlive(), enemy.CountAlive())
    }

    /** Attack and defend are always allowed; the special attack only off
        cooldown, the switch only with a living bench. */
    function AllowedActions(): (acts: seq<Action>)
      reads this, team
      requires Valid()
      ensures |acts| >= 2 && acts[0] == Attack && acts[1] == Defend
      ensures SuperAttack in acts <==> Active().cooldown <= 0
      ensures Switch in acts <==> exists i :: 0 <= i < |team| && i != activeIndex && team[i].IsAlive()
      ensures forall x, y :: 0 <= x < y < |acts| ==> acts[x] != acts[y]
    {
      var special, switch := Active().cooldown <= 0, HasSwitchAvailable();
      if special && switch then [Attack, Defend, SuperAttack, Switch]
      else if special then [Attack, Defend, SuperAttack]
      else if switch then [Attack, Defend, Switch]
      else [Attack, Defend]
    }

    /** Epsilon-greedy choice. `roll` is the uniform draw in [0, 1): below
        epsilon the agent explores among the allowed actions, otherwise it
        picks one of the allowed actions of highest value; the tie-break is
        left open. */
    method ChooseAction(enemy: QLearningAgent, roll: real) returns (a: Action)
      requires Valid() && enemy.Valid()
      ensures a in AllowedActions()
      ensures roll >= epsilon ==>
        forall b :: b in AllowedActions() ==> QValue(qTable, GetState(enemy), b) <= QValue(qTable, GetState(enemy), a)
    {
      var state := GetState(enemy);
      var allowed := AllowedActions();
      assert Attack in allowed;
      if roll < epsilon {
        a :| a in allowed;
      } else {
        var best := MaxQ(qTable, state, allowed);
        a :| a in allowed && QValue(qTable, state, a) == best;
      }
    }

    /** A living bench member chosen freely, or None with an empty bench. */
    method ChooseSwitchTarget() returns (t: Option<nat>)
      requires Valid()
      ensures t.None? <==> !HasSwitchAvailable()
      ensures t.Some? ==> t.value < |team| && t.value != activeIndex && team[t.value].IsAlive()
    {
      var bench := Bench();
      if bench == [] {
        t := None;
      } else {
        assert bench[0] in bench;
        var i :| i in bench;
        t := Some(i);
      }
    }

    /** Switch to `target`, or to a bench member of the agent's choosing when
        no target is given; nothing happens when the target is out of range
        or down, or the bench is empty. */
    method PerformSwitch(target: Option<int>) returns (ok: bool)
      requires Valid()
      modifies this`activeIndex
      ensures Valid()
      ensures target.Some? ==> (ok <==> 0 <= target.value < |team| && team[target.value].IsAlive())
      ensures target.Some? && ok ==> activeIndex == target.value
      ensures target.None? ==> (ok <==> old(HasSwitchAvailable()))
      ensures target.None? && ok ==> activeIndex in old(Bench())
      ensures !ok ==> activeIndex == old(activeIndex)
    {
      var index: int;
      if target.None? {
        var chosen := ChooseSwitchTarget();
        if chosen.None? {
          return false;
        }
        index := chosen.value;
      } else {
        index := target.value;
      }
      if index < 0 || index >= |team| {
        return false;
      }
      if !team[index].IsAlive() {
        return false;
      }
      activeIndex := index;
      ok := true;
    }

    /** Keep a living active member; otherwise move to the first living one.
        Fails, leaving the index alone, only when the whole team is down. */
    method ForceSwitchIfFainted() returns (ok: bool)
      requires Valid()
      modifies this`activeIndex
      ensures Valid()
      ensures ok <==> !AllFainted()
      ensures old(Active().IsAlive()) ==> activeIndex == old(activeIndex)
      ensures ok ==> Active().IsAlive()
      ensures !old(Active().IsAlive()) && ok ==> forall j :: 0 <= j < activeIndex ==> !team[j].IsAlive()
      ensures !ok ==> activeIndex == old(activeIndex)
    {
      if Active().IsAlive() {
        assert Active() in team;
        return true;
      }
      var i := 0;
      while i < |team|
        invariant 0 <= i <= |team|
        invariant activeIndex == old(activeIndex)
        invariant forall j :: 0 <= j < i ==> !team[j].IsAlive()
      {
        if team[i].IsAlive() {
          assert team[i] in team;
          activeIndex := i;
          return true;
        }
        i := i + 1;
      }
      return false;
    }

    method UpdateQ(s: State, a: Action, reward: real, next: State)
      modifies this`qTable
      ensures qTable == QUpdate(old(qTable), alpha, gamma, s, a, reward, next)
    {
      var oldQ := QValue(qTable, s, a);
      var target := Target(qTable, gamma, reward, next);
      qTable := qTable[(s, a) := Moved(oldQ, alpha, target)];
    }

    /** Start a new episode: the first member is active and every member is
        back at full health, off guard and with cooldown 3. The value table
        is kept. */
    method ResetForEpisode()
      requires Valid()
      modifies this`activeIndex, team
      ensures Valid() && activeIndex == 0
      ensures forall c :: c in team ==> c.health == c.MaxHealth() && !c.isDefending && c.cooldown == 3
    {
      activeIndex := 0;
      for i := 0 to |team|
        invariant activeIndex == 0
        invariant forall j :: 0 <= j < i ==>
          team[j].health == team[j].MaxHealth() && !team[j].isDefending && team[j].cooldown == 3
      {
        team[i].ResetForBattle();
      }
    }

    /** Every member has fainted exactly when the alive list is empty. */
    predicate AllFainted()
      reads team
      ensures AllFainted() <==> AliveTeam() == []
    {
      var alive := AliveTeam();
      assert alive != [] ==> alive[0] in alive;
      forall c :: c in team ==> !c.IsAlive()
    }

    /** The team is wiped out exactly when no member is alive. */
    lemma AllFaintedIffNoneAlive()
      ensures AllFainted() <==> CountAlive() == 0
      ensures AllFainted() <==> forall i :: 0 <= i < |team| ==> team[i].health <= 0
    {
      CountAliveOfIsCardinality(team);
      if !AllFainted() {
        var c :| c in team && c.IsAlive();
        var i :| 0 <= i < |team| && team[i] == c;
        assert i in AliveIndicesOf(team);
      } else {
        assert forall i | 0 <= i < |team| :: team[i] in team;
        assert AliveIndicesOf(team) == {};
      }
    }
  }

  /** The constructor's error path: a team of any size other than three is
      rejected. */
  method NewAgent(team: seq<Character>) returns (r: Option<QLearningAgent>)
    ensures r.None? <==> |team| != 3
    ensures r.Some? ==> fresh(r.value) && r.value.Valid() && r.value.team == team
    ensures r.Some? ==> r.value.activeIndex == 0 && r.value.qTable == map[]
  {
    if |team| != 3 {
      return None;
    }
    var agent := new QLearningAgent(team);
    r := Some(agent);
  }
}
