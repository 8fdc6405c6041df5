/** One-against-one turn resolution between the learning agent's active
    character and the scripted opponent's character. */
module Battles {
  import opened Actions
  import opened Characters
  import opened Agents
  import opened FixedAgents

  /** What one turn does: both sides' resulting status, the damage each
      side dealt, the learner's reward, and whether the turn ended early on
      a knockout of the opponent. */
  datatype Outcome = Outcome(agent: Status, enemy: Status, damageAgent: nat, damageEnemy: nat,
                             reward: int, knockout: bool)

  /** One line of the turn log. */
  datatype LogEntry = LogEntry(turn: nat, agentAction: Action, agentDamage: nat,
                               enemyAction: Action, enemyDamage: nat,
                               agentHealth: int, enemyHealth: int)

  predicate Strikes(act: Action) {
    act == Attack || act == SuperAttack
  }

  /** Status after the defend step of a turn. */
  function DefendIf(st: Status, act: Action): Status {
    if act == Defend then st.(cooldown := st.cooldown - 1, defending := true) else st
  }

  /** Damage `act` deals with the attacker's `stats` to a target in `target`. */
  function HitDamage(act: Action, stats: Stats, target: Status): nat {
    if act == Attack then Damage(stats.attackDamage, target.defending)
    else if act == SuperAttack then Damage(stats.superDamage, target.defending)
    else 0
  }

  /** The attacker's cooldown after striking with `act`. */
  function AfterStrike(st: Status, act: Action): Status {
    if act == Attack then st.(cooldown := st.cooldown - 1)
    else if act == SuperAttack then st.(cooldown := 3)
    else st
  }

  /** One turn on values. Defends go first; then the learner strikes; a
      knockout ends the turn with a bonus of 100; otherwise the opponent
      strikes back if the learner's character still stands, and the reward
      is damage dealt minus damage received. Defend flags are cleared. */
  function ResolveTurn(me: Status, meStats: Stats, foe: Status, foeStats: Stats,
                       agentAction: Action, enemyAction: Action): (o: Outcome)
    ensures !o.agent.defending && !o.enemy.defending
    ensures o.knockout <==> o.enemy.health <= 0
    ensures o.knockout ==> o.reward == o.damageAgent + 100 && o.damageEnemy == 0 && o.enemy.health == 0
    ensures !o.knockout ==> o.reward == o.damageAgent - o.damageEnemy
    // defends chosen this turn already protect against this turn's strikes
    ensures agentAction == Attack ==> o.damageAgent == Damage(meStats.attackDamage, foe.defending || enemyAction == Defend)
    ensures agentAction == SuperAttack ==> o.damageAgent == Damage(meStats.superDamage, foe.defending || enemyAction == Defend)
    ensures !Strikes(agentAction) ==> o.damageAgent == 0
    ensures !o.knockout && me.health > 0 && enemyAction == Attack ==>
      o.damageEnemy == Damage(foeStats.attackDamage, me.defending || agentAction == Defend)
    ensures !o.knockout && me.health > 0 && enemyAction == SuperAttack ==>
      o.damageEnemy == Damage(foeStats.superDamage, me.defending || agentAction == Defend)
    ensures me.health <= 0 || !Strikes(enemyAction) ==> o.damageEnemy == 0 && o.agent.health == me.health
    // health is clamped, never negative, and the reported damage need not all land
    ensures me.health >= 0 ==> o.agent.health == Clamped(me.health, o.damageEnemy)
    ensures foe.health >= 0 ==> o.enemy.health == Clamped(foe.health, o.damageAgent)
    ensures 0 <= me.health <= meStats.maxHealth ==> 0 <= o.agent.health <= meStats.maxHealth
    ensures 0 <= foe.health <= foeStats.maxHealth ==> 0 <= o.enemy.health <= foeStats.maxHealth
    // cooldowns: every attack or defend counts down, the special attack resets to 3
    ensures o.agent.cooldown == if agentAction == SuperAttack then 3
                                else if agentAction == Attack || agentAction == Defend then me.cooldown - 1
                                else me.cooldown
    ensures o.enemy.cooldown == if enemyAction == Defend then foe.cooldown - 1
                                else if Strikes(enemyAction) && !o.knockout && me.health > 0 then
                                  (if enemyAction == SuperAttack then 3 else foe.cooldown - 1)
                                else foe.cooldown
  {
    var me1 := DefendIf(me, agentAction);
    var foe1 := DefendIf(foe, enemyAction);
    var damageAgent := HitDamage(agentAction, meStats, foe1);
    var foe2 := if Strikes(agentAction) then foe1.(health := Clamped(foe1.health, damageAgent)) else foe1;
    var me2 := AfterStrike(me1, agentAction);
    if foe2.health <= 0 then
      Outcome(me2.(defending := false), foe2.(health := 0, defending := false),
              damageAgent, 0, damageAgent + 100, true)
    else
      var hits := me2.health > 0 && Strikes(enemyAction);
      var damageEnemy := if hits then HitDamage(enemyAction, foeStats, me2) else 0;
      var me3 := if hits then me2.(health := Clamped(me2.health, damageEnemy)) else me2;
      var foe3 := if hits then AfterStrike(foe2, enemyAction) else foe2;
      Outcome(me3.(defending := false), foe3.(defending := false),
              damageAgent, damageEnemy, damageAgent - damageEnemy, false)
  }

  /** `attacker` carries out `act` against `target` when it is an attack or
      a special attack; any other action deals nothing here. */
  method Strike(attacker: Character, target: Character, act: Action) returns (damage: nat)
    requires attacker != target
    modifies attacker, target
    ensures damage == HitDamage(act, StatsOf(attacker.archetype), old(target.CurrentStatus()))
    ensures attacker.CurrentStatus() == AfterStrike(old(attacker.CurrentStatus()), act)
    ensures target.CurrentStatus() == if Strikes(act) then old(target.CurrentStatus()).(health := Clamped(old(target.health), damage))
                                      else old(target.CurrentStatus())
  {
    damage := 0;
    if act == Attack {
      damage := attacker.Attack(target);
    } else if act == SuperAttack {
      damage := attacker.SuperAttack(target);
    }
  }

  class Battle {
    const learner: QLearningAgent
    const fixed: FixedAgent
    var log: seq<LogEntry>

    /** The learner is well formed and the two fighters are different
        objects. */
    ghost predicate Valid()
      reads learner
    {
      learner.Valid() && fixed.character !in learner.team
    }

    constructor (learner: QLearningAgent, fixed: FixedAgent)
      requires learner.Valid() && fixed.character !in learner.team
      ensures Valid()
      ensures this.learner == learner && this.fixed == fixed && log == []
    {
      this.learner := learner;
      this.fixed := fixed;
      log := [];
    }

    /** The learner's active character. */
    function Me(): Character
      reads learner
      requires learner.Valid()
    {
      learner.Active()
    }

    /** The opponent's character. */
    function Foe(): Character {
      fixed.character
    }

    /** The learner's observation: the opponent is a lone character, so its
        alive count is 1 or 0. */
    function Snapshot(): (s: State)
      reads learner, learner.team, Foe()
      requires learner.Valid()
      ensures InStateSpace(s)
    {
      Observe(Me(), Foe(), learner.CountAlive(), if Foe().IsAlive() then 1 else 0)
    }

    /** The observation depends on health only, not on defend flags,
        cooldowns or the value table. */
    twostate lemma SnapshotFramed()
      requires old(learner.Valid()) && learner.Valid()
      requires old(learner.activeIndex) == learner.activeIndex
      requires forall c :: c in learner.team ==> old(c.health) == c.health
      requires old(Foe().health) == Foe().health
      ensures old(Snapshot()) == Snapshot()
    {
      CountAliveOfFramed(learner.team);
      assert old(Me()) == Me();
    }

    /** One turn with both sides' chosen actions. A switch is accepted as a
        choice but has no effect here. */
    method Step(agentAction: Action, enemyAction: Action)
      requires Valid()
      modifies this`log, learner`qTable, Me(), Foe()
      ensures Valid() && Me() == old(Me())
      ensures var o := ResolveTurn(old(Me().CurrentStatus()), StatsOf(Me().archetype),
                                   old(Foe().CurrentStatus()), StatsOf(Foe().archetype),
                                   agentAction, enemyAction);
        && Me().CurrentStatus() == o.agent
        && Foe().CurrentStatus() == o.enemy
        && log == old(log) + [LogEntry(|old(log)| + 1, agentAction, o.damageAgent,
                                       enemyAction, o.damageEnemy, o.agent.health, o.enemy.health)]
        && learner.qTable == QUpdate(old(learner.qTable), learner.alpha, learner.gamma,
                                     old(Snapshot()), agentAction, o.reward as real, Snapshot())
    {
      var me, foe := Me(), Foe();
      assert me in learner.team;
      var turnIndex := |log| + 1;
      var state := Snapshot();
      ghost var me0, foe0 := me.CurrentStatus(), foe.CurrentStatus();
      ghost var meStats, foeStats := StatsOf(me.archetype), StatsOf(foe.archetype);
      ghost var o := ResolveTurn(me0, meStats, foe0, foeStats, agentAction, enemyAction);
      assert old(Me()) == me && old(Snapshot()) == state && turnIndex == |old(log)| + 1;
      assert o == ResolveTurn(old(Me().CurrentStatus()), StatsOf(Me().archetype),
                              old(Foe().CurrentStatus()), StatsOf(Foe().archetype), agentAction, enemyAction);

      var damageAgent := OpenTurn(agentAction, enemyAction);

      ghost var me1, foe1 := DefendIf(me0, agentAction), DefendIf(foe0, enemyAction);
      ghost var me2 := AfterStrike(me1, agentAction);
      ghost var foe2 := if Strikes(agentAction) then foe1.(health := Clamped(foe1.health, damageAgent)) else foe1;
      assert damageAgent == o.damageAgent;
      assert me.CurrentStatus() == me2 && foe.CurrentStatus() == foe2;

      var damageEnemy, reward := AnswerStrike(enemyAction, damageAgent);
      if foe2.health <= 0 {
        assert o.agent == me2.(defending := false) && o.enemy == foe2.(health := 0, defending := false);
      } else {
        ghost var hits := me2.health > 0 && Strikes(enemyAction);
        ghost var me3 := if hits then me2.(health := Clamped(me2.health, damageEnemy)) else me2;
        ghost var foe3 := if hits then AfterStrike(foe2, enemyAction) else foe2;
        assert damageEnemy == o.damageEnemy;
        assert me.CurrentStatus() == me3 && foe.CurrentStatus() == foe3;
        assert o.agent == me3.(defending := false) && o.enemy == foe3.(defending := false);
      }
      assert reward == o.reward && damageEnemy == o.damageEnemy;
      assert me.CurrentStatus().(defending := false) == o.agent;
      assert foe.CurrentStatus().(defending := false) == o.enemy;
      var entry := LogEntry(turnIndex, agentAction, damageAgent, enemyAction, damageEnemy, me.health, foe.health);
      assert entry == LogEntry(turnIndex, agentAction, o.damageAgent, enemyAction, o.damageEnemy,
                               o.agent.health, o.enemy.health);
      assert log == old(log) && learner.qTable == old(learner.qTable);
      EndTurn(entry, state, agentAction, reward);
      assert Me() == me;
      assert me.CurrentStatus() == o.agent && foe.CurrentStatus() == o.enemy;
      assert log == old(log) + [entry];
      assert learner.qTable == QUpdate(old(learner.qTable), learner.alpha, learner.gamma,
                                       state, agentAction, reward as real, Snapshot());
    }

    /** The first half of a turn: defends chosen this turn take effect, then
        the learner strikes. Returns the learner's damage. */
    method OpenTurn(agentAction: Action, enemyAction: Action) returns (damageAgent: nat)
      requires Valid()
      modifies Me(), Foe()
      ensures Valid() && Me() == old(Me())
      ensures var me1 := DefendIf(old(Me().CurrentStatus()), agentAction);
              var foe1 := DefendIf(old(Foe().CurrentStatus()), enemyAction);
              && damageAgent == HitDamage(agentAction, StatsOf(Me().archetype), foe1)
              && Me().CurrentStatus() == AfterStrike(me1, agentAction)
              && Foe().CurrentStatus() == if Strikes(agentAction) then foe1.(health := Clamped(foe1.health, damageAgent)) else foe1
    {
      var me, foe := Me(), Foe();
      assert me in learner.team;
      if agentAction == Defend {
        var _ := me.Defend();
      }
      if enemyAction == Defend {
        var _ := foe.Defend();
      }
      damageAgent := Strike(me, foe, agentAction);
    }

    /** The rest of the fighting once the learner has struck for
        `damageAgent`: a knocked-out opponent is set to 0 health and the
        reward gets the bonus of 100; otherwise the opponent strikes back,
        but only while the learner's character still stands, and its damage
        is subtracted from the reward. */
    method AnswerStrike(enemyAction: Action, damageAgent: nat) returns (damageEnemy: nat, reward: int)
      requires Valid()
      modifies Me(), Foe()
      ensures Valid() && Me() == old(Me())
      ensures old(Foe().health) <= 0 ==>
                && damageEnemy == 0 && reward == damageAgent + 100
                && Me().CurrentStatus() == old(Me().CurrentStatus())
                && Foe().CurrentStatus() == old(Foe().CurrentStatus()).(health := 0)
      ensures old(Foe().health) > 0 ==>
                var hits := old(Me().health) > 0 && Strikes(enemyAction);
                && damageEnemy == (if hits then HitDamage(enemyAction, StatsOf(Foe().archetype), old(Me().CurrentStatus())) else 0)
                && reward == damageAgent - damageEnemy
                && Me().CurrentStatus() == (if hits then old(Me().CurrentStatus()).(health := Clamped(old(Me().health), damageEnemy))
                                            else old(Me().CurrentStatus()))
                && Foe().CurrentStatus() == (if hits then AfterStrike(old(Foe().CurrentStatus()), enemyAction)
                                             else old(Foe().CurrentStatus()))
    {
      var me, foe := Me(), Foe();
      assert me in learner.team;
      reward := damageAgent;
      damageEnemy := 0;
      if foe.health <= 0 {
        foe.health := 0;
        reward := reward + 100;
        return;
      }
      if me.health > 0 {
        damageEnemy := Strike(foe, me, enemyAction);
      }
      reward := reward - damageEnemy;
    }

    /** The end of every turn: the log line `entry`, one value-table update
        from `state` to the observation now, and both defend flags cleared. */
    method EndTurn(entry: LogEntry, state: State, agentAction: Action, reward: int)
      requires Valid()
      modifies this`log, learner`qTable, Me(), Foe()
      ensures Valid() && Me() == old(Me())
      ensures log == old(log) + [entry]
      ensures learner.qTable == QUpdate(old(learner.qTable), learner.alpha, learner.gamma,
                                        state, agentAction, reward as real, old(Snapshot()))
      ensures Snapshot() == old(Snapshot())
      ensures Me().CurrentStatus() == old(Me().CurrentStatus()).(defending := false)
      ensures Foe().CurrentStatus() == old(Foe().CurrentStatus()).(defending := false)
    {
      var me, foe := Me(), Foe();
      assert me in learner.team;
      log := log + [entry];
      var next := Snapshot();
      learner.UpdateQ(state, agentAction, reward as real, next);
      me.ResetTurn();
      foe.ResetTurn();
      SnapshotFramed();
    }
  
    /** Starts a new episode as the code is written: the log is emptied and
        both fighting characters get the literal 100 health points, no
        defence and a cooldown of 3, whatever their archetype. */
    method ResetEpisode()
      requires Valid()
      modifies this`log, Me(), Foe()
      ensures Valid() && Me() == old(Me())
      ensures log == []
      ensures Me().CurrentStatus() == Status(100, 3, false)
      ensures Foe().CurrentStatus() == Status(100, 3, false)
    {
      log := [];
      var sides := [Me(), Foe()];
      assert sides[0] in learner.team;
      var i := 0;
      while i < |sides|
        invariant 0 <= i <= |sides|
        invariant log == []
        invariant forall j :: 0 <= j < i ==> sides[j].CurrentStatus() == Status(100, 3, false)
      {
        var c := sides[i];
        c.health := 100;
        c.ResetTurn();
        c.cooldown := 3;
        i := i + 1;
      }
      assert sides[1].CurrentStatus() == Status(100, 3, false);
    }

    /** The reset that the rest of the model assumes: each fighting character
        returns to its own maximum health, so health never exceeds it. */
    method ResetEpisodeToFull()
      requires Valid()
      modifies this`log, Me(), Foe()
      ensures Valid() && Me() == old(Me())
      ensures log == []
      ensures Me().CurrentStatus() == Status(Me().MaxHealth(), 3, false)
      ensures Foe().CurrentStatus() == Status(Foe().MaxHealth(), 3, false)
      ensures 0 < Me().health <= Me().MaxHealth() && 0 < Foe().health <= Foe().MaxHealth()
    {
      log := [];
      var sides := [Me(), Foe()];
      assert sides[0] in learner.team;
      var i := 0;
      while i < |sides|
        invariant 0 <= i <= |sides|
        invariant log == []
        invariant forall j :: 0 <= j < i ==> sides[j].CurrentStatus() == Status(sides[j].MaxHealth(), 3, false)
      {
        sides[i].ResetForBattle();
        i := i + 1;
      }
      assert sides[1].CurrentStatus() == Status(sides[1].MaxHealth(), 3, false);
    }

    /** Exhibits the over-heal: after the as-written reset an Offensive enemy
        (maximum 70) holds more health than its archetype allows. */
    method ResetEpisodeOverheals()
      requires Valid() && Foe().archetype == Offensive
      modifies this`log, Me(), Foe()
      ensures Foe().health > Foe().MaxHealth()
    {
      ResetEpisode();
    }
}
}
