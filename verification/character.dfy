/** Combat entities: health, the special-attack cooldown, the defend flag,
    and the stat profiles of the three archetypes. */
module Characters {
  import opened Wrappers

  datatype Archetype = Tank | Hybrid | Offensive

  /** A stat profile: the per-archetype class constants. */
  datatype Stats = Stats(maxHealth: nat, attackDamage: nat, superDamage: nat, speed: nat)

  function StatsOf(a: Archetype): (s: Stats)
    ensures s.maxHealth > 0 && s.attackDamage > 0
    ensures s.superDamage == 2 * s.attackDamage
  {
    match a
    case Tank => Stats(150, 15, 30, 6)
    case Hybrid => Stats(100, 20, 40, 10)
    case Offensive => Stats(70, 25, 50, 14)
  }

  /** Tanks have the most health and the least damage and speed, offensive
      characters the reverse, hybrids sit in between; the special attack
      always hits twice as hard as the basic one. */
  lemma ArchetypeProfiles()
    ensures StatsOf(Tank).maxHealth > StatsOf(Hybrid).maxHealth > StatsOf(Offensive).maxHealth > 0
    ensures StatsOf(Tank).attackDamage < StatsOf(Hybrid).attackDamage < StatsOf(Offensive).attackDamage
    ensures StatsOf(Tank).speed < StatsOf(Hybrid).speed < StatsOf(Offensive).speed
    ensures forall a: Archetype :: StatsOf(a).superDamage == 2 * StatsOf(a).attackDamage
  {
  }

  /** The type tag a character reports. */
  function TypeName(a: Archetype): (n: string)
    ensures n in {"tank", "hybrid", "offensive"}
  {
    match a
    case Tank => "tank"
    case Hybrid => "hybrid"
    case Offensive => "offensive"
  }

  /** The factory's type lookup: unknown type names are rejected. */
  function ParseArchetype(kind: string): (r: Option<Archetype>)
    ensures r.Some? <==> kind in {"tank", "hybrid", "offensive"}
    ensures r.Some? ==> TypeName(r.value) == kind
  {
    if kind == "tank" then Some(Tank)
    else if kind == "hybrid" then Some(Hybrid)
    else if kind == "offensive" then Some(Offensive)
    else None
  }

  lemma ParseTypeName(a: Archetype)
    ensures ParseArchetype(TypeName(a)) == Some(a)
  {
    match a
    case Tank =>
    case Hybrid =>
    case Offensive =>
  }

  /** A character survives a hit exactly when its health exceeds the
      damage. */
  lemma SurvivesHit(health: int, damage: nat)
    ensures Clamped(health, damage) > 0 <==> health > damage
  {
  }

  /** Damage of a hit with base strength `base`: the whole base, or, against
      a defending target, half of it rounded down to a multiple of 10. */
  function Damage(base: nat, targetDefending: bool): (d: nat)
    ensures !targetDefending ==> d == base
    ensures targetDefending ==> d % 10 == 0 && d <= base / 2 < d + 10
    ensures d <= base
  {
    if targetDefending then (base / 2) / 10 * 10 else base
  }

  lemma DefendedDamageExamples()
    ensures Damage(15, true) == 0 && Damage(20, true) == 10 && Damage(25, true) == 10
    ensures Damage(30, true) == 10 && Damage(40, true) == 20 && Damage(50, true) == 20
  {
  }

  /** Health after losing `damage` points, clamped at zero. */
  function Clamped(health: int, damage: nat): (h: nat)
    ensures h == 0 || h == health - damage
    ensures h >= health - damage && (health >= 0 ==> h <= health)
  {
    if health - damage > 0 then health - damage else 0
  }

  /** The mutable part of a character, as a value. */
  datatype Status = Status(health: int, cooldown: int, defending: bool)

  class Character {
    const name: string
    const archetype: Archetype
    var health: int
    var isDefending: bool
    var cooldown: int

    function MaxHealth(): nat { StatsOf(archetype).maxHealth }
    function AttackDamage(): nat { StatsOf(archetype).attackDamage }
    function SuperDamage(): nat { StatsOf(archetype).superDamage }
    function Speed(): nat { StatsOf(archetype).speed }

    function CurrentStatus(): Status
      reads this
    {
      Status(health, cooldown, isDefending)
    }

    predicate IsAlive()
      reads this
    {
      health > 0
    }

    constructor (name: string, archetype: Archetype)
      ensures this.name == name && this.archetype == archetype
      ensures health == MaxHealth() && !isDefending && cooldown == 3
    {
      this.name := name;
      this.archetype := archetype;
      health := StatsOf(archetype).maxHealth;
      isDefending := false;
      cooldown := 3;
    }

    /** Basic attack; it counts down the cooldown by one, with no floor. */
    method Attack(enemy: Character) returns (damage: nat)
      modifies this`cooldown, enemy`health
      ensures damage == Damage(AttackDamage(), old(enemy.isDefending))
      ensures enemy.health == Clamped(old(enemy.health), damage)
      ensures enemy.IsAlive() <==> old(enemy.health) > damage
      ensures cooldown == old(cooldown) - 1
      ensures enemy != this ==> health == old(health) && enemy.cooldown == old(enemy.cooldown)
      ensures 0 <= old(enemy.health) <= enemy.MaxHealth() ==> 0 <= enemy.health <= enemy.MaxHealth()
    {
      damage := Damage(AttackDamage(), enemy.isDefending);
      enemy.health := Clamped(enemy.health, damage);
      cooldown := cooldown - 1;
    }

    /** Special attack; it does not check the cooldown itself (callers do)
        and sets it back to 3 whatever it was. */
    method SuperAttack(enemy: Character) returns (damage: nat)
      modifies this`cooldown, enemy`health
      ensures damage == Damage(SuperDamage(), old(enemy.isDefending))
      ensures enemy.health == Clamped(old(enemy.health), damage)
      ensures enemy.IsAlive() <==> old(enemy.health) > damage
      ensures cooldown == 3
      ensures enemy != this ==> health == old(health) && enemy.cooldown == old(enemy.cooldown)
      ensures 0 <= old(enemy.health) <= enemy.MaxHealth() ==> 0 <= enemy.health <= enemy.MaxHealth()
    {
      damage := Damage(SuperDamage(), enemy.isDefending);
      enemy.health := Clamped(enemy.health, damage);
      cooldown := 3;
    }

    /** Raise the guard for this turn; defending also counts down the cooldown. */
    method Defend() returns (ok: bool)
      modifies this`cooldown, this`isDefending
      ensures ok && isDefending && cooldown == old(cooldown) - 1
    {
      cooldown := cooldown - 1;
      isDefending := true;
      ok := true;
    }

    method ResetTurn()
      modifies this`isDefending
      ensures !isDefending
    {
      isDefending := false;
    }

    method ResetForBattle()
      modifies this`health, this`isDefending, this`cooldown
      ensures health == MaxHealth() && !isDefending && cooldown == 3
    {
      health := MaxHealth();
      isDefending := false;
      cooldown := 3;
    }
  }

  /** The factory: a fresh character of the named type, or None for a type
      name outside the table. */
  method CreateCharacter(kind: string, name: string) returns (r: Option<Character>)
    ensures r.None? <==> ParseArchetype(kind).None?
    ensures r.Some? ==> fresh(r.value) && r.value.name == name
    ensures r.Some? ==> r.value.archetype == ParseArchetype(kind).value && TypeName(r.value.archetype) == kind
    ensures r.Some? ==> r.value.health == r.value.MaxHealth() && !r.value.isDefending && r.value.cooldown == 3
  {
    match ParseArchetype(kind)
    case None =>
      r := None;
    case Some(a) =>
      var c := new Character(name, a);
      r := Some(c);
  }
}
