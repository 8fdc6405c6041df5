/** The scripted opponent: a random chooser that respects the special
    attack's cooldown. */
module FixedAgents {
  import opened Actions
  import opened Characters

  /** The choices on offer for a given cooldown. */
  function Options(cooldown: int): (opts: seq<Action>)
    ensures Attack in opts && Defend in opts && Switch !in opts
    ensures SuperAttack in opts <==> cooldown <= 0
  {
    if cooldown <= 0 then [SuperAttack, Attack, Defend] else [Attack, Defend]
  }

  class FixedAgent {
    const character: Character
    var isDefending: bool

    constructor (character: Character)
      ensures this.character == character && !isDefending
    {
      this.character := character;
      isDefending := false;
    }

    /** One of the options for the character's current cooldown; which one
        is left open (the source draws it uniformly). */
    method ChooseAction() returns (a: Action)
      ensures a in Options(character.cooldown)
      ensures a != Switch
      ensures character.cooldown > 0 ==> a == Attack || a == Defend
    {
      var opts := Options(character.cooldown);
      a :| a in opts;
    }
  }
}
