# Q-learning battle simulator: a verified model

This project models the core of a small turn-based battle simulator in Dafny.
A tabular Q-learning agent commands a team of three characters. It fights a
scripted opponent that picks its moves at random. The model covers four parts:

- **Characters** (`character.dfy`). There are three archetypes: Tank, Hybrid
  and Offensive. Each has fixed health, damage and speed. A character is an
  object whose health, defend flag and special-attack cooldown change in place.
  - A basic attack hits for the attacker's damage and lowers the attacker's
    cooldown by one.
  - A special attack hits harder and resets the cooldown to 3.
  - A defending target takes half the damage, rounded down to a multiple of 10.
  - Health never drops below 0.
- **The learning agent** (`agent.dfy`).
  - Discretizes health into eleven buckets.
  - Builds the six-part state key and computes the legal actions.
  - Chooses epsilon-greedily.
  - Switches the active character, either on request or when it faints.
  - Applies the one-step Q-learning update to its value table.
- **The scripted opponent** (`fixed_agent.dfy`). It picks uniformly among
  attack and defend, plus the special attack once its cooldown has run out.
- **The battle** (`battle.dfy`). One turn runs in this order:
  1. Defends chosen this turn take effect.
  2. The learner strikes.
  3. A knockout ends the turn with a bonus of 100.
  4. Otherwise the opponent strikes back, if the learner's character still
     stands.
  5. The turn is logged.
  6. The learner updates its value table.
  7. Defend flags are cleared.

The pure part of a turn is `Battles.ResolveTurn`, a function on character
statuses. `Battles.Battle.Step` performs the turn on the objects. Its contract
says the new state is exactly what `ResolveTurn` predicts.

Randomness becomes parameters or nondeterministic choice:
- The exploration draw is the `roll` parameter of `ChooseAction`.
- "Pick at random among" becomes `:|`.
- A turn's two actions are parameters of `Step`; the two agents' choose methods
  produce them.

Health, damage and rewards are unbounded integers. Value-table entries and the
learning parameters are reals.

## Model

| member | source | states |
|---|---|---|
| Characters.StatsOf | src/character.py:130-185 | every archetype has positive health and damage, and its special attack deals twice its basic attack (Tank 150/15/30/6, Hybrid 100/20/40/10, Offensive 70/25/50/14) |
| Characters.TypeName | src/character.py:143-197 | every archetype reports one of the three tags "tank", "hybrid", "offensive" |
| Characters.ArchetypeProfiles | src/character.py:122-197 | Tank has the most health and the least damage and speed, Offensive the reverse, Hybrid sits between; every special attack is twice the basic one |
| Characters.ParseArchetype | src/character.py:201-205 | a type name is accepted exactly when it is "tank", "hybrid" or "offensive", and the archetype found prints back as that name |
| Characters.ParseTypeName | src/character.py:143-197 | parsing the name of any archetype gives that archetype back (round trip) |
| Characters.Damage | src/character.py:50-55 | against a defender the damage is a multiple of 10, at most half the base, and within 10 of half; otherwise it is the full base; never more than the base |
| Characters.DefendedDamageExamples | src/character.py:52-55 | against a defender, the six stat values give 0, 10, 10, 10, 20 and 20 |
| Characters.Clamped | src/character.py:57 | health after a hit is the old health minus the damage, or 0 if that would be negative; it never rises |
| Characters.Character.IsAlive | src/character.py:95-97 | alive means positive health; its partner clauses are on Attack and SuperAttack, which state that the target is alive afterwards exactly when its health exceeded the damage |
| Characters.SurvivesHit | src/character.py:57 | after a hit the character is still alive exactly when its health exceeded the damage |
| Characters.Character.constructor | src/character.py:29-37 | a new character has its archetype's maximum health, no defence and cooldown 3 |
| Characters.Character.Attack | src/character.py:45-59 | the damage is halved and rounded for a defender; only the target's health (clamped at 0) and the attacker's cooldown (down by one) change; health within [0, max] stays there; the target is alive afterwards exactly when its old health exceeded the damage |
| Characters.Character.SuperAttack | src/character.py:61-74 | same damage rule with the special damage, cooldown reset to 3, no cooldown check, health stays within [0, max]; the target is alive afterwards exactly when its old health exceeded the damage |
| Characters.Character.Defend | src/character.py:76-83 | sets the defend flag, lowers the cooldown by one, returns true |
| Characters.Character.ResetTurn | src/character.py:85-87 | the defend flag is cleared |
| Characters.Character.ResetForBattle | src/character.py:89-93 | full health of the archetype, no defence, cooldown 3 |
| Characters.CreateCharacter | src/character.py:208-222 | an unknown type name is the error result; a known one yields a fresh character of that archetype at full health |
| Agents.Discretize | src/agent.py:24-30 | the bucket lies in 0..10: 0 for no health, 10 for full or more, and in between it is the floor of health/max times 10 |
| Agents.DiscretizeMonotone | src/agent.py:24-30 | more health never gives a lower bucket |
| Agents.FloorDiv | src/agent.py:29-30 | integer division brackets its dividend and keeps its sign |
| Agents.TypeIndex | src/agent.py:21 | type indices are below 3 |
| Agents.TypeIndexInjective | src/agent.py:21 | distinct archetypes get distinct indices |
| Agents.Observe | src/agent.py:82-99 | the state key lies in the state space and carries the given alive counts |
| Agents.QValue | src/agent.py:206 | the table lookup with default 0.0 (also line 214); what it means is carried by QValueUpdate, MaxQ and QUpdate |
| Agents.QValueUpdate | src/agent.py:206-218 | after writing one pair, that pair reads as the written value and every other pair reads as before |
| Agents.MaxQ | src/agent.py:211-215 | the maximum bounds the value of every listed action and is attained by one of them |
| Agents.QUpdate | src/agent.py:199-218 | only the (state, action) entry is written; every other entry is kept; the entry moves by alpha times the temporal-difference error |
| Agents.QUpdateBetween | src/agent.py:217-218 | for alpha in [0, 1] the new value lies between the old value and the target |
| Agents.CountAliveOf | src/agent.py:74-76 | the count is at most the team size; CountAliveOfIsCardinality carries its meaning, the number of living positions |
| Agents.CountAliveOfIsCardinality | src/agent.py:74-76 | the count equals the number of living members' indices |
| Agents.AliveOf | src/agent.py:65-67 | the list holds exactly the team's living members, and its length is the alive count |
| Agents.BenchOf | src/agent.py:69-72 | the bench holds exactly the indices of living non-active members, in ascending order |
| Agents.QLearningAgent.constructor | src/agent.py:39-58 | active index 0, empty table, alpha 0.1, gamma 0.9, epsilon 0.2 |
| Agents.NewAgent | src/agent.py:44-45 | a team whose size is not three is the error result |
| Agents.QLearningAgent.Active | src/agent.py:60-63 | the active character is a member of the team |
| Agents.QLearningAgent.AliveTeam | src/agent.py:65-67 | exactly the living members of the team |
| Agents.QLearningAgent.Bench | src/agent.py:69-72 | exactly the living non-active indices, ascending |
| Agents.QLearningAgent.CountAlive | src/agent.py:74-76 | equals the length of the alive list, at most the team size |
| Agents.QLearningAgent.HasSwitchAvailable | src/agent.py:78-80 | true exactly when some living member other than the active one exists |
| Agents.QLearningAgent.GetState | src/agent.py:82-99 | the key lies in the state space; the alive counts are the numbers of living members on each side |
| Agents.QLearningAgent.AllowedActions | src/agent.py:101-115 | attack and defend always come first; the special attack is allowed exactly when the cooldown is at most 0; switch is allowed exactly when a living bench member exists; there are no duplicates |
| Agents.QLearningAgent.ChooseAction | src/agent.py:117-140 | the choice is always allowed; when the roll is not below epsilon, no allowed action has a higher value |
| Agents.QLearningAgent.ChooseSwitchTarget | src/agent.py:142-155 | no target exactly when the bench is empty; otherwise a living non-active index |
| Agents.QLearningAgent.PerformSwitch | src/agent.py:157-180 | an explicit target succeeds exactly when it is in range and alive, and becomes active; with no target, it succeeds exactly when the bench is not empty, landing on a bench member; failure changes nothing |
| Agents.QLearningAgent.ForceSwitchIfFainted | src/agent.py:182-197 | succeeds exactly when not all members have fainted; a living active character stays; otherwise the first living member becomes active |
| Agents.QLearningAgent.UpdateQ | src/agent.py:199-218 | the table becomes the one-step update of the old table |
| Agents.QLearningAgent.ResetForEpisode | src/agent.py:220-224 | active index 0; every member at full health, no defence, cooldown 3 |
| Agents.QLearningAgent.AllFainted | src/agent.py:226-228 | the team has all fainted exactly when its alive list is empty |
| Agents.QLearningAgent.AllFaintedIffNoneAlive | src/agent.py:226-228 | all fainted exactly when the alive count is 0, exactly when every member's health is at most 0 |
| FixedAgents.Options | src/fixed_agent.py:20-28 | attack and defend are always offered, switch never; the special attack exactly when the cooldown is at most 0 |
| FixedAgents.FixedAgent.constructor | src/fixed_agent.py:15-18 | the agent keeps its character and starts not defending |
| FixedAgents.FixedAgent.ChooseAction | src/fixed_agent.py:20-28 | the choice is one of the offered options, never a switch, and never the special attack while cooling down |
| Battles.ResolveTurn | src/battle.py:10-79 | defends apply before strikes; a knockout gives reward damage + 100 and no counter-strike; otherwise reward is damage dealt minus damage taken, and the counter-strike only comes from a living character; healths are clamped and stay within [0, max]; cooldowns follow the actions; defend flags end cleared |
| Battles.Strike | src/battle.py:33-40 | the chosen strike applies the character damage rule, and a non-strike changes nothing; the opponent's strike at lines 57-61 uses it too |
| Battles.Battle.constructor | src/battle.py:5-8 | the battle starts with an empty log and holds two different fighting characters |
| Battles.Battle.Snapshot | src/battle.py:17 | the learner's observation lies in the state space; it is taken again at lines 50 and 74 |
| Battles.Battle.SnapshotFramed | src/battle.py:72-79 | the observation depends only on health and the active index, so clearing defend flags and writing the table do not change it |
| Battles.Battle.Step | src/battle.py:10-79 | the new statuses are those of ResolveTurn; one log entry with turn number, actions, damages and healths is appended; the table gets one update from the pre-turn to the post-turn observation with the turn's reward |
| Battles.Battle.OpenTurn | src/battle.py:25-40 | after the defends and the learner's strike, both statuses are as ResolveTurn's first half prescribes |
| Battles.Battle.AnswerStrike | src/battle.py:42-65 | a knocked-out opponent is set to 0 health and the reward is the damage plus 100, with no strike back; otherwise the opponent strikes back with the character damage rule only while the learner's character still stands, and the reward is damage dealt minus damage taken |
| Battles.Battle.EndTurn | src/battle.py:67-79 | appends the log entry, applies the table update from the given state to the current observation, and clears both defend flags; the knockout path at lines 46-53 ends the same way |
| Battles.Battle.ResetEpisode | src/battle.py:81-87 | as written: empty log; both fighters at health 100, no defence, cooldown 3 |
| Battles.Battle.ResetEpisodeOverheals | src/battle.py:81-87 | with an Offensive opponent, the reset leaves it above its maximum health |
| Battles.Battle.ResetEpisodeToFull | src/character.py:89-93 | corrected reset: both fighters at their own maximum health, so 0 < health <= max |

## Left out

- Getters and `__repr__` are not modelled: the getters are read as the fields `health`, `cooldown`, `MaxHealth()` and so on. The abstract-base-class machinery is also left out.
- The setters `setgamma`, `setalpha` and `setepsilon` are left out. They only assign a field.
- `reset_episode` also writes `attack_bonus`. No other code reads that field, so it is left out.
- Speed is kept as a stat, but no initiative or ordering uses it. The modelled turn has a fixed order: the learner strikes first.
- Battle log entries are structured values. The formatted text of the source's log strings is left out.
- `Agents.Discretize` uses integer floor division in place of the floating-point ratio `health / max_health * 10`. The two agree except where float rounding moves an exact multiple across a bucket edge.
- `Agents.QLearningAgent.ChooseAction` takes the exploration draw as `roll` and resolves "at random among" with `:|`. The distribution of choices is not modelled.
- `FixedAgents.FixedAgent.ChooseAction` also uses `:|`, so it states which choices are possible, not how likely each is.
- `Agents.QLearningAgent.ChooseSwitchTarget` and `PerformSwitch` share that limitation: the random bench choice becomes a nondeterministic one.
- `Battles.Battle.Snapshot` follows the evident intent, not the code as written. src/battle.py:17, 18, 50 and 74 hand the opponent's Character to `get_state` and `choose_action`. `get_state` then reads `enemy_agent.character` (src/agent.py:90), which a Character does not have, so `step` as written raises at line 17. The model treats the opponent as a lone character whose alive count is 1 or 0.
- `Battles.Battle.Step`: a chosen switch deals no damage and changes no active index. The battle code never calls `perform_switch`, so the model follows the code.
- `Battles.Battle.Valid` excludes one setup: the opponent's character also being a member of the learner's team. The source does not forbid that aliasing.
- main.py:54 builds `Battle` with two learning agents and an `initiative_mode` argument, and main.py:87 calls `get_winner`. src/battle.py supports neither. It pits one learner against the scripted opponent and grants +100 on a knockout. The model follows src/battle.py.
- The training loop, episode counts, command-line reporting and statistics live outside the modelled files.

## Findings

| source | as written | input that shows it | evidently intended | confidence | as-written member | corrected member |
|---|---|---|---|---|---|---|
| src/battle.py:84 | `reset_episode` sets each fighter's health to the literal 100 | an Offensive opponent (maximum health 70) is reset to 100 health | reset to the archetype's own maximum, as `reset_for_battle` does | not executed | Battles.Battle.ResetEpisodeOverheals | Battles.Battle.ResetEpisodeToFull |
