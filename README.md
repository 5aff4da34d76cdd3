# Roll: combat resolution for a tabletop-RPG character

A model of the `Roll` library of the rarity test repository: the rules that turn
a character's ability scores, skill ranks and feats, together with draws from a
random source, into an initiative score, a sense-motive score, an attack result
(natural 1, miss, hit, critical threat, confirmed critical) and a damage total.

The library's Solidity source is not part of this model; its behaviour is taken
from the library's tests (`test/library/roll.ts`), whose every vector is a lemma
in `roll_vectors.dfy`. Everything is a pure function:

- `character.dfy` (module `Character`): the six ability scores, skill ranks as a
  map from a skill enumeration (a missing skill has rank 0), and feats as a set.
- `dice.dfy` (module `Dice`): draws are naturals in `[1, sides]`; `Sum` totals a
  run of dice.
- `roll.dfy` (module `Roll`): the ability modifier `score / 2 - 5`; `ClampedAdd`
  (`max(roll + delta, 0)`); one parameterised `Check` of which `Initiative`
  (Dexterity, +4 for improved initiative) and `SenseMotiveRoll` (Wisdom, the
  sense-motive rank, +2 for negotiator) are instances; `Attack`, which resolves
  to a tagged `Resolution` and reports the flat record of the library
  (`roll, score, critical_roll, critical_confirmation, damage_multiplier`); and
  `Damage`, `max(sum + modifier, 1) * multiplier`. The dice total plus the
  modifier is floored once, not per die: the 2d6-1 vectors give 22 for 6, 6 and
  2 for 1, 1, where applying the modifier to each die and flooring each at one
  gives 20 and 4.
- `roll_vectors.dfy` (module `RollVectors`): one lemma per test vector.

The random source is a parameter: a check takes its d20, an attack takes the
sequence of d20 draws and reads one of them, or two when the first is a threat
that hits, and damage takes one draw per die. The tests' mock returns the same
value on every call, so their draw sequences repeat one value.

Hitting is `roll + attackBonus >= armorClass`, and only a natural 1 is special.
The model gives a natural 20 no automatic hit (`Roll.AttackNatural20CanMiss`):
this is the model's own rule, following that hit rule; no test vector rolls a
natural 20.

## Model

| member | source | states |
|---|---|---|
| `Roll.AbilityModifier` | test/library/roll.ts:47-53 | the modifier m is at least -5 and is the whole number with 2(m+5) <= score < 2(m+5)+2, i.e. half the score rounded down, less five |
| `Roll.AbilityModifierMonotone` | test/library/roll.ts:47-53 | a higher ability score never gives a lower modifier |
| `Roll.ClampedAdd` | test/library/roll.ts:72-96 | the result is the least natural at or above roll + delta: it is roll + delta, or 0 when that is negative |
| `Roll.Check` | test/library/roll.ts:38-107 | the raw roll is returned unchanged; the score is the larger of roll + ability modifier + skill rank + feat bonus and skill rank + feat bonus, so only the ability modifier is floored and the skill and feat investment is never lost |
| `Roll.CheckMonotone` | test/library/roll.ts:38-107 | a higher roll or a higher ability score never lowers a check's score |
| `Roll.Initiative` | test/library/roll.ts:38-68 | raw roll returned; score is the larger of roll + Dexterity modifier + (4 with improved initiative, else 0) and that feat bonus alone |
| `Roll.SenseMotiveRoll` | test/library/roll.ts:71-107 | raw roll returned; score is the larger of roll + Wisdom modifier + sense-motive rank + (2 with negotiator, else 0) and the rank plus that feat bonus |
| `Roll.Resolve` | test/library/roll.ts:110-150 | the attack ends as exactly one of: natural 1 iff the roll is 1; miss iff not a 1 and roll + bonus < armour class; plain hit iff it hits outside the threat range; unconfirmed or confirmed critical iff it hits inside the threat range, confirmed iff the second draw + bonus reaches the armour class, carrying that confirmation score |
| `Roll.Attack` | test/library/roll.ts:110-150 | the roll field is the raw draw; score is 0 on a natural 1 else roll + bonus; multiplier is 0 exactly on a natural 1 or a miss, 1 + criticalMultiplierBonus on a confirmed critical and 1 otherwise; critical_roll is the natural roll exactly when it is a hitting threat, else 0; critical_confirmation is the confirmation score on a confirmed critical, else 0 |
| `Roll.AttackNatural1` | test/library/roll.ts:111-119 | a natural 1 needs no second draw and gives the all-zero outcome whatever the bonus, threat range and armour class |
| `Roll.AttackReadsOnlyItsDraws` | test/library/roll.ts:141-149 | the attack depends only on its first draw, and on the second only when the first is a threat that hits |
| `Roll.AttackUnconfirmedThreat` | test/library/roll.ts:141-149 | a hitting threat whose confirmation misses reports the natural roll as critical_roll, confirmation 0 and multiplier 1; no vector fails a confirmation, so this branch is the model's inference from the confirmed case |
| `Roll.AttackNatural20CanMiss` | test/library/roll.ts:121-139 | when 20 + bonus falls short of the armour class, a natural 20 is a miss with multiplier 0 and no critical fields; the model's own rule, extending the inclusive score-versus-armour-class comparison of these vectors, which no vector exercises at 20 |
| `Roll.AttackBonusMonotone` | test/library/roll.ts:121-149 | a larger attack bonus never lowers the damage multiplier |
| `Roll.ThreatRangeMonotone` | test/library/roll.ts:141-149 | widening the threat range (a lower offset) never lowers the damage multiplier |
| `Roll.DamageBase` | test/library/roll.ts:173-176 | dice total plus modifier, floored at one: at least 1 and at least sum + modifier, and equal to 1 whenever it exceeds sum + modifier |
| `Roll.Damage` | test/library/roll.ts:152-176 | damage is at least the multiplier (the floor of one is applied before multiplying), is 0 exactly when the multiplier is 0, and lies between the floored minimum (every die 1) and the floored maximum (every die dieSides) times the multiplier |
| `Roll.DamageMonotone` | test/library/roll.ts:152-171 | rolling at least as high on every die never lowers the damage |
| `Dice.Sum` | test/library/roll.ts:163-171 | the total of the dice is at least each single die |
| `Dice.SumBounds` | test/library/roll.ts:163-171 | n dice of N sides total between n and n * N |
| `Dice.SumMonotone` | test/library/roll.ts:163-171 | a pointwise higher run of dice has a total at least as high |
| `RollVectors.InitiativeMinimum` | test/library/roll.ts:39-45 | Dexterity 9, roll 1: score 0 (roll plus modifier is exactly 0) |
| `RollVectors.InitiativeDexterous` | test/library/roll.ts:47-53 | Dexterity 18, roll 1: score 5 |
| `RollVectors.InitiativeImprovedFeat` | test/library/roll.ts:55-68 | Dexterity 12 with improved initiative, roll 1: score 6 |
| `RollVectors.SenseMotiveMinimum` | test/library/roll.ts:72-76 | all-zero character, roll 1: score 0 |
| `RollVectors.SenseMotiveWise` | test/library/roll.ts:78-85 | Wisdom 18, roll 1: score 5 |
| `RollVectors.SenseMotiveSkilled` | test/library/roll.ts:87-96 | Wisdom 0 and sense-motive rank 4, roll 1: score 4 (rank added after the floor) |
| `RollVectors.SenseMotiveNegotiator` | test/library/roll.ts:98-107 | negotiator feat only, roll 1: score 2 |
| `RollVectors.AttackCriticalMiss` | test/library/roll.ts:111-119 | bonus 1, offset -1, multiplier bonus 2, armour class 15, roll 1: all-zero outcome |
| `RollVectors.AttackMiss` | test/library/roll.ts:121-129 | same parameters, roll 10: score 11, multiplier 0 |
| `RollVectors.AttackHit` | test/library/roll.ts:131-139 | same parameters, roll 14: score 15 equals the armour class, multiplier 1, no critical fields |
| `RollVectors.AttackCriticalHit` | test/library/roll.ts:141-149 | same parameters, rolls 19 and 19: score 20, critical roll 19, confirmation 20, multiplier 3 |
| `RollVectors.Damage1d8Plus1Max` | test/library/roll.ts:153-156 | 1d8+1 x1 rolling 8: 9 |
| `RollVectors.Damage1d8Plus1Min` | test/library/roll.ts:158-161 | 1d8+1 x1 rolling 1: 2 |
| `RollVectors.Damage2d6Minus1Times2Max` | test/library/roll.ts:163-166 | 2d6-1 x2 rolling 6, 6: 22 |
| `RollVectors.Damage2d6Minus1Times2Min` | test/library/roll.ts:168-171 | 2d6-1 x2 rolling 1, 1: 2 |
| `RollVectors.DamageAtLeastOne` | test/library/roll.ts:173-176 | 1d12-100 x1 rolling 1: 1, the floor of one |

## Left out

- The Solidity library `contracts/library/Roll.sol` is not part of this model. The rules here are consistent with every test vector, but take more than the vectors fix:
  - the ability modifier `score / 2 - 5` everywhere (the vectors fix it at 12 and 18, and at 0 and 9 show only that it is at most -1);
  - initiative floors roll plus modifier at zero, before the feat bonus: the Dexterity-9 vector gives 0 with or without a floor, and the only feat vector has roll plus modifier 2;
  - no automatic hit on a natural 20 (no vector rolls 20);
  - a hitting threat whose confirmation misses gives critical roll = natural roll, confirmation 0, multiplier 1 (no vector fails a confirmation).
  - damage floors dice plus modifier at one before multiplying (the multiplier-2 vectors have dice plus modifier 11 and 1, so the floor never acts there, and the 1d12-100 vector where it acts has multiplier 1; flooring after the multiply gives the same five results);
  - critical_roll is the first draw, not the confirmation die (the mock returns 19 for both draws of the only critical vector);
  - a roll in the threat range that misses is a plain miss with no confirmation draw (the only threat vector, roll 19, hits).
- Random number generation (`Random.dn`): draws are parameters, each assumed in `[1, sides]` as the random source guarantees.
- Storage of attributes, skills and feats (fixed 36-entry skill and 100-entry feat arrays): modelled as a map and a set over an enumeration in which only sense motive, improved initiative and negotiator are named, because the full skill and feat lists are not part of this model.
- Validation errors (dice count or die sides below 1, negative multiplier) and 256-bit overflow: no test exercises them, and integers here are unbounded; `Damage` with zero dice simply floors the modifier at one.
- Test plumbing: mock deployment, library linking and per-test character ids.
- Other checks of the same ability/skill/feat shape are instances of `Roll.Check` and are not enumerated.
