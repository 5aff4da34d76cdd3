/** The combat-resolution library: checks (initiative, sense motive), attack
    resolution with critical threat and confirmation, and damage. Every operation
    is a pure function of the character's sheet, its parameters and the draws the
    random source supplied. */
module Roll {
  import opened Character
  import opened Dice

  datatype Option<T> = None | Some(value: T)

  // ---------------------------------------------------------------------------
  // Leaf helpers

  /** The ability modifier: half the score, rounded down, less five. */
  function AbilityModifier(score: nat): (m: int)
    ensures m >= -5
    ensures 2 * (m + 5) <= score < 2 * (m + 5) + 2
  {
    score / 2 - 5
  }

  /** A higher ability score never gives a lower modifier. */
  lemma AbilityModifierMonotone(s: nat, t: nat)
    requires s <= t
    ensures AbilityModifier(s) <= AbilityModifier(t)
  {
  }

  /** A die roll plus a signed delta, never below zero. */
  function ClampedAdd(roll: nat, delta: int): (r: nat)
    ensures r >= roll + delta
    ensures r > roll + delta ==> r == 0
  {
    if roll + delta < 0 then 0 else roll + delta
  }

  // ---------------------------------------------------------------------------
  // Checks

  /** The result of a check: the raw d20 and the adjusted score. */
  datatype RollOutcome = RollOutcome(roll: nat, score: nat)

  /** One ability/skill/feat check: the ability whose modifier applies, the skill
      whose rank is added (if any), and the feat that grants featBonus (if any). */
  datatype CheckKind = CheckKind(ability: Ability, skill: Option<Skill>, feat: Option<Feat>, featBonus: nat)

  const InitiativeCheck: CheckKind := CheckKind(Dexterity, None, Some(ImprovedInitiative), 4)
  const SenseMotiveCheck: CheckKind := CheckKind(Wisdom, Some(SenseMotive), Some(Negotiator), 2)

  function SkillBonus(kind: CheckKind, sheet: Sheet): nat {
    match kind.skill
    case None => 0
    case Some(s) => sheet.Rank(s)
  }

  function FeatBonus(kind: CheckKind, sheet: Sheet): nat {
    match kind.feat
    case None => 0
    case Some(f) => if f in sheet.feats then kind.featBonus else 0
  }

  /** The check template. Only roll plus ability modifier is floored at zero;
      the skill rank and the feat bonus are added afterwards, so the score is the
      larger of the unfloored total and the skill-plus-feat investment. */
  function Check(kind: CheckKind, sheet: Sheet, roll: nat): (o: RollOutcome)
    ensures o.roll == roll
    ensures o.score >= SkillBonus(kind, sheet) + FeatBonus(kind, sheet)
    ensures o.score >= roll + AbilityModifier(sheet.abilities.Score(kind.ability))
                        + SkillBonus(kind, sheet) + FeatBonus(kind, sheet)
    ensures o.score > SkillBonus(kind, sheet) + FeatBonus(kind, sheet) ==>
              o.score == roll + AbilityModifier(sheet.abilities.Score(kind.ability))
                         + SkillBonus(kind, sheet) + FeatBonus(kind, sheet)
  {
    var base := ClampedAdd(roll, AbilityModifier(sheet.abilities.Score(kind.ability)));
    RollOutcome(roll, base + SkillBonus(kind, sheet) + FeatBonus(kind, sheet))
  }

  /** A higher roll or a higher ability score never lowers a check's score. */
  lemma CheckMonotone(kind: CheckKind, lo: Sheet, hi: Sheet, r1: nat, r2: nat)
    requires r1 <= r2
    requires lo.ranks == hi.ranks && lo.feats == hi.feats
    requires lo.abilities.Score(kind.ability) <= hi.abilities.Score(kind.ability)
    ensures Check(kind, lo, r1).score <= Check(kind, hi, r2).score
  {
    AbilityModifierMonotone(lo.abilities.Score(kind.ability), hi.abilities.Score(kind.ability));
  }

  /** Initiative: d20 plus the Dexterity modifier, floored at zero, then +4 with
      the improved initiative feat. */
  function Initiative(sheet: Sheet, roll: nat): (o: RollOutcome)
    ensures o.roll == roll
    ensures var bonus := if ImprovedInitiative in sheet.feats then 4 else 0;
      && o.score >= bonus
      && o.score >= roll + AbilityModifier(sheet.abilities.dexterity) + bonus
      && (o.score > bonus ==> o.score == roll + AbilityModifier(sheet.abilities.dexterity) + bonus)
  {
    Check(InitiativeCheck, sheet, roll)
  }

  /** Sense motive: d20 plus the Wisdom modifier, floored at zero, then the sense
      motive rank and +2 with the negotiator feat. */
  function SenseMotiveRoll(sheet: Sheet, roll: nat): (o: RollOutcome)
    ensures o.roll == roll
    ensures var bonus := sheet.Rank(SenseMotive) + if Negotiator in sheet.feats then 2 else 0;
      && o.score >= bonus
      && o.score >= roll + AbilityModifier(sheet.abilities.wisdom) + bonus
      && (o.score > bonus ==> o.score == roll + AbilityModifier(sheet.abilities.wisdom) + bonus)
  {
    Check(SenseMotiveCheck, sheet, roll)
  }

  // ---------------------------------------------------------------------------
  // Attack

  /** attackBonus is added to the d20; the threat range is [20 + criticalThreatOffset, 20];
      a confirmed critical multiplies damage by 1 + criticalMultiplierBonus. */
  datatype AttackParams = AttackParams(
    attackBonus: int, criticalThreatOffset: int, criticalMultiplierBonus: nat, armorClass: nat)

  /** A d20 plus the attack bonus reaches the armour class (inclusive). */
  predicate Hits(p: AttackParams, d20: nat) {
    d20 + p.attackBonus >= p.armorClass
  }

  /** The natural roll lies in the threat range. */
  predicate InThreatRange(p: AttackParams, roll: nat) {
    roll >= 20 + p.criticalThreatOffset
  }

  /** The first roll is a threat that hits, so a confirmation roll is drawn. */
  predicate NeedsConfirmation(p: AttackParams, roll: nat) {
    roll != 1 && Hits(p, roll) && InThreatRange(p, roll)
  }

  /** The random source has supplied every draw the attack asks for: the attack
      roll, and the confirmation roll when it is needed. */
  predicate EnoughDraws(p: AttackParams, draws: seq<nat>) {
    |draws| >= 1 && (NeedsConfirmation(p, draws[0]) ==> |draws| >= 2)
  }

  /** How an attack ended, as a state machine: a natural 1, a miss, a plain hit,
      or a threat whose confirmation failed or succeeded. */
  datatype Resolution = Natural1 | Miss | Hit | CritUnconfirmed | CritConfirmed(confirmation: int)

  function Resolve(p: AttackParams, draws: seq<nat>): (res: Resolution)
    requires EnoughDraws(p, draws)
    ensures res.Natural1? <==> draws[0] == 1
    ensures res.Miss? <==> draws[0] != 1 && !Hits(p, draws[0])
    ensures res.Hit? <==> draws[0] != 1 && Hits(p, draws[0]) && !InThreatRange(p, draws[0])
    ensures res.CritUnconfirmed? <==> NeedsConfirmation(p, draws[0]) && !Hits(p, draws[1])
    ensures res.CritConfirmed? <==> NeedsConfirmation(p, draws[0]) && Hits(p, draws[1])
    ensures res.CritConfirmed? ==> res.confirmation == draws[1] + p.attackBonus
  {
    var roll := draws[0];
    if roll == 1 then Natural1
    else if !Hits(p, roll) then Miss
    else if !InThreatRange(p, roll) then Hit
    else if Hits(p, draws[1]) then CritConfirmed(draws[1] + p.attackBonus)
    else CritUnconfirmed
  }

  /** The flat result record of an attack. */
  datatype AttackOutcome = AttackOutcome(
    roll: nat, score: int, criticalRoll: nat, criticalConfirmation: int, damageMultiplier: nat)

  function Report(p: AttackParams, roll: nat, res: Resolution): AttackOutcome {
    match res
    case Natural1 => AttackOutcome(roll, 0, 0, 0, 0)
    case Miss => AttackOutcome(roll, roll + p.attackBonus, 0, 0, 0)
    case Hit => AttackOutcome(roll, roll + p.attackBonus, 0, 0, 1)
    case CritUnconfirmed => AttackOutcome(roll, roll + p.attackBonus, roll, 0, 1)
    case CritConfirmed(c) => AttackOutcome(roll, roll + p.attackBonus, roll, c, 1 + p.criticalMultiplierBonus)
  }

  /** Resolves an attack from the d20 draws the random source supplied. */
  function Attack(p: AttackParams, draws: seq<nat>): (o: AttackOutcome)
    requires EnoughDraws(p, draws) && IsDraw(draws[0], 20)
    ensures o.roll == draws[0]
    ensures o.score == if draws[0] == 1 then 0 else draws[0] + p.attackBonus
    // a natural 1 or a roll short of the armour class deals no damage; anything else hits
    ensures o.damageMultiplier == 0 <==> draws[0] == 1 || !Hits(p, draws[0])
    // the critical roll is the natural roll exactly when it is a threat that hits
    ensures o.criticalRoll == (if NeedsConfirmation(p, draws[0]) then draws[0] else 0)
    ensures NeedsConfirmation(p, draws[0]) <==> o.criticalRoll != 0
    ensures o.criticalConfirmation ==
              (if NeedsConfirmation(p, draws[0]) && Hits(p, draws[1]) then draws[1] + p.attackBonus else 0)
    ensures o.damageMultiplier ==
              (if NeedsConfirmation(p, draws[0]) && Hits(p, draws[1]) then 1 + p.criticalMultiplierBonus
               else if draws[0] != 1 && Hits(p, draws[0]) then 1
               else 0)
  {
    Report(p, draws[0], Resolve(p, draws))
  }

  /** A natural 1 is an all-zero outcome whatever the bonuses. */
  lemma AttackNatural1(p: AttackParams, draws: seq<nat>)
    requires |draws| >= 1 && draws[0] == 1
    ensures EnoughDraws(p, draws)
    ensures Attack(p, draws) == AttackOutcome(1, 0, 0, 0, 0)
  {
  }

  /** The attack consumes one draw, or two when the first is a threat that hits:
      draws after those never change the outcome. */
  lemma AttackReadsOnlyItsDraws(p: AttackParams, a: seq<nat>, b: seq<nat>)
    requires EnoughDraws(p, a) && IsDraw(a[0], 20)
    requires EnoughDraws(p, b) && a[0] == b[0]
    requires NeedsConfirmation(p, a[0]) ==> a[1] == b[1]
    ensures Attack(p, a) == Attack(p, b)
  {
  }

  /** A threat that hits but whose confirmation misses is a plain hit that still
      reports the natural roll as critical roll. */
  lemma AttackUnconfirmedThreat(p: AttackParams, draws: seq<nat>)
    requires EnoughDraws(p, draws) && IsDraw(draws[0], 20)
    requires NeedsConfirmation(p, draws[0]) && !Hits(p, draws[1])
    ensures Attack(p, draws) == AttackOutcome(draws[0], draws[0] + p.attackBonus, draws[0], 0, 1)
  {
  }

  /** A larger attack bonus never lowers the damage multiplier. */
  lemma AttackBonusMonotone(p: AttackParams, q: AttackParams, draws: seq<nat>)
    requires p.attackBonus <= q.attackBonus
    requires p.criticalThreatOffset == q.criticalThreatOffset
    requires p.criticalMultiplierBonus == q.criticalMultiplierBonus && p.armorClass == q.armorClass
    requires EnoughDraws(p, draws) && EnoughDraws(q, draws) && IsDraw(draws[0], 20)
    ensures Attack(p, draws).damageMultiplier <= Attack(q, draws).damageMultiplier
  {
  }

  /** Widening the threat range never lowers the damage multiplier. */
  lemma ThreatRangeMonotone(p: AttackParams, q: AttackParams, draws: seq<nat>)
    requires p.attackBonus == q.attackBonus
    requires q.criticalThreatOffset <= p.criticalThreatOffset
    requires p.criticalMultiplierBonus == q.criticalMultiplierBonus && p.armorClass == q.armorClass
    requires EnoughDraws(p, draws) && EnoughDraws(q, draws) && IsDraw(draws[0], 20)
    ensures Attack(p, draws).damageMultiplier <= Attack(q, draws).damageMultiplier
  {
  }

  /** The hit rule has no exception for a natural 20: when 20 plus the bonus falls
      short of the armour class, a natural 20 misses like any other roll. */
  lemma AttackNatural20CanMiss(p: AttackParams)
    requires 20 + p.attackBonus < p.armorClass
    ensures EnoughDraws(p, [20])
    ensures Attack(p, [20]) == AttackOutcome(20, 20 + p.attackBonus, 0, 0, 0)
  {
  }

  // ---------------------------------------------------------------------------
  // Damage

  /** Dice total plus modifier, never below one. */
  function DamageBase(sum: nat, modifier: int): (b: nat)
    ensures b >= 1 && b >= sum + modifier
    ensures b > sum + modifier ==> b == 1
  {
    if sum + modifier < 1 then 1 else sum + modifier
  }

  lemma MulMonotone(a: nat, b: nat, m: nat)
    requires a <= b
    ensures a * m <= b * m
  {
  }

  /** Damage of diceCount dice of dieSides sides: the dice total plus the modifier
      is floored at one, and only then multiplied. */
  function Damage(diceCount: nat, dieSides: nat, modifier: int, multiplier: nat, draws: seq<nat>): (total: nat)
    requires |draws| == diceCount && AllDraws(draws, dieSides)
    ensures total >= multiplier
    ensures total == 0 <==> multiplier == 0
    ensures DamageBase(diceCount, modifier) * multiplier <= total
    ensures total <= DamageBase(diceCount * dieSides, modifier) * multiplier
  {
    SumBounds(draws, dieSides);
    MulMonotone(DamageBase(diceCount, modifier), DamageBase(Sum(draws), modifier), multiplier);
    MulMonotone(DamageBase(Sum(draws), modifier), DamageBase(diceCount * dieSides, modifier), multiplier);
    MulMonotone(1, DamageBase(Sum(draws), modifier), multiplier);
    DamageBase(Sum(draws), modifier) * multiplier
  }

  /** Rolling at least as high on every die never lowers the damage. */
  lemma {:induction false} DamageMonotone(
    diceCount: nat, dieSides: nat, modifier: int, multiplier: nat, a: seq<nat>, b: seq<nat>)
    requires |a| == diceCount && AllDraws(a, dieSides)
    requires |b| == diceCount && AllDraws(b, dieSides)
    requires forall i :: 0 <= i < diceCount ==> a[i] <= b[i]
    ensures Damage(diceCount, dieSides, modifier, multiplier, a)
            <= Damage(diceCount, dieSides, modifier, multiplier, b)
  {
    SumMonotone(a, b);
    MulMonotone(DamageBase(Sum(a), modifier), DamageBase(Sum(b), modifier), multiplier);
  }
}
