/** The library's test vectors, one lemma each. The mocked random source returns
    the same value on every call, so a vector's draws repeat that value. A
    character the providers hold nothing for reads as the all-zero Blank sheet. */
module RollVectors {
  import opened Character
  import opened Roll

  function WithAbilities(a: AbilityScores): Sheet {
    Blank.(abilities := a)
  }

  // Initiative

  lemma InitiativeMinimum()
    ensures Initiative(WithAbilities(AbilityScores(0, 9, 0, 0, 0, 0)), 1) == RollOutcome(1, 0)
  {
  }

  lemma InitiativeDexterous()
    ensures Initiative(WithAbilities(AbilityScores(0, 18, 0, 0, 0, 0)), 1) == RollOutcome(1, 5)
  {
  }

  lemma InitiativeImprovedFeat()
    ensures Initiative(Sheet(AbilityScores(0, 12, 0, 0, 0, 0), map[], {ImprovedInitiative}), 1)
            == RollOutcome(1, 6)
  {
  }

  // Sense motive

  lemma SenseMotiveMinimum()
    ensures SenseMotiveRoll(Blank, 1) == RollOutcome(1, 0)
  {
  }

  lemma SenseMotiveWise()
    ensures SenseMotiveRoll(WithAbilities(AbilityScores(0, 0, 0, 0, 18, 0)), 1) == RollOutcome(1, 5)
  {
  }

  lemma SenseMotiveSkilled()
    ensures SenseMotiveRoll(Blank.(ranks := map[SenseMotive := 4]), 1) == RollOutcome(1, 4)
  {
  }

  lemma SenseMotiveNegotiator()
    ensures SenseMotiveRoll(Blank.(feats := {Negotiator}), 1) == RollOutcome(1, 2)
  {
  }

  // Attack: bonus 1, threat offset -1, multiplier bonus 2, armour class 15

  const Vector: AttackParams := AttackParams(1, -1, 2, 15)

  lemma AttackCriticalMiss()
    ensures EnoughDraws(Vector, [1, 1])
    ensures Attack(Vector, [1, 1]) == AttackOutcome(1, 0, 0, 0, 0)
  {
  }

  lemma AttackMiss()
    ensures EnoughDraws(Vector, [10, 10])
    ensures Attack(Vector, [10, 10]) == AttackOutcome(10, 11, 0, 0, 0)
  {
  }

  lemma AttackHit()
    ensures EnoughDraws(Vector, [14, 14])
    ensures Attack(Vector, [14, 14]) == AttackOutcome(14, 15, 0, 0, 1)
  {
  }

  lemma AttackCriticalHit()
    ensures EnoughDraws(Vector, [19, 19])
    ensures Attack(Vector, [19, 19]) == AttackOutcome(19, 20, 19, 20, 3)
  {
  }

  // Damage

  lemma Damage1d8Plus1Max()
    ensures Damage(1, 8, 1, 1, [8]) == 9
  {
  }

  lemma Damage1d8Plus1Min()
    ensures Damage(1, 8, 1, 1, [1]) == 2
  {
  }

  lemma Damage2d6Minus1Times2Max()
    ensures Damage(2, 6, -1, 2, [6, 6]) == 22
  {
  }

  lemma Damage2d6Minus1Times2Min()
    ensures Damage(2, 6, -1, 2, [1, 1]) == 2
  {
  }

  lemma DamageAtLeastOne()
    ensures Damage(1, 12, -100, 1, [1]) == 1
  {
  }
}
