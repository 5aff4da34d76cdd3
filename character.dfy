/** The character data a resolution reads: the six ability scores the attribute
    provider returns, the skill ranks the skill provider returns and the feats the
    feat provider returns. The engine only reads them. */
module Character {

  datatype Ability = Strength | Dexterity | Constitution | Intelligence | Wisdom | Charisma

  /** The six ability scores, in the order the attribute provider returns them. */
  datatype AbilityScores = AbilityScores(
    strength: nat, dexterity: nat, constitution: nat,
    intelligence: nat, wisdom: nat, charisma: nat)
  {
    function Score(a: Ability): nat {
      match a
      case Strength => strength
      case Dexterity => dexterity
      case Constitution => constitution
      case Intelligence => intelligence
      case Wisdom => wisdom
      case Charisma => charisma
    }
  }

  /** Skills of the skill enumeration. Only sense motive is read by the checks
      modelled here; every other skill is known by its index. */
  datatype Skill = SenseMotive | OtherSkill(index: nat)

  /** Feats of the feat enumeration. Only the two feats that grant a check bonus
      are named; every other feat is known by its index. */
  datatype Feat = ImprovedInitiative | Negotiator | OtherFeat(index: nat)

  /** What the three providers return for one character. A skill without an
      entry has rank 0; a feat is held exactly when it is in the set. */
  datatype Sheet = Sheet(abilities: AbilityScores, ranks: map<Skill, nat>, feats: set<Feat>)
  {
    function Rank(s: Skill): nat {
      if s in ranks then ranks[s] else 0
    }
  }

  /** The all-zero record a provider returns for a character it holds nothing for. */
  const Blank: Sheet := Sheet(AbilityScores(0, 0, 0, 0, 0, 0), map[], {})
}
