/**
 * The V5 character-creation rules of enhanced_character_system.py: the derived statistics
 * (Health, Willpower and the Blood Potency benefits), the choice of power-level bonuses, the
 * merge of both into the character dict, and the power level an imported sheet's experience
 * earns.
 *
 * The character dict is modelled by its integer entries (`fields`); its text entries (name,
 * concept, ...) are never touched by the code modelled here.
 */
module CharacterRules {
  import opened Wrappers
  import opened Dicts

  // ---------------------------------------------------------------------------------------
  // Derived statistics

  /** One row of `blood_potency_table`. */
  datatype BloodPotencyBenefits = BloodPotencyBenefits(surge: int, mend: int, powerBonus: int,
                                                       rouseReroll: int, feedingPenalty: int, baneSeverity: int)

  /** `blood_potency_table`, the row for Blood Potency i at index i. */
  const BloodPotencyTable: seq<BloodPotencyBenefits> := [
    BloodPotencyBenefits(1, 1, 0, 0, 0, 0),
    BloodPotencyBenefits(2, 1, 0, 0, 0, 1),
    BloodPotencyBenefits(2, 2, 1, 1, 0, 1),
    BloodPotencyBenefits(3, 2, 1, 1, 1, 2),
    BloodPotencyBenefits(3, 3, 2, 2, 1, 2),
    BloodPotencyBenefits(4, 3, 2, 2, 2, 3),
    BloodPotencyBenefits(4, 3, 3, 3, 2, 3),
    BloodPotencyBenefits(5, 3, 3, 3, 3, 3),
    BloodPotencyBenefits(5, 4, 4, 4, 3, 4),
    BloodPotencyBenefits(6, 4, 4, 4, 4, 4),
    BloodPotencyBenefits(6, 5, 5, 5, 4, 5)
  ]

  /** Every benefit of `a` is at most the same benefit of `b`. */
  predicate AtMost(a: BloodPotencyBenefits, b: BloodPotencyBenefits) {
    a.surge <= b.surge && a.mend <= b.mend && a.powerBonus <= b.powerBonus &&
    a.rouseReroll <= b.rouseReroll && a.feedingPenalty <= b.feedingPenalty && a.baneSeverity <= b.baneSeverity
  }

  /** `blood_potency_table.get(blood_potency, blood_potency_table[0])` */
  function BenefitsFor(bloodPotency: int): (b: BloodPotencyBenefits)
    ensures 0 <= bloodPotency <= 10 ==> b == BloodPotencyTable[bloodPotency]
    ensures !(0 <= bloodPotency <= 10) ==> b == BloodPotencyTable[0]
  {
    if 0 <= bloodPotency <= 10 then BloodPotencyTable[bloodPotency] else BloodPotencyTable[0]
  }

  /** Each row of the table grants at least what the row before it does. */
  lemma AdjacentRowsGrow(i: nat)
    requires i < 10
    ensures AtMost(BloodPotencyTable[i], BloodPotencyTable[i + 1])
  {
  }

  /** Every benefit is nondecreasing in Blood Potency over 0..10. */
  lemma {:induction false} BenefitsNondecreasing(i: int, j: int)
    requires 0 <= i <= j <= 10
    ensures AtMost(BenefitsFor(i), BenefitsFor(j))
    decreases j - i
  {
    if i < j {
      BenefitsNondecreasing(i, j - 1);
      AdjacentRowsGrow(j - 1);
    }
  }

  /** A Blood Potency outside 0..10 gets the least of every benefit: a surge of 1 and the BP-0 row. */
  lemma OutOfRangeGetsLeastBenefits(bloodPotency: int, other: int)
    requires !(0 <= bloodPotency <= 10)
    ensures BenefitsFor(bloodPotency).surge == 1
    ensures AtMost(BenefitsFor(bloodPotency), BenefitsFor(other))
  {
    if 0 <= other <= 10 {
      BenefitsNondecreasing(0, other);
    }
  }

  /** The dict `calculate_derived_stats` returns. */
  datatype DerivedStats = DerivedStats(health: int, willpower: int, benefits: BloodPotencyBenefits)

  /**
   * `calculate_derived_stats`: Health is Stamina + 3, Willpower is Composure + Resolve (each
   * defaulting to 1), and the benefits are the Blood Potency row (default Blood Potency 0).
   */
  function CalculateDerivedStats(fields: map<string, int>): (d: DerivedStats)
    ensures d.health == Get(fields, "stamina").GetOr(1) + 3
    ensures d.willpower == Get(fields, "composure").GetOr(1) + Get(fields, "resolve").GetOr(1)
    ensures d.benefits == BenefitsFor(Get(fields, "blood_potency").GetOr(0))
  {
    var stamina := Get(fields, "stamina").GetOr(1);
    var composure := Get(fields, "composure").GetOr(1);
    var resolve := Get(fields, "resolve").GetOr(1);
    DerivedStats(stamina + 3, composure + resolve, BenefitsFor(Get(fields, "blood_potency").GetOr(0)))
  }

  /** A sheet with none of the four stats: Health 4, Willpower 2, the BP-0 benefits. */
  lemma EmptySheetDefaults()
    ensures CalculateDerivedStats(map[]) == DerivedStats(4, 2, BloodPotencyBenefits(1, 1, 0, 0, 0, 0))
  {
  }

  // ---------------------------------------------------------------------------------------
  // Power levels

  /** The numeric entries of a power level's dict (its 'name' and 'description' are not read). */
  datatype Bonuses = Bonuses(bonusXp: int, bonusAttributes: int, bonusSkills: int, bonusDisciplines: int,
                             bonusAdvantages: int, bloodPotency: int, generation: int)

  /** CHARACTER_POWER_LEVELS */
  const NeonateBonuses: Bonuses := Bonuses(0, 0, 0, 0, 0, 0, 13)
  const AncillaBonuses: Bonuses := Bonuses(150, 3, 10, 2, 5, 1, 12)
  const ElderBonuses: Bonuses := Bonuses(300, 6, 20, 4, 10, 2, 10)
  const CustomBonuses: Bonuses := Bonuses(0, 0, 0, 0, 0, 0, 13)

  /** `CHARACTER_POWER_LEVELS.get(level, CHARACTER_POWER_LEVELS['neonate'])` */
  function NamedBonuses(level: string): (b: Bonuses)
    ensures level != "ancilla" && level != "elder" ==> b.bonusXp == 0 && b.bloodPotency == 0 && b.generation == 13
  {
    if level == "ancilla" then AncillaBonuses
    else if level == "elder" then ElderBonuses
    else if level == "custom" then CustomBonuses
    else NeonateBonuses
  }

  /** What the merge reads from the chosen dict: `bonuses.get(key, default)`. */
  datatype Grant = Grant(bloodPotency: int, generation: int, totalExperience: int)

  /** The three entries the merge reads from a named level. */
  function GrantOf(b: Bonuses): Grant {
    Grant(b.bloodPotency, b.generation, b.bonusXp)
  }

  /** The three entries the merge reads from a caller's custom dict, with the code's defaults. */
  function GrantOfDict(custom: map<string, int>): (g: Grant)
    ensures "blood_potency" !in custom ==> g.bloodPotency == 0
    ensures "generation" !in custom ==> g.generation == 13
    ensures "bonus_xp" !in custom ==> g.totalExperience == 0
  {
    Grant(Get(custom, "blood_potency").GetOr(0), Get(custom, "generation").GetOr(13), Get(custom, "bonus_xp").GetOr(0))
  }

  /**
   * The bonus selection of `create_character_with_power_level`: a non-empty custom dict is used
   * only with the level 'custom'; every other call takes the named level, an unknown name
   * counting as 'neonate'.
   */
  function SelectGrant(level: string, custom: Option<map<string, int>>): (g: Grant)
    ensures level == "custom" && custom.Some? && custom.value != map[] ==> g == GrantOfDict(custom.value)
    ensures level != "custom" || custom.None? || custom.value == map[] ==> g == GrantOf(NamedBonuses(level))
  {
    if level == "custom" && custom.Some? && custom.value != map[] then GrantOfDict(custom.value)
    else GrantOf(NamedBonuses(level))
  }

  /** Custom bonuses are ignored unless the level is 'custom', and an unknown level is a neonate. */
  lemma CustomOnlyForCustomLevel(level: string, custom: Option<map<string, int>>)
    requires level != "custom"
    ensures SelectGrant(level, custom) == SelectGrant(level, None)
    ensures level != "ancilla" && level != "elder" && level != "neonate" ==>
              SelectGrant(level, custom) == SelectGrant("neonate", None)
  {
  }

  // ---------------------------------------------------------------------------------------
  // The merge into the character dict

  /** The keys `create_character_with_power_level` writes, in its order. */
  const MergedKeys: seq<string> := ["blood_potency", "generation", "total_experience", "health", "willpower",
    "blood_surge", "mend_amount", "power_bonus", "rouse_reroll", "feeding_penalty", "bane_severity"]

  /** The (key, value) assignments of the merge, in its order: the bonuses, then the derived stats. */
  function MergedWrites(g: Grant, d: DerivedStats): (ws: seq<(string, int)>)
    ensures |ws| == |MergedKeys|
    ensures forall i :: 0 <= i < |ws| ==> ws[i].0 == MergedKeys[i]
  {
    [("blood_potency", g.bloodPotency), ("generation", g.generation), ("total_experience", g.totalExperience),
     ("health", d.health), ("willpower", d.willpower), ("blood_surge", d.benefits.surge),
     ("mend_amount", d.benefits.mend), ("power_bonus", d.benefits.powerBonus),
     ("rouse_reroll", d.benefits.rouseReroll), ("feeding_penalty", d.benefits.feedingPenalty),
     ("bane_severity", d.benefits.baneSeverity)]
  }

  /** No key is written twice by the merge. */
  lemma MergedKeysDistinct()
    ensures forall i, j :: 0 <= i < j < |MergedKeys| ==> MergedKeys[i] != MergedKeys[j]
  {
  }

  /** The character dict being created. */
  class CharacterData {
    var fields: map<string, int>

    constructor(fields: map<string, int>)
      ensures this.fields == fields
    {
      this.fields := fields;
    }

    /**
     * The merge of `create_character_with_power_level` (lines 146-165): the derived stats are computed
     * from the dict as it was, then the chosen bonuses and the derived stats are written key by key.
     */
    method ApplyPowerLevel(level: string, custom: Option<map<string, int>>)
      modifies this
      ensures fields == ApplyWrites(old(fields), MergedWrites(SelectGrant(level, custom), CalculateDerivedStats(old(fields))))
    {
      var bonuses := SelectGrant(level, custom);
      var derived := CalculateDerivedStats(fields);
      var b := derived.benefits;
      var m := fields;
      ghost var done: seq<(string, int)> := [];
      m := m["blood_potency" := bonuses.bloodPotency];
      ApplyOneMore(old(fields), done, ("blood_potency", bonuses.bloodPotency));
      done := done + [("blood_potency", bonuses.bloodPotency)];
      m := m["generation" := bonuses.generation];
      ApplyOneMore(old(fields), done, ("generation", bonuses.generation));
      done := done + [("generation", bonuses.generation)];
      m := m["total_experience" := bonuses.totalExperience];
      ApplyOneMore(old(fields), done, ("total_experience", bonuses.totalExperience));
      done := done + [("total_experience", bonuses.totalExperience)];
      m := m["health" := derived.health];
      ApplyOneMore(old(fields), done, ("health", derived.health));
      done := done + [("health", derived.health)];
      m := m["willpower" := derived.willpower];
      ApplyOneMore(old(fields), done, ("willpower", derived.willpower));
      done := done + [("willpower", derived.willpower)];
      m := m["blood_surge" := b.surge];
      ApplyOneMore(old(fields), done, ("blood_surge", b.surge));
      done := done + [("blood_surge", b.surge)];
      m := m["mend_amount" := b.mend];
      ApplyOneMore(old(fields), done, ("mend_amount", b.mend));
      done := done + [("mend_amount", b.mend)];
      m := m["power_bonus" := b.powerBonus];
      ApplyOneMore(old(fields), done, ("power_bonus", b.powerBonus));
      done := done + [("power_bonus", b.powerBonus)];
      m := m["rouse_reroll" := b.rouseReroll];
      ApplyOneMore(old(fields), done, ("rouse_reroll", b.rouseReroll));
      done := done + [("rouse_reroll", b.rouseReroll)];
      m := m["feeding_penalty" := b.feedingPenalty];
      ApplyOneMore(old(fields), done, ("feeding_penalty", b.feedingPenalty));
      done := done + [("feeding_penalty", b.feedingPenalty)];
      m := m["bane_severity" := b.baneSeverity];
      ApplyOneMore(old(fields), done, ("bane_severity", b.baneSeverity));
      done := done + [("bane_severity", b.baneSeverity)];
      assert done == MergedWrites(bonuses, derived);
      fields := m;
    }
  }

  /**
   * The derived benefits come from the Blood Potency the caller supplied, which the merge then
   * overwrites with the level's: a neonate sheet submitted with Blood Potency 3 keeps a surge
   * of 3 while its Blood Potency becomes 0.
   */
  lemma DerivedStatsUseSuppliedBloodPotency(fields: map<string, int>, level: string, custom: Option<map<string, int>>)
    ensures var g := SelectGrant(level, custom);
            var after := ApplyWrites(fields, MergedWrites(g, CalculateDerivedStats(fields)));
            "blood_potency" in after && after["blood_potency"] == g.bloodPotency &&
            "blood_surge" in after && after["blood_surge"] == BenefitsFor(Get(fields, "blood_potency").GetOr(0)).surge &&
            "health" in after && after["health"] == Get(fields, "stamina").GetOr(1) + 3
  {
    var g := SelectGrant(level, custom);
    var d := CalculateDerivedStats(fields);
    MergedLastWrite(fields, g, d, 0);
    MergedLastWrite(fields, g, d, 3);
    MergedLastWrite(fields, g, d, 5);
  }

  /** Each merged key ends up in the dict holding the value written for it. */
  lemma MergedLastWrite(m: map<string, int>, g: Grant, d: DerivedStats, i: nat)
    requires i < |MergedKeys|
    ensures var after := ApplyWrites(m, MergedWrites(g, d));
            MergedKeys[i] in after && after[MergedKeys[i]] == MergedWrites(g, d)[i].1
  {
    MergedKeysDistinct();
    LastWriteWins(m, MergedWrites(g, d), i);
  }

  /** The merge writes only its eleven keys: every other key keeps its entry, or stays absent. */
  lemma MergeKeepsOtherEntries(fields: map<string, int>, g: Grant, d: DerivedStats, k: string)
    requires k !in MergedKeys
    ensures var after := ApplyWrites(fields, MergedWrites(g, d));
            (k in after <==> k in fields) && (k in fields ==> after[k] == fields[k])
  {
    ApplyUntouched(fields, MergedWrites(g, d), k);
  }

  // ---------------------------------------------------------------------------------------
  // Importing a sheet

  /** The level `import_demiplane_character` picks from the sheet's experience (default 0). */
  function PowerLevelForExperience(experience: int): (level: string)
    ensures experience >= 300 <==> level == "elder"
    ensures 150 <= experience < 300 <==> level == "ancilla"
    ensures experience < 150 <==> level == "neonate"
  {
    if experience >= 300 then "elder" else if experience >= 150 then "ancilla" else "neonate"
  }

  /** More experience never earns a lower level, and the level's bonus XP never exceeds the experience imported. */
  lemma ImportedLevelIsEarned(experience: int, more: int)
    requires experience <= more
    ensures NamedBonuses(PowerLevelForExperience(experience)).bonusXp <=
            NamedBonuses(PowerLevelForExperience(more)).bonusXp
    ensures experience >= 0 ==> NamedBonuses(PowerLevelForExperience(experience)).bonusXp <= experience
  {
  }
}
