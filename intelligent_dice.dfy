/**
 * The V5 dice engine of the storyteller (class IntelligentDiceSystem): it reads roll suggestions
 * out of narration text, remembers the last one per session, parses `/roll` commands, turns a
 * roll specification into a dice pool from a character row, classifies the dice and renders
 * the result message.
 *
 * The dice are drawn by `random.randint(1, 10)`; here they come from a stream `die`, read in
 * the order the source draws them (all regular dice first, then the Hunger dice).
 */
module IntelligentDice {
  import opened Wrappers
  import opened Ascii
  import opened Faces

  // ---------------------------------------------------------------------------------------
  // Roll specifications

  /**
   * A roll as the engine passes it around (a dict with the keys 'attribute', 'skill',
   * 'discipline' and 'blood_surge'); a key the dict lacks is None, or false for the flag.
   */
  datatype RollSpec = RollSpec(attribute: Option<string>, skill: Option<string>,
                               discipline: Option<string>, bloodSurge: bool)

  /** A parsed `/roll` command: either "repeat the last suggestion" or an explicit roll. */
  datatype RollCommand = RollCommand(useLastSuggested: bool, spec: RollSpec)

  /** `roll_data.get(key)` is truthy: the key is present and the name is not ''. */
  predicate Given(name: Option<string>) {
    name.Some? && name.value != ""
  }

  // ---------------------------------------------------------------------------------------
  // Character rows and stat lookup

  /**
   * A JSON column ('attributes' or 'skills') of the character row as the lookup sees it:
   * NoTable when it is absent, falsy or not parseable (all three fall back to the legacy
   * columns), otherwise the parsed name-to-dots table.
   */
  datatype StatTable = NoTable | Table(entries: map<string, int>)

  /** The character row: the two JSON tables and the integer columns (legacy stats, 'hunger', 'blood_potency'). */
  datatype CharacterRow = CharacterRow(attributes: StatTable, skills: StatTable, columns: map<string, int>)

  const AttributeKeys: map<string, string> :=
    map["Strength" := "strength", "Dexterity" := "dexterity", "Stamina" := "stamina",
        "Charisma" := "charisma", "Manipulation" := "manipulation", "Composure" := "composure",
        "Intelligence" := "intelligence", "Wits" := "wits", "Resolve" := "resolve"]

  /** The `skill_map` of `get_skill_value`, written here in four parts (their keys are disjoint). */
  const SkillKeys: map<string, string> := PhysicalSkillKeys + MentalSkillKeys + DisciplineKeys + SocialSkillKeys

  const PhysicalSkillKeys: map<string, string> :=
    map["Athletics" := "athletics", "Brawl" := "brawl", "Craft" := "craft", "Drive" := "drive",
        "Firearms" := "firearms", "Melee" := "melee", "Larceny" := "larceny", "Stealth" := "stealth",
        "Survival" := "survival"]

  const SocialSkillKeys: map<string, string> :=
    map["AnimalKen" := "animal_ken", "Etiquette" := "etiquette",
        "Insight" := "insight", "Intimidation" := "intimidation", "Leadership" := "leadership",
        "Performance" := "performance", "Persuasion" := "persuasion", "Streetwise" := "streetwise",
        "Subterfuge" := "subterfuge"]

  const MentalSkillKeys: map<string, string> :=
    map["Academics" := "academics", "Awareness" := "awareness",
        "Finance" := "finance", "Investigation" := "investigation", "Medicine" := "medicine",
        "Occult" := "occult", "Politics" := "politics", "Science" := "science",
        "Technology" := "technology"]

  const DisciplineKeys: map<string, string> :=
    map["Auspex" := "auspex", "Obfuscate" := "obfuscate",
        "Presence" := "presence", "Dominate" := "dominate", "Fortitude" := "fortitude",
        "Potence" := "potence", "Celerity" := "celerity", "Protean" := "protean",
        "Animalism" := "animalism"]

  /** Every key of m maps to its own lower-cased spelling. */
  ghost predicate LowerCasing(m: map<string, string>) {
    forall k :: k in m ==> m[k] == Lower(k)
  }

  lemma AttributeKeysLower()
    ensures LowerCasing(AttributeKeys)
  {
    assert Lower("Strength") == "strength";
    assert Lower("Dexterity") == "dexterity";
    assert Lower("Stamina") == "stamina";
    assert Lower("Charisma") == "charisma";
    assert Lower("Manipulation") == "manipulation";
    assert Lower("Composure") == "composure";
    assert Lower("Intelligence") == "intelligence";
    assert Lower("Wits") == "wits";
    assert Lower("Resolve") == "resolve";
  }

  lemma PhysicalSkillKeysLower()
    ensures LowerCasing(PhysicalSkillKeys)
  {
    assert Lower("Athletics") == "athletics";
    assert Lower("Brawl") == "brawl";
    assert Lower("Craft") == "craft";
    assert Lower("Drive") == "drive";
    assert Lower("Firearms") == "firearms";
    assert Lower("Melee") == "melee";
    assert Lower("Larceny") == "larceny";
    assert Lower("Stealth") == "stealth";
    assert Lower("Survival") == "survival";
  }
  lemma SocialSkillKeysLower()
    ensures LowerCasing(SocialSkillKeys - {"AnimalKen"})
  {
    assert Lower("Etiquette") == "etiquette";
    assert Lower("Insight") == "insight";
    assert Lower("Intimidation") == "intimidation";
    assert Lower("Leadership") == "leadership";
    assert Lower("Performance") == "performance";
    assert Lower("Persuasion") == "persuasion";
    assert Lower("Streetwise") == "streetwise";
    assert Lower("Subterfuge") == "subterfuge";
  }
  lemma MentalSkillKeysLower()
    ensures LowerCasing(MentalSkillKeys)
  {
    assert Lower("Academics") == "academics";
    assert Lower("Awareness") == "awareness";
    assert Lower("Finance") == "finance";
    assert Lower("Investigation") == "investigation";
    assert Lower("Medicine") == "medicine";
    assert Lower("Occult") == "occult";
    assert Lower("Politics") == "politics";
    assert Lower("Science") == "science";
    assert Lower("Technology") == "technology";
  }
  lemma DisciplineKeysLower()
    ensures LowerCasing(DisciplineKeys)
  {
    assert Lower("Auspex") == "auspex";
    assert Lower("Obfuscate") == "obfuscate";
    assert Lower("Presence") == "presence";
    assert Lower("Dominate") == "dominate";
    assert Lower("Fortitude") == "fortitude";
    assert Lower("Potence") == "potence";
    assert Lower("Celerity") == "celerity";
    assert Lower("Protean") == "protean";
    assert Lower("Animalism") == "animalism";
  }

  /** `attribute_map.get(attribute, attribute.lower())` */
  function AttributeKey(name: string): string {
    if name in AttributeKeys then AttributeKeys[name] else Lower(name)
  }

  /** `skill_map.get(skill, skill.lower())` */
  function SkillKey(name: string): string {
    if name in SkillKeys then SkillKeys[name] else Lower(name)
  }

  /** The attribute table only spells out lower-casing: every attribute key is the lower-cased name. */
  lemma AttributeKeyIsLower(name: string)
    ensures AttributeKey(name) == Lower(name)
  {
    AttributeKeysLower();
  }

  /** The skill table is lower-casing too, except that "AnimalKen" reads the column 'animal_ken'. */
  lemma LowerCasingOfUnion(p: map<string, string>, m: map<string, string>, d: map<string, string>,
                           s: map<string, string>, k: string)
    requires LowerCasing(p) && LowerCasing(m) && LowerCasing(d) && LowerCasing(s - {"AnimalKen"})
    requires k in p + m + d + s && k != "AnimalKen"
    ensures (p + m + d + s)[k] == Lower(k)
  {
    if k in s {
      assert k in s - {"AnimalKen"};
    }
  }

  lemma SkillKeyIsLower(name: string)
    ensures SkillKey(name) == if name == "AnimalKen" then "animal_ken" else Lower(name)
  {
    if name == "AnimalKen" {
      assert name in SocialSkillKeys;
    } else if name in SkillKeys {
      PhysicalSkillKeysLower();
      SocialSkillKeysLower();
      MentalSkillKeysLower();
      DisciplineKeysLower();
      LowerCasingOfUnion(PhysicalSkillKeys, MentalSkillKeys, DisciplineKeys, SocialSkillKeys, name);
    }
  }

  /** The JSON table's entry if it has the key, else the legacy column, else 0. */
  function StatValue(table: StatTable, columns: map<string, int>, key: string): int {
    if table.Table? && key in table.entries then table.entries[key]
    else Get(columns, key).GetOr(0)
  }

  /** `get_attribute_value`: the stat under the lower-cased name. */
  function GetAttributeValue(ch: CharacterRow, attribute: string): (v: int)
    ensures v == StatValue(ch.attributes, ch.columns, Lower(attribute))
  {
    AttributeKeyIsLower(attribute);
    StatValue(ch.attributes, ch.columns, AttributeKey(attribute))
  }

  /** `get_skill_value`: the stat under the lower-cased name ('animal_ken' for "AnimalKen"). */
  function GetSkillValue(ch: CharacterRow, skill: string): (v: int)
    ensures v == StatValue(ch.skills, ch.columns,
                           if skill == "AnimalKen" then "animal_ken" else Lower(skill))
  {
    SkillKeyIsLower(skill);
    StatValue(ch.skills, ch.columns, SkillKey(skill))
  }

  /** A name that neither the JSON table nor the legacy columns know resolves to 0, never to an error. */
  lemma UnknownStatIsZero(table: StatTable, columns: map<string, int>, key: string)
    requires table.Table? ==> key !in table.entries
    requires key !in columns
    ensures StatValue(table, columns, key) == 0
  {
  }

  // ---------------------------------------------------------------------------------------
  // Dice pool

  datatype DicePool = DicePool(size: int, description: string)

  /** `character_data.get('blood_potency', 0)` */
  function BloodPotency(ch: CharacterRow): int {
    Get(ch.columns, "blood_potency").GetOr(0)
  }

  /** "name (value)" */
  function Term(name: string, value: int): string {
    name + " (" + IntToString(value) + ")"
  }

  /** " + Blood Surge (n)" */
  function SurgeNote(bloodPotency: int): string {
    " + Blood Surge (" + IntToString(bloodPotency) + ")"
  }

  /** Lines 195-209 of `calculate_dice_pool`: the pool before Blood Surge. */
  function BasePool(ch: CharacterRow, spec: RollSpec): DicePool {
    if Given(spec.attribute) && Given(spec.skill) then
      var a := GetAttributeValue(ch, spec.attribute.value);
      var s := GetSkillValue(ch, spec.skill.value);
      DicePool(a + s, Term(spec.attribute.value, a) + " + " + Term(spec.skill.value, s))
    else if Given(spec.discipline) then
      var d := GetSkillValue(ch, spec.discipline.value);
      DicePool(d, Term(spec.discipline.value, d))
    else
      DicePool(0, "")
  }

  /** `calculate_dice_pool` */
  function CalculateDicePool(ch: CharacterRow, spec: RollSpec): (p: DicePool)
    ensures var bonus := if spec.bloodSurge then BloodPotency(ch) else 0;
            if Given(spec.attribute) && Given(spec.skill) then
              p.size == GetAttributeValue(ch, spec.attribute.value) + GetSkillValue(ch, spec.skill.value) + bonus
            else if Given(spec.discipline) then
              p.size == GetSkillValue(ch, spec.discipline.value) + bonus
            else
              p.size == bonus
  {
    var base := BasePool(ch, spec);
    if spec.bloodSurge then DicePool(base.size + BloodPotency(ch), base.description + SurgeNote(BloodPotency(ch)))
    else base
  }

  /**
   * Blood Surge adds Blood Potency to whatever pool the rest of the specification gives, and
   * appends " + Blood Surge (n)" to its description.
   */
  lemma BloodSurgeAddsBloodPotency(ch: CharacterRow, spec: RollSpec)
    ensures var plain := CalculateDicePool(ch, spec.(bloodSurge := false));
            var surged := CalculateDicePool(ch, spec.(bloodSurge := true));
            surged.size == plain.size + BloodPotency(ch)
            && surged.description == plain.description + " + Blood Surge (" + IntToString(BloodPotency(ch)) + ")"
  {
    assert BasePool(ch, spec.(bloodSurge := false)) == BasePool(ch, spec.(bloodSurge := true));
  }

  /** With an attribute and a skill the pool is their sum, described as "A (a) + S (s)"; a discipline is then ignored. */
  lemma AttributeSkillPool(ch: CharacterRow, attribute: string, skill: string, discipline: Option<string>)
    requires attribute != "" && skill != ""
    ensures var p := CalculateDicePool(ch, RollSpec(Some(attribute), Some(skill), discipline, false));
            p.size == GetAttributeValue(ch, attribute) + GetSkillValue(ch, skill)
            && p.description == Term(attribute, GetAttributeValue(ch, attribute)) + " + "
                                + Term(skill, GetSkillValue(ch, skill))
  {
  }

  /** A discipline alone is looked up through the skill lookup, described as "D (d)". */
  lemma DisciplinePoolUsesSkills(ch: CharacterRow, discipline: string)
    requires discipline != ""
    ensures var p := CalculateDicePool(ch, RollSpec(None, None, Some(discipline), false));
            p.size == GetSkillValue(ch, discipline)
            && p.description == Term(discipline, GetSkillValue(ch, discipline))
  {
  }

  /** A specification that names nothing and asks no Blood Surge gives the empty pool, described as ''. */
  lemma EmptySpecIsEmptyPool(ch: CharacterRow, spec: RollSpec)
    requires !Given(spec.discipline) && !(Given(spec.attribute) && Given(spec.skill))
    requires !spec.bloodSurge
    ensures CalculateDicePool(ch, spec) == DicePool(0, "")
  {
  }

  // ---------------------------------------------------------------------------------------
  // Rolling and classifying

  /**
   * What `roll_dice` returns: PoolTooSmall for the early return on a pool of at most 0
   * (success False, no successes, no criticals, no dice lists), otherwise the classified dice.
   */
  datatype DiceRoll =
    | PoolTooSmall
    | Rolled(regularRolls: seq<Face>, hungerRolls: seq<Face>, totalSuccesses: nat, criticals: nat,
             messyCritical: bool, bestialFailure: bool, success: bool, difficulty: int)

  /** `max(0, pool_size - hunger)` */
  function RegularCount(pool: int, hunger: int): nat {
    if pool - hunger > 0 then pool - hunger else 0
  }

  /** How many dice `range(min(hunger, pool_size))` draws: none when that minimum is negative. */
  function HungerCount(pool: int, hunger: int): nat {
    var m := if hunger < pool then hunger else pool;
    if m > 0 then m else 0
  }

  /** n draws from the stream, starting with the draw numbered start. */
  function Draw(die: nat -> Face, start: nat, n: nat): (r: seq<Face>)
    ensures |r| == n && forall i :: 0 <= i < n ==> r[i] == die(start + i)
  {
    seq(n, i requires 0 <= i < n => die(start + i))
  }

  /** The classification of `roll_dice` (lines 242-265) over the two lists of faces. */
  function Classify(regular: seq<Face>, hunger: seq<Face>, difficulty: int): (r: DiceRoll)
    ensures r.Rolled? && r.regularRolls == regular && r.hungerRolls == hunger && r.difficulty == difficulty
    ensures r.criticals == CountEqual(regular + hunger, 10) / 2
    ensures r.totalSuccesses == CountAtLeast(regular + hunger, 6) + 2 * r.criticals
    ensures r.messyCritical <==> r.criticals > 0 && exists i :: 0 <= i < |hunger| && hunger[i] == 10
    ensures r.bestialFailure <==>
              |hunger| > 0 && (forall i :: 0 <= i < |hunger| ==> hunger[i] == 1) && r.totalSuccesses < difficulty
    ensures r.success <==> r.totalSuccesses >= difficulty
  {
    CountAtLeastConcat(regular, hunger, 6);
    CountEqualConcat(regular, hunger, 10);
    var successes := CountAtLeast(regular, 6) + CountAtLeast(hunger, 6);
    var hungerTens := CountEqual(hunger, 10);
    var criticalPairs := (CountEqual(regular, 10) + hungerTens) / 2;
    var total := successes + criticalPairs * 2;
    Rolled(regular, hunger, total, criticalPairs,
           hungerTens > 0 && criticalPairs > 0,
           |hunger| > 0 && AllEqual(hunger, 1) && total < difficulty,
           total >= difficulty, difficulty)
  }

  /** `roll_dice(pool_size, hunger, difficulty)`, the random draws taken from `die`. */
  function RollDice(pool: int, hunger: int, difficulty: int, die: nat -> Face): (r: DiceRoll)
    ensures r.PoolTooSmall? <==> pool <= 0
    ensures r.Rolled? ==>
              && r == Classify(r.regularRolls, r.hungerRolls, difficulty)
              && |r.regularRolls| == (if pool > hunger then pool - hunger else 0)
              && |r.hungerRolls| == (if hunger <= 0 then 0 else if hunger < pool then hunger else pool)
              && (forall i :: 0 <= i < |r.regularRolls| ==> r.regularRolls[i] == die(i))
              && (forall i :: 0 <= i < |r.hungerRolls| ==> r.hungerRolls[i] == die(|r.regularRolls| + i))
  {
    if pool <= 0 then PoolTooSmall
    else
      var rc := RegularCount(pool, hunger);
      Classify(Draw(die, 0, rc), Draw(die, rc, HungerCount(pool, hunger)), difficulty)
  }

  /**
   * For a pool of at least one and a Hunger of at least zero the pool is split between the
   * two kinds of dice: max(0, pool - hunger) regular, min(hunger, pool) Hunger dice.
   */
  lemma PoolIsPartitioned(pool: int, hunger: int, difficulty: int, die: nat -> Face)
    requires pool >= 1 && hunger >= 0
    ensures var r := RollDice(pool, hunger, difficulty, die);
            && r.Rolled?
            && |r.regularRolls| == (if pool - hunger > 0 then pool - hunger else 0)
            && |r.hungerRolls| == (if hunger < pool then hunger else pool)
            && |r.regularRolls| + |r.hungerRolls| == pool
  {
  }

  /** Every die of the roll counts: the faces of at least 6, plus two for each pair of tens. */
  lemma TotalSuccessesAtLeastBase(r: DiceRoll)
    requires r.Rolled? && r == Classify(r.regularRolls, r.hungerRolls, r.difficulty)
    ensures r.totalSuccesses >= CountAtLeast(r.regularRolls + r.hungerRolls, 6)
    ensures r.criticals > 0 ==> r.totalSuccesses >= 4
  {
    TensAreSuccesses(r.regularRolls + r.hungerRolls);
  }

  /** Without a difficulty nothing is a Bestial Failure (the total is never below 0) and every roll succeeds. */
  lemma NoBestialFailureWithoutDifficulty(regular: seq<Face>, hunger: seq<Face>, difficulty: int)
    requires difficulty <= 0
    ensures !Classify(regular, hunger, difficulty).bestialFailure
    ensures Classify(regular, hunger, difficulty).success
  {
  }

  /**
   * Under this file's rule a Bestial Failure is a failure, and since every Hunger die shows 1
   * it is never messy; and any Hunger die showing more than 1 rules it out.
   */
  lemma BestialFailureExcludes(regular: seq<Face>, hunger: seq<Face>, difficulty: int)
    ensures var r := Classify(regular, hunger, difficulty);
            r.bestialFailure ==> !r.success && !r.messyCritical
    ensures (exists i :: 0 <= i < |hunger| && hunger[i] != 1) ==> !Classify(regular, hunger, difficulty).bestialFailure
  {
  }

  /** Regular dice [2, 4, 6, 8, 10] without Hunger: three successes, a lone ten (no critical). */
  lemma ScenarioSingleTen()
    ensures Classify([2, 4, 6, 8, 10], [], 0)
            == Rolled([2, 4, 6, 8, 10], [], 3, 0, false, false, true, 0)
  {
  }

  /** Regular [3, 7, 9] with Hunger [10, 10]: four successes plus two for the pair, a Messy Critical. */
  lemma ScenarioMessyCritical()
    ensures Classify([3, 7, 9], [10, 10], 0)
            == Rolled([3, 7, 9], [10, 10], 6, 1, true, false, true, 0)
  {
  }

  /**
   * Regular [5] with Hunger [1, 1, 2]: no successes, yet not a Bestial Failure under this file's
   * rule at any difficulty, because not every Hunger die shows 1.
   */
  lemma ScenarioNotAllOnes(difficulty: int)
    ensures var r := Classify([5], [1, 1, 2], difficulty);
            r.totalSuccesses == 0 && !r.bestialFailure
  {
    var hunger: seq<Face> := [1, 1, 2];
    assert hunger[2] != 1;
  }

  // ---------------------------------------------------------------------------------------
  // Result message

  /** The outcome line of the message, in the order the formatter tests the flags. */
  datatype Outcome = BestialFailure | MessyCritical | CriticalSuccess | Success | Failure

  function OutcomeOf(success: bool, criticals: int, messyCritical: bool, bestialFailure: bool): (o: Outcome)
    ensures o == BestialFailure <==> bestialFailure
    ensures o == MessyCritical <==> !bestialFailure && messyCritical
    ensures o == CriticalSuccess <==> !bestialFailure && !messyCritical && criticals > 0
    ensures o == Success <==> !bestialFailure && !messyCritical && criticals <= 0 && success
    ensures o == Failure <==> !bestialFailure && !messyCritical && criticals <= 0 && !success
  {
    if bestialFailure then BestialFailure
    else if messyCritical then MessyCritical
    else if criticals > 0 then CriticalSuccess
    else if success then Success
    else Failure
  }

  const Header: string := "\U{1F3B2} **DICE ROLL RESULT**\n\n"
  const EmptyPoolMessage: string := "❌ Dice pool is 0 or negative. Cannot roll."

  /** `', '.join(str(d) for d in faces)` */
  function JoinFaces(faces: seq<Face>): string {
    if faces == [] then ""
    else if |faces| == 1 then IntToString(faces[0])
    else IntToString(faces[0]) + ", " + JoinFaces(faces[1..])
  }

  /** The faces are told apart by the commas between them: one fewer comma than faces, and none in a number. */
  lemma {:induction false} JoinFacesSeparators(faces: seq<Face>)
    ensures CountChar(JoinFaces(faces), ',') == if faces == [] then 0 else |faces| - 1
  {
    if faces != [] {
      NatToStringIsDigits(faces[0]);
      CountCharAbsent(IntToString(faces[0]), ',');
      if |faces| > 1 {
        JoinFacesSeparators(faces[1..]);
        CountCharConcat(IntToString(faces[0]), ", ", ',');
        CountCharConcat(IntToString(faces[0]) + ", ", JoinFaces(faces[1..]), ',');
        assert CountChar(", ", ',') == 1;
      }
    }
  }

  const RegularLabel: string := "**Regular Dice:** "
  const RegularEnd: string := "\n"
  const HungerLabel: string := "**Hunger Dice:** "
  const HungerEnd: string := " \U{1FA78}\n"

  /** A line listing one kind of dice, left out when there are none of that kind. */
  function DiceLine(heading: string, ending: string, faces: seq<Face>): (line: string)
    requires heading != ""
    ensures line == "" <==> faces == []
    ensures faces != [] ==>
              && |line| == |heading| + |JoinFaces(faces)| + |ending|
              && line[..|heading|] == heading && line[|heading|..|line| - |ending|] == JoinFaces(faces)
              && line[|line| - |ending|..] == ending
  {
    if faces == [] then "" else heading + JoinFaces(faces) + ending
  }

  /** " (Difficulty: d)", shown only for a positive difficulty. */
  function DifficultyNote(difficulty: int): (note: string)
    ensures note == "" <==> difficulty <= 0
  {
    if difficulty > 0 then " (Difficulty: " + IntToString(difficulty) + ")" else ""
  }

  function TotalLine(successes: int, difficulty: int): string {
    "\n**Total Successes:** " + IntToString(successes) + DifficultyNote(difficulty) + "\n\n"
  }

  const CriticalPrefix: string := "✨ **CRITICAL SUCCESS!** ("

  /** The outcome line; for a critical it gives the number of pairs, "pair" plural only above one. */
  function OutcomeLine(o: Outcome, criticals: int): (line: string)
    ensures o == CriticalSuccess ==>
              line == CriticalPrefix + IntToString(criticals) + (if criticals > 1 then " pairs)\n" else " pair)\n")
  {
    match o
    case BestialFailure => "\U{1F480} **BESTIAL FAILURE!** Your Beast takes control!\n"
    case MessyCritical => "⚠️ **MESSY CRITICAL!** You succeed spectacularly, but at a cost...\n"
    case CriticalSuccess =>
      CriticalPrefix + IntToString(criticals) + (if criticals > 1 then " pairs)\n" else " pair)\n")
    case Success => "✅ **SUCCESS!**\n"
    case Failure => "❌ **FAILURE**\n"
  }

  /** The pieces, appended in order, form the message. */
  lemma MessageAssembled(regular: seq<Face>, hunger: seq<Face>, successes: int, difficulty: int, success: bool,
                         criticals: int, messyCritical: bool, bestialFailure: bool,
                         diceLines: string, before: string, msg: string)
    requires diceLines == Header + DiceLine(RegularLabel, RegularEnd, regular) + DiceLine(HungerLabel, HungerEnd, hunger)
    requires before == diceLines + TotalLine(successes, difficulty)
    requires msg == before + OutcomeLine(OutcomeOf(success, criticals, messyCritical, bestialFailure), criticals)
    ensures msg == RollMessage(regular, hunger, successes, difficulty, success, criticals, messyCritical, bestialFailure)
  {
  }

  /**
   * The text `_format_roll_message` produces: the header, the two dice lines, the total with
   * its difficulty note, and the outcome line chosen by priority.
   */
  function RollMessage(regular: seq<Face>, hunger: seq<Face>, successes: int, difficulty: int, success: bool,
                       criticals: int, messyCritical: bool, bestialFailure: bool): string
  {
    Header + DiceLine(RegularLabel, RegularEnd, regular) + DiceLine(HungerLabel, HungerEnd, hunger) + TotalLine(successes, difficulty)
    + OutcomeLine(OutcomeOf(success, criticals, messyCritical, bestialFailure), criticals)
  }

  /** The total line appended in three pieces is the total line appended at once. */
  lemma AppendedThree(msg: string, total: string, note: string, gap: string)
    ensures ((msg + total) + note) + gap == msg + ((total + note) + gap)
  {
    assert (msg + total) + note == msg + (total + note);
  }

  /** `_format_roll_message`: builds the message a line at a time. */
  method FormatRollMessage(regular: seq<Face>, hunger: seq<Face>, successes: int, difficulty: int, success: bool,
                           criticals: int, messyCritical: bool, bestialFailure: bool) returns (msg: string)
    ensures msg == RollMessage(regular, hunger, successes, difficulty, success, criticals, messyCritical, bestialFailure)
  {
    ghost var o := OutcomeOf(success, criticals, messyCritical, bestialFailure);
    msg := Header;
    if regular != [] {
      msg := msg + (RegularLabel + JoinFaces(regular) + RegularEnd);
    }
    assert msg == Header + DiceLine(RegularLabel, RegularEnd, regular);
    if hunger != [] {
      msg := msg + (HungerLabel + JoinFaces(hunger) + HungerEnd);
    }
    ghost var diceLines := msg;
    assert diceLines == Header + DiceLine(RegularLabel, RegularEnd, regular) + DiceLine(HungerLabel, HungerEnd, hunger);
    msg := msg + ("\n**Total Successes:** " + IntToString(successes));
    if difficulty > 0 {
      msg := msg + (" (Difficulty: " + IntToString(difficulty) + ")");
    } else {
      assert msg + DifficultyNote(difficulty) == msg;
    }
    msg := msg + "\n\n";
    ghost var before := msg;
    assert before == diceLines + TotalLine(successes, difficulty) by {
      AppendedThree(diceLines, "\n**Total Successes:** " + IntToString(successes), DifficultyNote(difficulty), "\n\n");
    }
    if bestialFailure {
      msg := msg + "\U{1F480} **BESTIAL FAILURE!** Your Beast takes control!\n";
      assert o == BestialFailure;
      assert msg == before + OutcomeLine(o, criticals);
    } else if messyCritical {
      msg := msg + "⚠️ **MESSY CRITICAL!** You succeed spectacularly, but at a cost...\n";
      assert o == MessyCritical;
      assert msg == before + OutcomeLine(o, criticals);
    } else if criticals > 0 {
      msg := msg + (CriticalPrefix + IntToString(criticals) + (if criticals > 1 then " pairs)\n" else " pair)\n"));
      assert o == CriticalSuccess;
      assert msg == before + OutcomeLine(o, criticals);
    } else if success {
      msg := msg + "✅ **SUCCESS!**\n";
      assert o == Success;
      assert msg == before + OutcomeLine(o, criticals);
    } else {
      msg := msg + "❌ **FAILURE**\n";
      assert o == Failure;
      assert msg == before + OutcomeLine(o, criticals);
    }
    MessageAssembled(regular, hunger, successes, difficulty, success, criticals, messyCritical, bestialFailure,
                     diceLines, before, msg);
  }

  /**
   * The 'message' entry of the dict `roll_dice` returns: the refusal for the early return, and for
   * a roll the formatted result, which always opens with the header and so is never the refusal.
   */
  function MessageOf(r: DiceRoll): (m: string)
    ensures m == EmptyPoolMessage <==> r.PoolTooSmall?
    ensures r.Rolled? ==> Header <= m
    ensures r.Rolled? ==> m == RollMessage(r.regularRolls, r.hungerRolls, r.totalSuccesses, r.difficulty, r.success,
                                           r.criticals, r.messyCritical, r.bestialFailure)
  {
    match r
    case PoolTooSmall => EmptyPoolMessage
    case Rolled(regular, hunger, total, criticals, messy, bestial, success, difficulty) =>
      RollMessage(regular, hunger, total, difficulty, success, criticals, messy, bestial)
  }

  // ---------------------------------------------------------------------------------------
  // Pattern matching (`re.search` with IGNORECASE over the three roll patterns)

  /** `lit`, written in lower case, occurs at i when case is ignored. */
  predicate OccursAtIgnoreCase(s: string, lit: string, i: nat) {
    i + |lit| <= |s| && Lower(s[i..i + |lit|]) == lit
  }

  /** A captured `[A-Z][a-z]+` under IGNORECASE: two or more letters. */
  predicate IsWord(w: string) {
    |w| >= 2 && forall k :: 0 <= k < |w| ==> IsLetter(w[k])
  }

  /**
   * `([A-Z][a-z]+)` matched greedily at i: the end of the letter run that starts there, when it
   * has two letters or more. What follows such a group in every pattern is never a letter, so
   * backtracking into the run never finds another match.
   */
  function WordEnd(s: string, i: nat): (r: Option<nat>)
    requires i <= |s|
    ensures r.Some? ==> i + 2 <= r.value <= |s| && IsWord(s[i..r.value])
    ensures r.Some? ==> r.value == |s| || !IsLetter(s[r.value])
  {
    var e := LetterRunEnd(s, i);
    if e >= i + 2 then
      assert forall k :: 0 <= k < e - i ==> s[i..e][k] == s[i + k];
      Some(e)
    else None
  }

  /** The groups a match captures; `second` is '' for the discipline pattern, which has one group. */
  datatype Names = Names(first: string, second: string)

  /** The three patterns of the engine. */
  datatype Pattern =
    | NamePair        // ([A-Z][a-z]+)\s*\+\s*([A-Z][a-z]+)
    | RollNamePair    // roll\s+([A-Z][a-z]+)\s*\+\s*([A-Z][a-z]+)
    | RollDiscipline  // roll\s+([A-Z][a-z]+)\s*\(discipline\)

  /** `([A-Z][a-z]+)\s*\+\s*([A-Z][a-z]+)` matched at i. */
  function PairAt(s: string, i: nat): Option<Names>
    requires i <= |s|
  {
    match WordEnd(s, i)
    case None => None
    case Some(e) =>
      var j := SpaceRunEnd(s, e);
      if j < |s| && s[j] == '+' then
        var g := SpaceRunEnd(s, j + 1);
        match WordEnd(s, g)
        case None => None
        case Some(h) => Some(Names(s[i..e], s[g..h]))
      else None
  }

  /** `roll\s+` matched at i: where the text after the whitespace starts. */
  function RollPrefixEnd(s: string, i: nat): Option<nat>
    requires i <= |s|
  {
    if OccursAtIgnoreCase(s, "roll", i) && SpaceRunEnd(s, i + 4) > i + 4 then Some(SpaceRunEnd(s, i + 4)) else None
  }

  /** `([A-Z][a-z]+)\s*\(discipline\)` matched at i. */
  function DisciplineAt(s: string, i: nat): Option<Names>
    requires i <= |s|
  {
    match WordEnd(s, i)
    case None => None
    case Some(e) =>
      if OccursAtIgnoreCase(s, "(discipline)", SpaceRunEnd(s, e)) then Some(Names(s[i..e], "")) else None
  }

  /** Pattern `p` matched at position i of `s`; the captured names are words. */
  function MatchAt(p: Pattern, s: string, i: nat): (r: Option<Names>)
    requires i <= |s|
    ensures r.Some? ==> IsWord(r.value.first)
    ensures r.Some? && p != RollDiscipline ==> IsWord(r.value.second)
  {
    match p
    case NamePair => PairAt(s, i)
    case RollNamePair =>
      (match RollPrefixEnd(s, i) case None => None case Some(j) => PairAt(s, j))
    case RollDiscipline =>
      (match RollPrefixEnd(s, i) case None => None case Some(j) => DisciplineAt(s, j))
  }

  /** The leftmost position in [from, to] that satisfies `ok`. */
  function Leftmost(ok: nat -> bool, from: nat, last: nat): (r: Option<nat>)
    requires from <= last
    ensures r.Some? ==> from <= r.value <= last && ok(r.value)
    ensures r.Some? ==> forall j: nat :: from <= j < r.value ==> !ok(j)
    ensures r.None? ==> forall j: nat :: from <= j <= last ==> !ok(j)
    decreases last - from
  {
    if ok(from) then Some(from)
    else if from == last then None
    else Leftmost(ok, from + 1, last)
  }

  /** Pattern `p` matches at position i of `s`. */
  predicate MatchesAt(p: Pattern, s: string, i: nat) {
    i <= |s| && MatchAt(p, s, i).Some?
  }

  /** `re.search`'s scan: the leftmost position at or after `from` where `p` matches. */
  function FirstMatch(p: Pattern, s: string, from: nat): (r: Option<nat>)
    requires from <= |s|
    ensures r.Some? ==> from <= r.value <= |s| && MatchesAt(p, s, r.value)
    ensures r.Some? ==> forall j: nat :: from <= j < r.value ==> !MatchesAt(p, s, j)
    ensures r.None? ==> forall j: nat :: from <= j <= |s| ==> !MatchesAt(p, s, j)
  {
    var ok := (j: nat) => MatchesAt(p, s, j);
    assert forall j: nat :: ok(j) == MatchesAt(p, s, j);
    Leftmost(ok, from, |s|)
  }

  /** `re.search(p, s, re.IGNORECASE)`: the groups of the leftmost match. */
  function Search(p: Pattern, s: string): (r: Option<Names>)
    ensures r.None? <==> forall j: nat :: j <= |s| ==> !MatchesAt(p, s, j)
    ensures r.Some? ==>
              exists i: nat :: i <= |s| && r == MatchAt(p, s, i) && forall j: nat :: j < i ==> !MatchesAt(p, s, j)
  {
    match FirstMatch(p, s, 0)
    case None => None
    case Some(i) => MatchAt(p, s, i)
  }

  // ---------------------------------------------------------------------------------------
  // Suggestions read out of narration

  /**
   * `extract_roll_from_ai_message`: "roll <Attribute> + <Skill>" wins over
   * "roll <Discipline> (discipline)"; both names are capitalized; no match is None.
   * The dict's 'type' tag is not modelled (nothing reads it).
   */
  function ExtractRollSuggestion(message: string): (r: Option<RollSpec>)
    ensures r.None? <==> Search(RollNamePair, message).None? && Search(RollDiscipline, message).None?
    ensures r.Some? ==> !r.value.bloodSurge
    ensures Search(RollNamePair, message).Some? ==>
      r.Some? && r.value.discipline.None? &&
      r.value.attribute == Some(Capitalize(Search(RollNamePair, message).value.first)) &&
      r.value.skill == Some(Capitalize(Search(RollNamePair, message).value.second))
    ensures Search(RollNamePair, message).None? && Search(RollDiscipline, message).Some? ==>
      r.Some? && r.value.attribute.None? && r.value.skill.None? &&
      r.value.discipline == Some(Capitalize(Search(RollDiscipline, message).value.first))
  {
    match Search(RollNamePair, message)
    case Some(n) => Some(RollSpec(Some(Capitalize(n.first)), Some(Capitalize(n.second)), None, false))
    case None =>
      match Search(RollDiscipline, message)
      case Some(n) => Some(RollSpec(None, None, Some(Capitalize(n.first)), false))
      case None => None
  }

  /** Every name a suggestion carries is a capitalized word. */
  lemma SuggestedNamesAreCapitalized(message: string)
    requires ExtractRollSuggestion(message).Some?
    ensures var spec := ExtractRollSuggestion(message).value;
      (spec.attribute.Some? ==> IsCapitalizedWord(spec.attribute.value)) &&
      (spec.skill.Some? ==> IsCapitalizedWord(spec.skill.value)) &&
      (spec.discipline.Some? ==> IsCapitalizedWord(spec.discipline.value)) &&
      (spec.attribute.Some? <==> spec.discipline.None?) && (spec.attribute.Some? <==> spec.skill.Some?)
  {
    match Search(RollNamePair, message)
    case Some(n) =>
      CapitalizeWord(n.first);
      CapitalizeWord(n.second);
    case None =>
      var n := Search(RollDiscipline, message).value;
      CapitalizeWord(n.first);
  }

  // ---------------------------------------------------------------------------------------
  // `/roll` commands

  /** `\+?\s*blood\s*surge` matched at i under IGNORECASE: where the match ends. */
  function SurgeAt(s: string, i: nat): (r: Option<nat>)
    requires i <= |s|
    ensures r.Some? ==> i + 10 <= r.value <= |s|
  {
    var j := if i < |s| && s[i] == '+' then i + 1 else i;
    var k := SpaceRunEnd(s, j);
    if OccursAtIgnoreCase(s, "blood", k) then
      var m := SpaceRunEnd(s, k + 5);
      if OccursAtIgnoreCase(s, "surge", m) then Some(m + 5) else None
    else None
  }

  /**
   * `re.sub(r'\+?\s*blood\s*surge', '', s[i..], flags=re.IGNORECASE)`: the matches, found left
   * to right without overlap, are removed; the text is unchanged exactly when nothing matches.
   */
  function RemoveSurges(s: string, i: nat): (r: string)
    requires i <= |s|
    ensures |r| <= |s| - i
    ensures (forall j :: i <= j < |s| ==> SurgeAt(s, j).None?) ==> r == s[i..]
    ensures (exists j :: i <= j < |s| && SurgeAt(s, j).Some?) ==> |r| < |s| - i
    decreases |s| - i
  {
    if i == |s| then ""
    else
      match SurgeAt(s, i)
      case Some(e) => RemoveSurges(s, e)
      case None =>
        assert s[i..] == [s[i]] + s[i + 1..];
        [s[i]] + RemoveSurges(s, i + 1)
  }

  /** The flag test of `parse_roll_command`: 'blood surge' or 'bloodsurge' in `command.lower()`. */
  predicate MentionsBloodSurge(command: string) {
    Contains(Lower(command), "blood surge") || Contains(Lower(command), "bloodsurge")
  }

  /** SurgeAt's steps at a position that holds "blood", once each is known. */
  lemma SurgeAtSteps(s: string, i: nat, m: nat)
    requires i < |s| && s[i] != '+' && SpaceRunEnd(s, i) == i && OccursAtIgnoreCase(s, "blood", i)
    requires i + 5 <= m <= |s| && SpaceRunEnd(s, i + 5) == m && OccursAtIgnoreCase(s, "surge", m)
    ensures SurgeAt(s, i) == Some(m + 5)
  {
  }

  /** A piece of a phrase found in the lower-cased text is, lower-cased, that piece of the text. */
  lemma LowerOccursSlice(s: string, p: string, i: nat, a: nat, b: nat)
    requires OccursAt(Lower(s), p, i) && a <= b <= |p|
    ensures i + b <= |s| && Lower(s[i + a..i + b]) == p[a..b]
  {
    var t := Lower(s)[i..i + |p|];
    assert t == p;
    assert t[a..b] == Lower(s)[i + a..i + b];
    LowerSlice(s, i + a, i + b);
  }

  /** One character of a phrase found in the lower-cased text. */
  lemma LowerOccursChar(s: string, p: string, i: nat, k: nat)
    requires OccursAt(Lower(s), p, i) && k < |p|
    ensures i + k < |s| && LowerChar(s[i + k]) == p[k]
  {
    assert Lower(s)[i..i + |p|][k] == Lower(s)[i + k];
  }

  /** "blood", then `gap` whitespace characters, then "surge", read case-insensitively at i: a match. */
  lemma SurgeFromPieces(s: string, i: nat, gap: nat)
    requires i + 10 + gap <= |s| && Lower(s[i..i + 5]) == "blood" && Lower(s[i + 5 + gap..i + 10 + gap]) == "surge"
    requires forall k :: i + 5 <= k < i + 5 + gap ==> IsSpace(s[k])
    ensures SurgeAt(s, i).Some?
  {
    assert LowerChar(s[i]) == 'b' by {
      assert Lower(s[i..i + 5])[0] == LowerChar(s[i]);
    }
    assert LowerChar(s[i + 5 + gap]) == 's' by {
      assert Lower(s[i + 5 + gap..i + 10 + gap])[0] == LowerChar(s[i + 5 + gap]);
    }
    assert !IsSpace(s[i]) && s[i] != '+';
    assert !IsSpace(s[i + 5 + gap]);
    SpaceRunEndAt(s, i, i);
    SpaceRunEndAt(s, i + 5, i + 5 + gap);
    SurgeAtSteps(s, i, i + 5 + gap);
  }

  /** "blood surge" in the lower-cased text: the pattern matches there, across the one space. */
  lemma SpacedPhraseIsSurgeMatch(s: string, i: nat)
    requires OccursAt(Lower(s), "blood surge", i)
    ensures SurgeAt(s, i).Some?
  {
    var p := "blood surge";
    assert Lower(s[i..i + 5]) == "blood" by {
      LowerOccursSlice(s, p, i, 0, 5);
      assert p[0..5] == "blood";
    }
    assert Lower(s[i + 6..i + 11]) == "surge" by {
      LowerOccursSlice(s, p, i, 6, 11);
      assert p[6..11] == "surge";
    }
    assert IsSpace(s[i + 5]) by {
      LowerOccursChar(s, p, i, 5);
      assert p[5] == ' ';
    }
    SurgeFromPieces(s, i, 1);
  }

  /** "bloodsurge" in the lower-cased text: the pattern matches there, with no space. */
  lemma JoinedPhraseIsSurgeMatch(s: string, i: nat)
    requires OccursAt(Lower(s), "bloodsurge", i)
    ensures SurgeAt(s, i).Some?
  {
    var p := "bloodsurge";
    assert Lower(s[i..i + 5]) == "blood" by {
      LowerOccursSlice(s, p, i, 0, 5);
      assert p[0..5] == "blood";
    }
    assert Lower(s[i + 5..i + 10]) == "surge" by {
      LowerOccursSlice(s, p, i, 5, 10);
      assert p[5..10] == "surge";
    }
    SurgeFromPieces(s, i, 0);
  }

  /** Where the flag test sees a phrase, the pattern matches at the same place. */
  lemma PhraseIsSurgeMatch(s: string, i: nat)
    requires OccursAt(Lower(s), "blood surge", i) || OccursAt(Lower(s), "bloodsurge", i)
    ensures SurgeAt(s, i).Some?
  {
    if OccursAt(Lower(s), "blood surge", i) {
      SpacedPhraseIsSurgeMatch(s, i);
    } else {
      JoinedPhraseIsSurgeMatch(s, i);
    }
  }

  /** When the flag is raised, re.sub really removes something. */
  lemma FlaggedSurgeIsRemoved(command: string)
    requires MentionsBloodSurge(command)
    ensures |RemoveSurges(command, 0)| < |command|
  {
    var i: nat :| i <= |Lower(command)| &&
      (OccursAt(Lower(command), "blood surge", i) || OccursAt(Lower(command), "bloodsurge", i));
    PhraseIsSurgeMatch(command, i);
  }

  /** What `parse_roll_command` goes on to read: surge phrases (when flagged) and every '/roll' removed, then stripped. */
  function CommandRemainder(command: string): string {
    var c := if MentionsBloodSurge(command) then RemoveSurges(command, 0) else command;
    Strip(RemoveAll(c, "/roll"))
  }

  /**
   * What `parse_roll_command` returns: the surge flag follows the phrase test; an empty
   * remainder (or a lone '+') repeats the last suggestion; otherwise "<Name> + <Name>" is an
   * explicit roll and anything else is taken, capitalized, as a discipline name.
   */
  function ParsedRoll(command: string): (r: RollCommand)
    ensures r.spec.bloodSurge <==> MentionsBloodSurge(command)
    ensures r.useLastSuggested <==> CommandRemainder(command) == "" || CommandRemainder(command) == "+"
    ensures r.useLastSuggested ==> r.spec.attribute.None? && r.spec.skill.None? && r.spec.discipline.None?
    ensures !r.useLastSuggested ==> (r.spec.attribute.Some? <==> Search(NamePair, CommandRemainder(command)).Some?)
    ensures r.spec.attribute.Some? <==> r.spec.skill.Some?
    ensures r.spec.attribute.Some? ==>
      r.spec.discipline.None? && IsCapitalizedWord(r.spec.attribute.value) && IsCapitalizedWord(r.spec.skill.value)
    ensures !r.useLastSuggested && Search(NamePair, CommandRemainder(command)).Some? ==>
      r.spec.attribute == Some(Capitalize(Search(NamePair, CommandRemainder(command)).value.first)) &&
      r.spec.skill == Some(Capitalize(Search(NamePair, CommandRemainder(command)).value.second))
    ensures !r.useLastSuggested && r.spec.attribute.None? ==>
      r.spec.discipline == Some(Capitalize(CommandRemainder(command))) && r.spec.discipline.value != ""
  {
    var surge := MentionsBloodSurge(command);
    var rest := CommandRemainder(command);
    if rest == "" || rest == "+" then
      RollCommand(true, RollSpec(None, None, None, surge))
    else
      match Search(NamePair, rest)
      case Some(n) =>
        CapitalizeWord(n.first);
        CapitalizeWord(n.second);
        RollCommand(false, RollSpec(Some(Capitalize(n.first)), Some(Capitalize(n.second)), None, surge))
      case None =>
        RollCommand(false, RollSpec(None, None, Some(Capitalize(rest)), surge))
  }

  /** `parse_roll_command`: the flag, then `command` reassigned twice, then the result filled in. */
  method ParseRollCommand(command: string) returns (result: RollCommand)
    ensures result == ParsedRoll(command)
  {
    var surge := false;
    var c := command;
    if Contains(Lower(c), "blood surge") || Contains(Lower(c), "bloodsurge") {
      surge := true;
      c := RemoveSurges(c, 0);
    }
    c := Strip(RemoveAll(c, "/roll"));
    assert c == CommandRemainder(command) && surge == MentionsBloodSurge(command);
    if c == "" || c == "+" {
      return RollCommand(true, RollSpec(None, None, None, surge));
    }
    var attribute: Option<string> := None;
    var skill: Option<string> := None;
    var discipline: Option<string> := None;
    var m := Search(NamePair, c);
    if m.Some? {
      attribute := Some(Capitalize(m.value.first));
      skill := Some(Capitalize(m.value.second));
    } else if Strip(c) != "" {
      StripIdempotent(RemoveAll(if surge then RemoveSurges(command, 0) else command, "/roll"));
      discipline := Some(Capitalize(Strip(c)));
    }
    result := RollCommand(false, RollSpec(attribute, skill, discipline, surge));
  }

  /** A bare `/roll` repeats the last suggestion without a surge. */
  lemma BareRollRepeats()
    ensures ParsedRoll("/roll") == RollCommand(true, RollSpec(None, None, None, false))
  {
    assert !MentionsBloodSurge("/roll");
    assert RemoveAll("/roll", "/roll") == "";
  }

  /**
   * A capitalized name never reads the 'animal_ken' entry: "AnimalKen" has an upper-case letter
   * after the first, so the names `/roll` and the narration produce look up their plain lower-case form.
   */
  lemma CapitalizedSkillKey(name: string)
    requires IsCapitalizedWord(name)
    ensures SkillKey(name) == Lower(name)
  {
    if |name| > 6 {
      assert IsLower(name[6]);
    }
    SkillKeyIsLower(name);
  }

  /** So an explicit `/roll <A> + <Skill>` reads the skill under its lower-cased name. */
  lemma ParsedSkillLookup(command: string, ch: CharacterRow)
    requires ParsedRoll(command).spec.skill.Some?
    ensures var skill := ParsedRoll(command).spec.skill.value;
      GetSkillValue(ch, skill) == StatValue(ch.skills, ch.columns, Lower(skill))
  {
    CapitalizedSkillKey(ParsedRoll(command).spec.skill.value);
  }

  /** The last suggestion per session (`last_suggested_rolls`). */
  class SuggestionCache {
    var entries: map<string, RollSpec>

    constructor()
      ensures entries == map[]
    {
      entries := map[];
    }

    /** `store_suggested_roll`: the session's entry is replaced, the others kept. */
    method Store(sessionId: string, spec: RollSpec)
      modifies this
      ensures entries == old(entries)[sessionId := spec]
    {
      entries := entries[sessionId := spec];
    }

    /** `get_last_suggested_roll`: the session's entry, None when there is none. */
    function Lookup(sessionId: string): (r: Option<RollSpec>)
      reads this
      ensures r.Some? <==> sessionId in entries
      ensures r.Some? ==> r.value == entries[sessionId]
    {
      Get(entries, sessionId)
    }
  }

  /** A word followed by a non-letter, or by the end of the text, is read whole. */
  lemma WordEndAt(s: string, i: nat, w: string)
    requires IsWord(w) && i + |w| <= |s| && s[i..i + |w|] == w
    requires i + |w| == |s| || !IsLetter(s[i + |w|])
    ensures WordEnd(s, i) == Some(i + |w|)
  {
    assert forall k :: i <= k < i + |w| ==> s[k] == w[k - i] by {
      forall k | i <= k < i + |w| ensures s[k] == w[k - i] {
        assert s[i..i + |w|][k - i] == s[k];
      }
    }
    assert forall k :: i <= k < i + |w| ==> IsLetter(s[k]);
  }

  /** "<A> + <B>" laid out at i, as the end of the text. */
  predicate PairLaidOut(s: string, i: nat, a: string, b: string) {
    |s| == i + |a| + 3 + |b| && s[i..i + |a|] == a && s[i + |a| + 3..] == b &&
    s[i + |a|] == ' ' && s[i + |a| + 1] == '+' && s[i + |a| + 2] == ' '
  }

  /** Where the characters of "<A> + <B>" at i sit. */
  lemma PairLayout(s: string, i: nat, a: string, b: string)
    requires i <= |s| && s[i..] == a + " + " + b
    ensures PairLaidOut(s, i, a, b)
  {
    var t := s[i..];
    assert t[..|a|] == a;
    assert t[|a| + 3..] == b;
    assert t[|a|] == ' ' && t[|a| + 1] == '+' && t[|a| + 2] == ' ';
  }

  /** PairAt's steps, once each is known. */
  lemma PairAtSteps(s: string, i: nat, e: nat, j: nat, g: nat, h: nat)
    requires i <= |s| && WordEnd(s, i) == Some(e) && SpaceRunEnd(s, e) == j && j < |s| && s[j] == '+'
    requires SpaceRunEnd(s, j + 1) == g && WordEnd(s, g) == Some(h)
    ensures PairAt(s, i) == Some(Names(s[i..e], s[g..h]))
  {
  }

  /** Both names of a laid-out pair are read whole. */
  lemma PairWordsEnd(s: string, i: nat, a: string, b: string)
    requires IsWord(a) && IsWord(b) && PairLaidOut(s, i, a, b)
    ensures WordEnd(s, i) == Some(i + |a|) && WordEnd(s, i + |a| + 3) == Some(|s|)
  {
    WordEndAt(s, i, a);
    assert s[i + |a| + 3..i + |a| + 3 + |b|] == b;
    WordEndAt(s, i + |a| + 3, b);
  }

  /** The spaces around the '+' of a laid-out pair are one run each. */
  lemma PairSpacesEnd(s: string, i: nat, a: string, b: string)
    requires IsWord(b) && PairLaidOut(s, i, a, b)
    ensures SpaceRunEnd(s, i + |a|) == i + |a| + 1 && SpaceRunEnd(s, i + |a| + 2) == i + |a| + 3
  {
    var e := i + |a|;
    SpaceRunEndAt(s, e, e + 1);
    assert s[e + 3] == b[0] && IsLetter(b[0]);
    SpaceRunEndAt(s, e + 2, e + 3);
  }

  /** "<A> + <B>" at i, with A and B words and nothing after B, is the pair (A, B). */
  lemma PairOfWords(s: string, i: nat, a: string, b: string)
    requires IsWord(a) && IsWord(b) && PairLaidOut(s, i, a, b)
    ensures PairAt(s, i) == Some(Names(a, b))
  {
    var e := i + |a|;
    PairWordsEnd(s, i, a, b);
    PairSpacesEnd(s, i, a, b);
    assert s[e + 3..|s|] == b;
    PairAtSteps(s, i, e, e + 1, e + 3, |s|);
  }

  /** The phrase the narration is asked to use, "roll <Attribute> + <Skill>", is read back as that roll. */
  lemma CanonicalSuggestion(attribute: string, skill: string)
    requires IsWord(attribute) && IsWord(skill)
    ensures ExtractRollSuggestion("roll " + attribute + " + " + skill) ==
            Some(RollSpec(Some(Capitalize(attribute)), Some(Capitalize(skill)), None, false))
  {
    var s := "roll " + attribute + " + " + skill;
    assert s[5..] == attribute + " + " + skill;
    assert s[0..4] == "roll";
    assert Lower("roll") == "roll";
    assert SpaceRunEnd(s, 4) == 5 by {
      assert s[4] == ' ' && s[5] == attribute[0] && IsLetter(attribute[0]);
    }
    assert RollPrefixEnd(s, 0) == Some(5);
    PairLayout(s, 5, attribute, skill);
    PairOfWords(s, 5, attribute, skill);
    assert MatchesAt(RollNamePair, s, 0);
  }
}
