/**
 * The character-sheet side of the PDF parser (class VTMCharacterParser): the empty character
 * structure it starts from, the count of filled dot checkboxes of a form field, the clean-up
 * pass that clamps the extracted values, and the list of problems it reports.
 *
 * Reading the PDF itself (form fields and page text), hashing it and the clock are not
 * modelled: the form fields are a map, and the moment of parsing is given as text.
 */
module SheetParser {
  import opened Wrappers
  import opened Ascii

  /** A value in the attribute and skill dicts: an int (dots) or anything else. */
  datatype Value = IntValue(i: int) | OtherValue

  /** The character dict the parser fills (`self.data`). */
  datatype SheetData = SheetData(
    name: string, player: string, chronicle: string, clan: string, predatorType: string,
    ambition: string, desire: string, sect: string, rankTitle: string,
    attributes: map<string, Value>, skills: map<string, Value>,
    disciplines: map<string, Value>, backgrounds: map<string, Value>,
    healthMax: int, willpowerMax: int, humanity: int, hunger: int, resonance: string,
    bloodPotency: int, generation: int,
    bloodSurge: string, powerBonus: string, mendAmount: string, rouseReroll: string, baneSeverity: string,
    clanBane: string, clanCompulsion: string, pdfHash: string, extractionDate: string)

  /** ATTRIBUTES, physical, social and mental in turn. */
  const AttributeNames: seq<string> :=
    ["strength", "dexterity", "stamina", "charisma", "manipulation", "composure", "intelligence", "wits", "resolve"]

  /** SKILLS, physical, social and mental in turn. */
  const SkillNames: seq<string> :=
    ["athletics", "brawl", "craft", "drive", "firearms", "larceny", "melee", "stealth", "survival",
     "animal_ken", "etiquette", "insight", "intimidation", "leadership", "performance", "persuasion",
     "streetwise", "subterfuge",
     "academics", "awareness", "finance", "investigation", "medicine", "occult", "politics", "science", "technology"]

  /** Every name of `names` rated 0. */
  function Unrated(names: seq<string>): (m: map<string, Value>)
    ensures forall k :: k in m <==> k in names
    ensures forall k :: k in m ==> m[k] == IntValue(0)
  {
    map k | k in names :: IntValue(0)
  }

  /**
   * `_initialize_data_structure`: empty text everywhere, the 9 attributes and 27 skills at 0,
   * no disciplines or backgrounds, Health and Willpower 3, Humanity 7, Hunger 1, Blood Potency 0,
   * Generation 13, stamped with the moment given.
   */
  function InitialData(extractionDate: string): (d: SheetData)
    ensures d.name == "" && d.chronicle == "" && d.extractionDate == extractionDate
    ensures d.attributes == Unrated(AttributeNames) && d.skills == Unrated(SkillNames)
    ensures d.disciplines == map[] && d.backgrounds == map[]
    ensures d.healthMax == 3 && d.willpowerMax == 3 && d.humanity == 7 && d.hunger == 1
    ensures d.bloodPotency == 0 && d.generation == 13
  {
    SheetData("", "", "", "", "", "", "", "", "",
              Unrated(AttributeNames), Unrated(SkillNames), map[], map[],
              3, 3, 7, 1, "", 0, 13, "", "", "", "", "", "", "", "", extractionDate)
  }

  /** The structure names nine different attributes and 27 different skills. */
  lemma NamesAreDistinct()
    ensures |AttributeNames| == 9 && |SkillNames| == 27
    ensures forall i, j :: 0 <= i < j < |AttributeNames| ==> AttributeNames[i] != AttributeNames[j]
    ensures forall i, j :: 0 <= i < j < |SkillNames| ==> SkillNames[i] != SkillNames[j]
  {
  }

  // ---------------------------------------------------------------------------------------
  // Checkboxes

  /** The '/V' entry of a PDF form field: a PDF name or text, a boolean, a number, or anything else. */
  datatype PdfValue = Text(s: string) | Flag(b: bool) | Number(n: int) | OtherPdfValue

  /**
   * `value in ['/Yes', '/On', 'Yes', 'On', True, '1']`. Python's `==` makes the number 1 equal to
   * True, so it is accepted too.
   */
  predicate IsMarked(v: PdfValue) {
    match v
    case Text(s) => s == "/Yes" || s == "/On" || s == "Yes" || s == "On" || s == "1"
    case Flag(b) => b
    case Number(n) => n == 1
    case OtherPdfValue => false
  }

  /** The form fields: each field's entries by key. */
  type Fields = map<string, map<string, PdfValue>>

  /** `f"{field_prefix}_{i}"` for one of the dots 1..5. */
  function BoxName(prefix: string, i: nat): string
    requires 1 <= i <= 5
  {
    prefix + "_" + [Digit(i)]
  }

  /** Box i is present and its value, `fields[name].get('/V', '')`, marks it. */
  predicate BoxFilled(fields: Fields, prefix: string, i: nat)
    requires 1 <= i <= 5
  {
    var name := BoxName(prefix, i);
    name in fields && IsMarked(Get(fields[name], "/V").GetOr(Text("")))
  }

  /** How many of the boxes 1..n are filled. */
  function FilledUpTo(fields: Fields, prefix: string, n: nat): (c: nat)
    requires n <= 5
    ensures c <= n
  {
    if n == 0 then 0 else FilledUpTo(fields, prefix, n - 1) + (if BoxFilled(fields, prefix, n) then 1 else 0)
  }

  /** No box is counted that is absent or unmarked: every box counted is a filled one. */
  lemma {:induction false} FilledCountsOnlyFilledBoxes(fields: Fields, prefix: string, n: nat)
    requires n <= 5
    ensures FilledUpTo(fields, prefix, n) == 0 <==> forall i :: 1 <= i <= n ==> !BoxFilled(fields, prefix, i)
    ensures FilledUpTo(fields, prefix, n) == n <==> forall i :: 1 <= i <= n ==> BoxFilled(fields, prefix, i)
  {
    if n > 0 {
      FilledCountsOnlyFilledBoxes(fields, prefix, n - 1);
    }
  }

  /** `_count_filled_checkboxes`: the number of filled boxes among `prefix_1` .. `prefix_5`, at most 5. */
  method CountFilledCheckboxes(fields: Fields, prefix: string) returns (count: nat)
    ensures count == FilledUpTo(fields, prefix, 5) && count <= 5
  {
    count := 0;
    var i := 1;
    while i < 6
      invariant 1 <= i <= 6
      invariant count == FilledUpTo(fields, prefix, i - 1)
    {
      var name := BoxName(prefix, i);
      if name in fields {
        var value := Get(fields[name], "/V").GetOr(Text(""));
        if IsMarked(value) {
          count := count + 1;
        }
      }
      i := i + 1;
    }
  }

  // ---------------------------------------------------------------------------------------
  // Validation

  /** An attribute or skill value kept by `_validate_data`: an int of 0..5; anything else becomes 0. */
  function ClampDots(v: Value): (r: Value)
    ensures r.IntValue? && 0 <= r.i <= 5
    ensures v.IntValue? && 0 <= v.i <= 5 ==> r == v
    ensures !(v.IntValue? && 0 <= v.i <= 5) ==> r == IntValue(0)
  {
    if v.IntValue? && 0 <= v.i <= 5 then v else IntValue(0)
  }

  /** Every value of a dict passed through ClampDots. */
  function ClampAll(m: map<string, Value>): (r: map<string, Value>)
    ensures r.Keys == m.Keys
    ensures forall k :: k in m ==> r[k] == ClampDots(m[k])
  {
    map k | k in m :: ClampDots(m[k])
  }

  const DefaultChronicle: string := "Default Chronicle"

  /** The placeholder name built from the moment of validation (`%Y%m%d_%H%M%S`). */
  function PlaceholderName(timestamp: string): (r: string)
    ensures r != ""
  {
    "Character_" + timestamp
  }

  /** What `_validate_data` makes of the data, given the moment it runs. */
  function Validated(d: SheetData, timestamp: string): (r: SheetData)
    ensures r.name == (if d.name == "" then PlaceholderName(timestamp) else d.name)
    ensures r.chronicle == (if d.chronicle == "" then DefaultChronicle else d.chronicle)
    ensures r.attributes == ClampAll(d.attributes) && r.skills == ClampAll(d.skills)
    ensures r.bloodPotency == (if 0 <= d.bloodPotency <= 10 then d.bloodPotency else 0)
    ensures r.humanity == (if 0 <= d.humanity <= 10 then d.humanity else 7)
    ensures r == d.(name := r.name, chronicle := r.chronicle, attributes := r.attributes,
                    skills := r.skills, bloodPotency := r.bloodPotency, humanity := r.humanity)
  {
    d.(name := if d.name == "" then PlaceholderName(timestamp) else d.name,
       chronicle := if d.chronicle == "" then DefaultChronicle else d.chronicle,
       attributes := ClampAll(d.attributes),
       skills := ClampAll(d.skills),
       bloodPotency := if 0 <= d.bloodPotency <= 10 then d.bloodPotency else 0,
       humanity := if 0 <= d.humanity <= 10 then d.humanity else 7)
  }

  /** After validation every dot rating is an int of 0..5 and Blood Potency and Humanity are within 0..10. */
  lemma ValidatedIsInRange(d: SheetData, timestamp: string)
    ensures var r := Validated(d, timestamp);
            && (forall k :: k in r.attributes ==> r.attributes[k].IntValue? && 0 <= r.attributes[k].i <= 5)
            && (forall k :: k in r.skills ==> r.skills[k].IntValue? && 0 <= r.skills[k].i <= 5)
            && 0 <= r.bloodPotency <= 10 && 0 <= r.humanity <= 10
            && r.name != "" && r.chronicle != ""
            && r.attributes.Keys == d.attributes.Keys && r.skills.Keys == d.skills.Keys
  {
  }

  /** Validation changes nothing in data that is already valid, so running it twice is running it once. */
  lemma ValidateIsIdempotent(d: SheetData, t1: string, t2: string)
    ensures Validated(Validated(d, t1), t2) == Validated(d, t1)
  {
    var r := Validated(d, t1);
    assert ClampAll(r.attributes) == r.attributes;
    assert ClampAll(r.skills) == r.skills;
  }

  /** The problems `get_validation_errors` reports. */
  const NameRequired: string := "Character name is required"
  const ChronicleRequired: string := "Chronicle name is required"
  const NoAttributes: string := "No attributes found in PDF. Please ensure the PDF is filled out correctly."
  const NoSkills: string := "No skills found in PDF. Please ensure the PDF is filled out correctly."

  /** `all(v == 0 for v in d.values())` */
  predicate AllZero(m: map<string, Value>) {
    forall k :: k in m ==> m[k] == IntValue(0)
  }

  /** The place of each problem in the report: name, chronicle, attributes, skills; 4 for any other text. */
  function Rank(error: string): nat {
    if error == NameRequired then 0
    else if error == ChronicleRequired then 1
    else if error == NoAttributes then 2
    else if error == NoSkills then 3
    else 4
  }

  /** The list `get_validation_errors` builds: each of the four problems exactly when it applies. */
  function ValidationErrors(d: SheetData): (errors: seq<string>)
    ensures NameRequired in errors <==> d.name == ""
    ensures ChronicleRequired in errors <==> d.chronicle == ""
    ensures NoAttributes in errors <==> AllZero(d.attributes)
    ensures NoSkills in errors <==> AllZero(d.skills)
    ensures |errors| <= 4
  {
    (if d.name == "" then [NameRequired] else []) +
    (if d.chronicle == "" then [ChronicleRequired] else []) +
    (if AllZero(d.attributes) then [NoAttributes] else []) +
    (if AllZero(d.skills) then [NoSkills] else [])
  }

  /** The four messages take the four places, in the order the report lists them. */
  lemma RanksOfMessages()
    ensures Rank(NameRequired) == 0 && Rank(ChronicleRequired) == 1
    ensures Rank(NoAttributes) == 2 && Rank(NoSkills) == 3
  {
    assert ChronicleRequired != NameRequired by {
      assert ChronicleRequired[2] == 'r' && NameRequired[2] == 'a';
    }
    assert |NameRequired| == 26 && |ChronicleRequired| == 26;
    assert |NoAttributes| == 74 && |NoSkills| == 70;
  }

  /** Every problem listed comes before the place `r`. */
  predicate RankedBelow(errors: seq<string>, r: nat) {
    forall a :: 0 <= a < |errors| ==> Rank(errors[a]) < r
  }

  /** The problems listed are each at a later place than the one before. */
  predicate InReportOrder(errors: seq<string>) {
    forall a, b :: 0 <= a < b < |errors| ==> Rank(errors[a]) < Rank(errors[b])
  }

  /** Appending, when it applies, the problem at place r to a list of earlier problems. */
  lemma AppendInOrder(errors: seq<string>, applies: bool, e: string, r: nat)
    requires InReportOrder(errors) && RankedBelow(errors, r) && Rank(e) == r
    ensures var next := errors + (if applies then [e] else []);
            InReportOrder(next) && RankedBelow(next, r + 1)
  {
    var next := errors + (if applies then [e] else []);
    assert forall a :: 0 <= a < |errors| ==> next[a] == errors[a];
  }

  /** The report names each problem at most once, in the order name, chronicle, attributes, skills. */
  lemma ValidationErrorsInOrder(d: SheetData)
    ensures InReportOrder(ValidationErrors(d)) && RankedBelow(ValidationErrors(d), 4)
  {
    RanksOfMessages();
    var e1 := if d.name == "" then [NameRequired] else [];
    AppendInOrder(e1, d.chronicle == "", ChronicleRequired, 1);
    var e2 := e1 + (if d.chronicle == "" then [ChronicleRequired] else []);
    AppendInOrder(e2, AllZero(d.attributes), NoAttributes, 2);
    var e3 := e2 + (if AllZero(d.attributes) then [NoAttributes] else []);
    AppendInOrder(e3, AllZero(d.skills), NoSkills, 3);
    assert ValidationErrors(d) == e3 + (if AllZero(d.skills) then [NoSkills] else []);
  }

  /** After validation only the two "nothing found" problems can be reported. */
  lemma ValidatedDataHasNoMissingNames(d: SheetData, timestamp: string)
    ensures var errors := ValidationErrors(Validated(d, timestamp));
            NameRequired !in errors && ChronicleRequired !in errors && |errors| <= 2
  {
  }

  /** The freshly initialised structure reports both missing names and both empty ratings. */
  lemma InitialDataReportsEverything(extractionDate: string)
    ensures ValidationErrors(InitialData(extractionDate)) == [NameRequired, ChronicleRequired, NoAttributes, NoSkills]
  {
  }

  /** The parser object and its `data`. */
  class CharacterParser {
    var data: SheetData

    /** `__init__`: the parser starts from the initial structure. */
    constructor(extractionDate: string)
      ensures data == InitialData(extractionDate)
    {
      data := InitialData(extractionDate);
    }

    /** The loop over one dot dict: each entry is overwritten in place by its clamped value. */
    static method ClampInPlace(m: map<string, Value>) returns (r: map<string, Value>)
      ensures r == ClampAll(m)
    {
      r := m;
      var todo := m.Keys;
      while todo != {}
        invariant todo <= m.Keys && r.Keys == m.Keys
        invariant forall k :: k in m && k !in todo ==> r[k] == ClampDots(m[k])
        invariant forall k :: k in todo ==> r[k] == m[k]
        decreases todo
      {
        var k :| k in todo;
        var value := r[k];
        if !(value.IntValue? && 0 <= value.i <= 5) {
          r := r[k := IntValue(0)];
        }
        todo := todo - {k};
      }
    }

    /** `_validate_data`, run at the moment `timestamp`. */
    method ValidateData(timestamp: string)
      modifies this
      ensures data == Validated(old(data), timestamp)
    {
      var d := data;
      var name := d.name;
      if name == "" {
        name := PlaceholderName(timestamp);
      }
      var chronicle := d.chronicle;
      if chronicle == "" {
        chronicle := DefaultChronicle;
      }
      var attributes := ClampInPlace(d.attributes);
      var skills := ClampInPlace(d.skills);
      var bloodPotency := d.bloodPotency;
      if !(0 <= bloodPotency <= 10) {
        bloodPotency := 0;
      }
      var humanity := d.humanity;
      if !(0 <= humanity <= 10) {
        humanity := 7;
      }
      data := d.(name := name, chronicle := chronicle, attributes := attributes, skills := skills,
                 bloodPotency := bloodPotency, humanity := humanity);
    }

    /** `get_validation_errors`: the problems appended one by one, in the order of ValidationErrors. */
    method GetValidationErrors() returns (errors: seq<string>)
      ensures errors == ValidationErrors(data)
      ensures InReportOrder(errors) && RankedBelow(errors, 4)
    {
      ValidationErrorsInOrder(data);
      errors := [];
      ghost var n := if data.name == "" then [NameRequired] else [];
      ghost var c := if data.chronicle == "" then [ChronicleRequired] else [];
      ghost var at := if AllZero(data.attributes) then [NoAttributes] else [];
      if data.name == "" {
        errors := errors + [NameRequired];
      }
      assert errors == n;
      if data.chronicle == "" {
        errors := errors + [ChronicleRequired];
      }
      assert errors == n + c;
      if AllZero(data.attributes) {
        errors := errors + [NoAttributes];
      }
      assert errors == n + c + at;
      if AllZero(data.skills) {
        errors := errors + [NoSkills];
      }
    }
  }
}
