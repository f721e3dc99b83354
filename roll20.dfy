/**
 * The conversion of a character dict into the flat attribute dict of a Roll20 character sheet
 * (`_convert_vtm_to_roll20` in roll20_integration.py). The HTTP calls to Roll20 are not modelled.
 *
 * A dict section is the list of its (key, value) pairs in insertion order, the order Python
 * iterates it in; the values are copied, never read, so their type is a parameter.
 */
module Roll20 {
  import opened Wrappers
  import opened Ascii
  import opened Dicts

  /** The parts of the character dict the conversion reads; None is a key the dict lacks. */
  datatype VtmCharacter<V> = VtmCharacter(clan: Option<V>, generation: Option<V>,
                                          attributes: Option<seq<(string, V)>>,
                                          disciplines: Option<seq<(string, V)>>,
                                          backgrounds: Option<seq<(string, V)>>)

  /** The pairs of a section, each key lower-cased and prefixed. */
  function Renamed<V>(prefix: string, section: seq<(string, V)>): (ws: seq<(string, V)>)
    ensures |ws| == |section|
    ensures forall i :: 0 <= i < |ws| ==> ws[i] == (prefix + Lower(section[i].0), section[i].1)
  {
    seq(|section|, i requires 0 <= i < |section| => (prefix + Lower(section[i].0), section[i].1))
  }

  function SectionWrites<V>(prefix: string, section: Option<seq<(string, V)>>): seq<(string, V)> {
    if section.Some? then Renamed(prefix, section.value) else []
  }

  function ValueWrite<V>(key: string, value: Option<V>): seq<(string, V)> {
    if value.Some? then [(key, value.value)] else []
  }

  /**
   * The assignments the conversion makes, in its order: clan, generation, the attributes under
   * their lower-cased names, then "discipline_" and "background_" entries.
   */
  function Writes<V>(c: VtmCharacter<V>): seq<(string, V)> {
    ValueWrite("clan", c.clan) + ValueWrite("generation", c.generation) +
    SectionWrites("", c.attributes) + SectionWrites("discipline_", c.disciplines) +
    SectionWrites("background_", c.backgrounds)
  }

  /** `k` is the renamed key of some entry of a present section. */
  predicate RenamedKey<V>(prefix: string, section: Option<seq<(string, V)>>, k: string) {
    section.Some? && exists i :: 0 <= i < |section.value| && k == prefix + Lower(section.value[i].0)
  }

  /** The keys a section is copied to. */
  lemma SectionKeys<V>(prefix: string, section: Option<seq<(string, V)>>)
    ensures forall k :: k in KeysOf(SectionWrites(prefix, section)) <==> RenamedKey(prefix, section, k)
  {
    forall k ensures k in KeysOf(SectionWrites(prefix, section)) <==> RenamedKey(prefix, section, k) {
      if section.Some? {
        var ws := Renamed(prefix, section.value);
        if k in KeysOf(ws) {
          var i :| 0 <= i < |ws| && ws[i].0 == k;
          assert k == prefix + Lower(section.value[i].0);
        }
        if RenamedKey(prefix, section, k) {
          var i :| 0 <= i < |section.value| && k == prefix + Lower(section.value[i].0);
          assert ws[i].0 == k;
        }
      }
    }
  }

  /**
   * The output holds exactly the keys the conversion names: "clan" and "generation" when the
   * input has them, and the renamed key of every entry of the three sections.
   */
  lemma ConvertedKeys<V>(c: VtmCharacter<V>)
    ensures forall k :: k in ApplyWrites(map[], Writes(c)) <==>
              (k == "clan" && c.clan.Some?) || (k == "generation" && c.generation.Some?) ||
              RenamedKey("", c.attributes, k) || RenamedKey("discipline_", c.disciplines, k) ||
              RenamedKey("background_", c.backgrounds, k)
  {
    var v1 := ValueWrite("clan", c.clan);
    var v2 := ValueWrite("generation", c.generation);
    var s1 := SectionWrites("", c.attributes);
    var s2 := SectionWrites("discipline_", c.disciplines);
    var s3 := SectionWrites("background_", c.backgrounds);
    assert KeysOf(Writes(c)) == KeysOf(v1) + KeysOf(v2) + KeysOf(s1) + KeysOf(s2) + KeysOf(s3) by {
      KeysOfConcat(v1 + v2 + s1 + s2, s3);
      KeysOfConcat(v1 + v2 + s1, s2);
      KeysOfConcat(v1 + v2, s1);
      KeysOfConcat(v1, v2);
    }
    assert forall k :: k in KeysOf(v1) <==> k == "clan" && c.clan.Some?;
    assert forall k :: k in KeysOf(v2) <==> k == "generation" && c.generation.Some?;
    SectionKeys("", c.attributes);
    SectionKeys("discipline_", c.disciplines);
    SectionKeys("background_", c.backgrounds);
    ApplyWritesKeys(map[], Writes(c));
  }

  /** The loop's step: extending the prefix of a section by one assignment. */
  lemma ApplyNextOf<V>(done: seq<(string, V)>, ws: seq<(string, V)>, i: nat)
    requires i < |ws|
    ensures ApplyWrites(map[], done + ws[..i + 1]) == ApplyWrites(map[], done + ws[..i])[ws[i].0 := ws[i].1]
  {
    assert done + ws[..i + 1] == (done + ws[..i]) + [ws[i]];
    ApplyOneMore(map[], done + ws[..i], ws[i]);
  }

  /** `_convert_vtm_to_roll20`: the basic entries, then one loop per section. */
  method ConvertVtmToRoll20<V>(c: VtmCharacter<V>) returns (attributes: map<string, V>)
    ensures attributes == ApplyWrites(map[], Writes(c))
  {
    attributes := map[];
    ghost var done: seq<(string, V)> := [];
    if c.clan.Some? {
      attributes := attributes["clan" := c.clan.value];
      ApplyOneMore(map[], [], ("clan", c.clan.value));
    }
    done := ValueWrite("clan", c.clan);
    if c.generation.Some? {
      ApplyOneMore(map[], done, ("generation", c.generation.value));
      attributes := attributes["generation" := c.generation.value];
    }
    done := done + ValueWrite("generation", c.generation);
    assert attributes == ApplyWrites(map[], done);
    attributes := CopySection(attributes, done, "", c.attributes);
    done := done + SectionWrites("", c.attributes);
    attributes := CopySection(attributes, done, "discipline_", c.disciplines);
    done := done + SectionWrites("discipline_", c.disciplines);
    attributes := CopySection(attributes, done, "background_", c.backgrounds);
    done := done + SectionWrites("background_", c.backgrounds);
  }

  /** One of the three loops: every (key, value) of the section is stored under prefix + key.lower(). */
  method CopySection<V>(attributes: map<string, V>, ghost done: seq<(string, V)>, prefix: string,
                        section: Option<seq<(string, V)>>)
    returns (r: map<string, V>)
    requires attributes == ApplyWrites(map[], done)
    ensures r == ApplyWrites(map[], done + SectionWrites(prefix, section))
  {
    r := attributes;
    if section.None? {
      assert done + SectionWrites(prefix, section) == done;
      return;
    }
    var items := section.value;
    ghost var ws := Renamed(prefix, items);
    var i := 0;
    assert done + ws[..0] == done;
    while i < |items|
      invariant 0 <= i <= |items|
      invariant r == ApplyWrites(map[], done + ws[..i])
    {
      var key := prefix + Lower(items[i].0);
      var value := items[i].1;
      ApplyNextOf(done, ws, i);
      assert ws[i] == (key, value);
      r := r[key := value];
      i := i + 1;
    }
    assert ws[..i] == SectionWrites(prefix, section);
  }

  /** An attribute named "Clan" lands on the key "clan" after the clan itself, and overwrites it. */
  lemma AttributeOverwritesClan<V>(clan: V, value: V)
    ensures var c := VtmCharacter(Some(clan), None, Some([("Clan", value)]), None, None);
            "clan" in ApplyWrites(map[], Writes(c)) && ApplyWrites(map[], Writes(c))["clan"] == value
  {
    var c := VtmCharacter(Some(clan), None, Some([("Clan", value)]), None, None);
    var ws := Renamed("", [("Clan", value)]);
    assert ws[0] == ("" + Lower("Clan"), value);
    assert Lower("Clan") == "clan";
    assert "" + "clan" == "clan";
    assert SectionWrites("", c.attributes) == [("clan", value)];
    assert Writes(c) == [("clan", clan), ("clan", value)];
    LastWriteWins(map[], Writes(c), 1);
  }

  /** The two basic entries, written on top of `m`. */
  lemma ApplyValueWrites<V>(m: map<string, V>, clan: Option<V>, generation: Option<V>)
    ensures var m1 := if clan.Some? then m["clan" := clan.value] else m;
            ApplyWrites(m, ValueWrite("clan", clan) + ValueWrite("generation", generation)) ==
            if generation.Some? then m1["generation" := generation.value] else m1
  {
    var first := ValueWrite("clan", clan);
    if clan.Some? {
      ApplyOneMore(m, [], ("clan", clan.value));
    }
    if generation.Some? {
      ApplyOneMore(m, first, ("generation", generation.value));
    } else {
      assert first + [] == first;
    }
  }

  /** The same prefix in front of two keys keeps them apart. */
  lemma PrefixCancels(p: string, x: string, y: string)
    ensures p + x == p + y ==> x == y
  {
    if p + x == p + y {
      assert (p + x)[|p|..] == x;
      assert (p + y)[|p|..] == y;
    }
  }

  /**
   * An entry of a section whose lower-cased name no later entry of that section repeats, and whose
   * renamed key none of the later assignments names, keeps its value under that key.
   */
  lemma RenamedEntryWins<V>(pre: seq<(string, V)>, prefix: string, items: seq<(string, V)>,
                            post: seq<(string, V)>, i: nat)
    requires i < |items|
    requires forall j :: i < j < |items| ==> Lower(items[j].0) != Lower(items[i].0)
    requires prefix + Lower(items[i].0) !in KeysOf(post)
    ensures var k := prefix + Lower(items[i].0);
            var out := ApplyWrites(map[], pre + Renamed(prefix, items) + post);
            k in out && out[k] == items[i].1
  {
    var s := Renamed(prefix, items);
    var ws := pre + s + post;
    var n := |pre| + i;
    assert ws[n] == s[i];
    forall j | n < j < |ws| ensures ws[j].0 != ws[n].0 {
      if j < |pre| + |s| {
        var js := j - |pre|;
        assert ws[j] == s[js];
        PrefixCancels(prefix, Lower(items[js].0), Lower(items[i].0));
      } else {
        assert ws[j] == post[j - |pre| - |s|];
      }
    }
    LastWriteWins(map[], ws, n);
  }

  /**
   * Each attribute is stored under its lower-cased name with its value, unless a later attribute
   * has the same lower-cased name or a discipline or background entry lands on that key.
   */
  lemma AttributeWins<V>(c: VtmCharacter<V>, i: nat)
    requires c.attributes.Some? && i < |c.attributes.value|
    requires forall j :: i < j < |c.attributes.value| ==>
               Lower(c.attributes.value[j].0) != Lower(c.attributes.value[i].0)
    requires !RenamedKey("discipline_", c.disciplines, Lower(c.attributes.value[i].0))
    requires !RenamedKey("background_", c.backgrounds, Lower(c.attributes.value[i].0))
    ensures var k := Lower(c.attributes.value[i].0);
            k in ApplyWrites(map[], Writes(c)) && ApplyWrites(map[], Writes(c))[k] == c.attributes.value[i].1
  {
    var ats := c.attributes.value;
    var pre := ValueWrite("clan", c.clan) + ValueWrite("generation", c.generation);
    var s2 := SectionWrites("discipline_", c.disciplines);
    var s3 := SectionWrites("background_", c.backgrounds);
    assert Writes(c) == pre + Renamed("", ats) + (s2 + s3);
    assert "" + Lower(ats[i].0) == Lower(ats[i].0);
    assert Lower(ats[i].0) !in KeysOf(s2 + s3) by {
      KeysOfConcat(s2, s3);
      SectionKeys("discipline_", c.disciplines);
      SectionKeys("background_", c.backgrounds);
    }
    RenamedEntryWins(pre, "", ats, s2 + s3, i);
  }

  /**
   * Each discipline is stored under "discipline_" + its lower-cased name with its rating, unless a
   * later discipline has the same lower-cased name or a background entry lands on that key.
   */
  lemma DisciplineWins<V>(c: VtmCharacter<V>, i: nat)
    requires c.disciplines.Some? && i < |c.disciplines.value|
    requires forall j :: i < j < |c.disciplines.value| ==>
               Lower(c.disciplines.value[j].0) != Lower(c.disciplines.value[i].0)
    requires !RenamedKey("background_", c.backgrounds, "discipline_" + Lower(c.disciplines.value[i].0))
    ensures var k := "discipline_" + Lower(c.disciplines.value[i].0);
            k in ApplyWrites(map[], Writes(c)) && ApplyWrites(map[], Writes(c))[k] == c.disciplines.value[i].1
  {
    var ds := c.disciplines.value;
    var pre := ValueWrite("clan", c.clan) + ValueWrite("generation", c.generation) +
               SectionWrites("", c.attributes);
    var s3 := SectionWrites("background_", c.backgrounds);
    assert Writes(c) == pre + Renamed("discipline_", ds) + s3;
    SectionKeys("background_", c.backgrounds);
    RenamedEntryWins(pre, "discipline_", ds, s3, i);
  }

  /**
   * The backgrounds are written last, so a background whose lower-cased name no later
   * background repeats keeps its value under "background_" + that name, whatever came before.
   */
  lemma BackgroundWins<V>(c: VtmCharacter<V>, i: nat)
    requires c.backgrounds.Some? && i < |c.backgrounds.value|
    requires forall j :: i < j < |c.backgrounds.value| ==>
               Lower(c.backgrounds.value[j].0) != Lower(c.backgrounds.value[i].0)
    ensures var k := "background_" + Lower(c.backgrounds.value[i].0);
            k in ApplyWrites(map[], Writes(c)) && ApplyWrites(map[], Writes(c))[k] == c.backgrounds.value[i].1
  {
    var pre := ValueWrite("clan", c.clan) + ValueWrite("generation", c.generation) +
               SectionWrites("", c.attributes) + SectionWrites("discipline_", c.disciplines);
    var post: seq<(string, V)> := [];
    assert Writes(c) == pre + Renamed("background_", c.backgrounds.value) + post;
    RenamedEntryWins(pre, "background_", c.backgrounds.value, post, i);
  }

  /** Without any section the conversion holds at most the clan and the generation, copied unchanged. */
  lemma BasicInfoOnly<V>(clan: Option<V>, generation: Option<V>)
    ensures var out := ApplyWrites(map[], Writes(VtmCharacter(clan, generation, None, None, None)));
            ("clan" in out <==> clan.Some?) && ("generation" in out <==> generation.Some?) &&
            (clan.Some? ==> out["clan"] == clan.value) &&
            (generation.Some? ==> out["generation"] == generation.value) &&
            (forall k :: k in out ==> k == "clan" || k == "generation")
  {
    var ws := Writes(VtmCharacter(clan, generation, None, None, None));
    assert ws == ValueWrite("clan", clan) + ValueWrite("generation", generation);
    ApplyValueWrites(map[], clan, generation);
  }
}
