/**
 * The handful of Python `str` operations the modelled code relies on, restricted to ASCII:
 * `lower`, `capitalize`, `strip`, `split(maxsplit=1)`, `replace(old, '')`, `in`, `str(int)`,
 * and the character classes `\s` and `[A-Za-z]` of the regular expressions.
 */
module Ascii {

  /** Python's `str.isspace` on the ASCII range (also what `\s` matches there). */
  predicate IsSpace(c: char) {
    c == ' ' || ('\t' <= c <= '\r') || ('\U{1C}' <= c <= '\U{1F}')
  }

  predicate IsUpper(c: char) { 'A' <= c <= 'Z' }

  predicate IsLower(c: char) { 'a' <= c <= 'z' }

  /** `[A-Za-z]`, which is what `[A-Z]` and `[a-z]` both match under `re.IGNORECASE`. */
  predicate IsLetter(c: char) { IsUpper(c) || IsLower(c) }

  function LowerChar(c: char): (d: char)
    ensures IsLetter(c) ==> IsLower(d)
    ensures !IsUpper(c) ==> d == c
  {
    if IsUpper(c) then (c as int + 32) as char else c
  }

  function UpperChar(c: char): (d: char)
    ensures IsLetter(c) ==> IsUpper(d)
    ensures !IsLower(c) ==> d == c
  {
    if IsLower(c) then (c as int - 32) as char else c
  }

  /** `s.lower()` */
  function Lower(s: string): (r: string)
    ensures |r| == |s|
    ensures forall i :: 0 <= i < |s| ==> r[i] == LowerChar(s[i])
  {
    seq(|s|, i requires 0 <= i < |s| => LowerChar(s[i]))
  }

  lemma LowerSlice(s: string, a: nat, b: nat)
    requires a <= b <= |s|
    ensures Lower(s)[a..b] == Lower(s[a..b])
  {
  }

  lemma LowerConcat(s: string, t: string)
    ensures Lower(s + t) == Lower(s) + Lower(t)
  {
  }

  /** `s.capitalize()`: the first character upper-case, the rest lower-case. */
  function Capitalize(s: string): (r: string)
    ensures |r| == |s|
    ensures |s| > 0 ==> r[0] == UpperChar(s[0]) && r[1..] == Lower(s[1..])
  {
    if s == [] then [] else [UpperChar(s[0])] + Lower(s[1..])
  }

  /** A name as the roll patterns capture and capitalize it: two or more letters, the first upper-case. */
  predicate IsCapitalizedWord(w: string) {
    |w| >= 2 && IsUpper(w[0]) && forall i :: 1 <= i < |w| ==> IsLower(w[i])
  }

  lemma CapitalizeWord(w: string)
    requires |w| >= 2 && forall i :: 0 <= i < |w| ==> IsLetter(w[i])
    ensures IsCapitalizedWord(Capitalize(w))
  {
    var r := Capitalize(w);
    forall i | 1 <= i < |r| ensures IsLower(r[i]) {
      assert r[i] == r[1..][i - 1] == Lower(w[1..])[i - 1];
    }
  }

  /** s[i..i+|p|] == p */
  predicate OccursAt(s: string, p: string, i: nat) {
    i + |p| <= |s| && s[i..i + |p|] == p
  }

  /** Python's `p in s`. */
  predicate Contains(s: string, p: string) {
    exists i: nat | i <= |s| :: OccursAt(s, p, i)
  }

  /** `s.replace(p, '')`: every non-overlapping occurrence, scanned left to right, removed. */
  function RemoveAll(s: string, p: string): (r: string)
    requires p != []
    ensures |r| <= |s|
    ensures !Contains(s, p) ==> r == s
    decreases |s|
  {
    if |s| < |p| then
      assert !Contains(s, p);
      s
    else if s[..|p|] == p then
      assert OccursAt(s, p, 0);
      RemoveAll(s[|p|..], p)
    else
      assert !Contains(s, p) ==> !Contains(s[1..], p) by {
        if Contains(s[1..], p) {
          var i: nat :| i <= |s[1..]| && OccursAt(s[1..], p, i);
          assert s[i + 1..i + 1 + |p|] == s[1..][i..i + |p|];
          assert OccursAt(s, p, i + 1);
        }
      }
      [s[0]] + RemoveAll(s[1..], p)
  }

  /** End of the run of whitespace that starts at i. */
  function SpaceRunEnd(s: string, i: nat): (e: nat)
    requires i <= |s|
    ensures i <= e <= |s|
    ensures forall k :: i <= k < e ==> IsSpace(s[k])
    ensures e < |s| ==> !IsSpace(s[e])
    decreases |s| - i
  {
    if i < |s| && IsSpace(s[i]) then SpaceRunEnd(s, i + 1) else i
  }

  /** A run of whitespace from i to e, followed by a non-space or the end, is the whole run. */
  lemma SpaceRunEndAt(s: string, i: nat, e: nat)
    requires i <= e <= |s| && (forall k :: i <= k < e ==> IsSpace(s[k])) && (e < |s| ==> !IsSpace(s[e]))
    ensures SpaceRunEnd(s, i) == e
  {
  }

  /** End of the run of non-whitespace characters that starts at i. */
  function TokenEnd(s: string, i: nat): (e: nat)
    requires i <= |s|
    ensures i <= e <= |s|
    ensures forall k :: i <= k < e ==> !IsSpace(s[k])
    ensures e < |s| ==> IsSpace(s[e])
    decreases |s| - i
  {
    if i < |s| && !IsSpace(s[i]) then TokenEnd(s, i + 1) else i
  }

  /** End of the run of letters that starts at i. */
  function LetterRunEnd(s: string, i: nat): (e: nat)
    requires i <= |s|
    ensures i <= e <= |s|
    ensures forall k :: i <= k < e ==> IsLetter(s[k])
    ensures e < |s| ==> !IsLetter(s[e])
    decreases |s| - i
  {
    if i < |s| && IsLetter(s[i]) then LetterRunEnd(s, i + 1) else i
  }

  function TrimLeft(s: string): (r: string)
    ensures |r| <= |s| && r == s[|s| - |r|..]
    ensures r == [] || !IsSpace(r[0])
    ensures forall k :: 0 <= k < |s| - |r| ==> IsSpace(s[k])
  {
    if |s| > 0 && IsSpace(s[0]) then TrimLeft(s[1..]) else s
  }

  function TrimRight(s: string): (r: string)
    ensures |r| <= |s| && r == s[..|r|]
    ensures r == [] || !IsSpace(r[|r| - 1])
    ensures forall k :: |r| <= k < |s| ==> IsSpace(s[k])
  {
    if |s| > 0 && IsSpace(s[|s| - 1]) then TrimRight(s[..|s| - 1]) else s
  }

  /** `s.strip()` */
  function Strip(s: string): (r: string)
    ensures r == [] || (!IsSpace(r[0]) && !IsSpace(r[|r| - 1]))
  {
    TrimRight(TrimLeft(s))
  }

  /** What `s.strip()` starts with: the first non-space character of s, if there is one. */
  lemma StripFirst(s: string)
    ensures Strip(s) == [] <==> forall k :: 0 <= k < |s| ==> IsSpace(s[k])
    ensures Strip(s) != [] ==>
              exists k :: 0 <= k < |s| && Strip(s)[0] == s[k] && !IsSpace(s[k]) && forall j :: 0 <= j < k ==> IsSpace(s[j])
  {
    var t := TrimLeft(s);
    var k := |s| - |t|;
    if t != [] {
      assert t[0] == s[k];
      var r := TrimRight(t);
      assert !IsSpace(t[0]);
      assert r[0] == t[0];
    } else {
      assert forall j :: 0 <= j < |s| ==> IsSpace(s[j]);
    }
  }

  /** `s.strip()` leaves alone a string that neither starts nor ends with whitespace. */
  lemma StripIdempotent(s: string)
    ensures Strip(Strip(s)) == Strip(s)
  {
    var t := Strip(s);
    if t != [] {
      assert TrimLeft(t) == t;
      assert TrimRight(t) == t;
    }
  }

  /**
   * `s.split(maxsplit=1)`: None for the empty list, otherwise the first whitespace-delimited
   * token and the rest of the string after the whitespace that follows it ('' when nothing is left).
   */
  function SplitOnce(s: string): (r: SplitResult)
    ensures r.NoParts? <==> forall k :: 0 <= k < |s| ==> IsSpace(s[k])
    ensures r.Parts? ==> r.first != [] && (forall k :: 0 <= k < |r.first| ==> !IsSpace(r.first[k]))
    ensures r.Parts? ==> r.rest == [] || !IsSpace(r.rest[0])
    ensures r.Parts? ==> |r.rest| < |s| && r.rest == s[|s| - |r.rest|..]
    ensures r.Parts? ==>
              exists i, e ::
                && 0 <= i < e <= |s| - |r.rest| && s[i..e] == r.first
                && (forall k :: 0 <= k < i ==> IsSpace(s[k]))
                && (forall k :: e <= k < |s| - |r.rest| ==> IsSpace(s[k]))
                && (e < |s| ==> IsSpace(s[e]))
  {
    var i := SpaceRunEnd(s, 0);
    if i == |s| then NoParts
    else
      var e := TokenEnd(s, i);
      var j := SpaceRunEnd(s, e);
      Parts(s[i..e], s[j..])
  }

  datatype SplitResult = NoParts | Parts(first: string, rest: string)

  /** A string that neither starts nor ends with whitespace is its own `strip()`. */
  lemma StripUnpadded(s: string)
    requires s != [] && !IsSpace(s[0]) && !IsSpace(s[|s| - 1])
    ensures Strip(s) == s
  {
    assert TrimLeft(s) == s;
  }

  /** One trailing space after an unpadded string is stripped away. */
  lemma StripTrailingSpace(s: string)
    requires s != [] && !IsSpace(s[0]) && !IsSpace(s[|s| - 1])
    ensures Strip(s + " ") == s
  {
    var t := s + " ";
    assert TrimLeft(t) == t;
    assert t[..|t| - 1] == s;
    assert TrimRight(s) == s;
  }

  /** A single word splits into itself and nothing. */
  lemma SplitOnceOfWord(w: string)
    requires w != [] && forall k :: 0 <= k < |w| ==> !IsSpace(w[k])
    ensures SplitOnce(w) == Parts(w, "")
  {
    assert SpaceRunEnd(w, 0) == 0;
    assert TokenEnd(w, 0) == |w|;
    assert w[0..|w|] == w;
  }

  /** A word, one space and a rest that does not start with whitespace split into the word and the rest. */
  lemma SplitOnceOfWords(w: string, rest: string)
    requires w != [] && forall k :: 0 <= k < |w| ==> !IsSpace(w[k])
    requires rest == [] || !IsSpace(rest[0])
    ensures SplitOnce(w + " " + rest) == Parts(w, rest)
  {
    var t := w + " " + rest;
    assert t[0] == w[0];
    assert SpaceRunEnd(t, 0) == 0;
    assert TokenEnd(t, 0) == |w| by {
      assert forall k :: 0 <= k < |w| ==> t[k] == w[k];
      assert IsSpace(t[|w|]);
    }
    assert SpaceRunEnd(t, |w|) == |w| + 1 by {
      if rest != [] {
        assert t[|w| + 1] == rest[0];
      }
      SpaceRunEndAt(t, |w|, |w| + 1);
    }
    assert t[0..|w|] == w && t[|w| + 1..] == rest;
  }

  function Digit(d: nat): char
    requires d < 10
  {
    "0123456789"[d]
  }

  function NatToString(n: nat): string
    decreases n
  {
    if n < 10 then [Digit(n)] else NatToString(n / 10) + [Digit(n % 10)]
  }

  /** The decimal digits of n are all characters '0' to '9'. */
  lemma {:induction false} NatToStringIsDigits(n: nat)
    ensures forall k :: 0 <= k < |NatToString(n)| ==> '0' <= NatToString(n)[k] <= '9'
    decreases n
  {
    if n >= 10 {
      NatToStringIsDigits(n / 10);
      assert "0123456789"[n % 10] in "0123456789";
    } else {
      assert "0123456789"[n] in "0123456789";
    }
  }

  /** `s.count(c)` for a single character. */
  function CountChar(s: string, c: char): (n: nat)
    ensures n <= |s|
  {
    if s == [] then 0 else (if s[0] == c then 1 else 0) + CountChar(s[1..], c)
  }

  lemma {:induction false} CountCharConcat(a: string, b: string, c: char)
    ensures CountChar(a + b, c) == CountChar(a, c) + CountChar(b, c)
  {
    if a != [] {
      assert (a + b)[1..] == a[1..] + b;
      CountCharConcat(a[1..], b, c);
    } else {
      assert a + b == b;
    }
  }

  lemma {:induction false} CountCharAbsent(s: string, c: char)
    requires forall k :: 0 <= k < |s| ==> s[k] != c
    ensures CountChar(s, c) == 0
  {
    if s != [] {
      CountCharAbsent(s[1..], c);
    }
  }

  /** `str(i)` */
  function IntToString(i: int): string {
    if i < 0 then "-" + NatToString(-i) else NatToString(i)
  }
}
