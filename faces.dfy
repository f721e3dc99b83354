/** Ten-sided dice faces and the counts both roll classifiers take over them. */
module Faces {

  /** One face of a d10, as `random.randint(1, 10)` draws it. */
  type Face = x: int | 1 <= x <= 10 witness 1

  /** `sum(1 for d in s if d >= k)` */
  function CountAtLeast(s: seq<Face>, k: int): (n: nat)
    ensures n <= |s|
  {
    if s == [] then 0 else (if s[0] >= k then 1 else 0) + CountAtLeast(s[1..], k)
  }

  /** `sum(1 for d in s if d == k)` */
  function CountEqual(s: seq<Face>, k: int): (n: nat)
    ensures n <= |s|
    ensures n > 0 <==> exists i :: 0 <= i < |s| && s[i] == k
  {
    if s == [] then 0
    else
      assert forall i :: 1 <= i < |s| ==> s[i] == s[1..][i - 1];
      (if s[0] == k then 1 else 0) + CountEqual(s[1..], k)
  }

  /** `all(d == k for d in s)` */
  function AllEqual(s: seq<Face>, k: int): (b: bool)
    ensures b <==> forall i :: 0 <= i < |s| ==> s[i] == k
  {
    if s == [] then true
    else
      assert forall i :: 1 <= i < |s| ==> s[i] == s[1..][i - 1];
      s[0] == k && AllEqual(s[1..], k)
  }

  /** Counting over two lists one after the other is counting over their concatenation. */
  lemma {:induction false} CountAtLeastConcat(a: seq<Face>, b: seq<Face>, k: int)
    ensures CountAtLeast(a + b, k) == CountAtLeast(a, k) + CountAtLeast(b, k)
  {
    if a != [] {
      assert (a + b)[1..] == a[1..] + b;
      CountAtLeastConcat(a[1..], b, k);
    } else {
      assert a + b == b;
    }
  }

  lemma {:induction false} CountEqualConcat(a: seq<Face>, b: seq<Face>, k: int)
    ensures CountEqual(a + b, k) == CountEqual(a, k) + CountEqual(b, k)
  {
    if a != [] {
      assert (a + b)[1..] == a[1..] + b;
      CountEqualConcat(a[1..], b, k);
    } else {
      assert a + b == b;
    }
  }

  /** Every ten is also a success (a face of at least 6). */
  lemma {:induction false} TensAreSuccesses(s: seq<Face>)
    ensures CountEqual(s, 10) <= CountAtLeast(s, 6)
  {
    if s != [] {
      TensAreSuccesses(s[1..]);
    }
  }

  /** A list of ones holds no success. */
  lemma {:induction false} OnesAreNoSuccesses(s: seq<Face>)
    requires forall i :: 0 <= i < |s| ==> s[i] == 1
    ensures CountAtLeast(s, 6) == 0 && CountEqual(s, 10) == 0
  {
    if s != [] {
      assert s[0] == 1;
      OnesAreNoSuccesses(s[1..]);
    }
  }
}
