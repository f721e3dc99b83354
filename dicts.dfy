/**
 * Python dict assignment in order: `d[k] = v` for each pair of a list, one after another.
 * Later assignments to the same key overwrite earlier ones, as in Python.
 */
module Dicts {

  /** The keys a list of assignments names. */
  function KeysOf<V>(ws: seq<(string, V)>): (keys: set<string>)
    ensures forall k :: k in keys <==> exists i :: 0 <= i < |ws| && ws[i].0 == k
    decreases |ws|
  {
    if ws == [] then {}
    else
      var front := ws[..|ws| - 1];
      assert forall i :: 0 <= i < |front| ==> front[i] == ws[i];
      KeysOf(front) + {ws[|ws| - 1].0}
  }

  /** The keys of two lists of assignments, one after the other. */
  lemma KeysOfConcat<V>(a: seq<(string, V)>, b: seq<(string, V)>)
    ensures KeysOf(a + b) == KeysOf(a) + KeysOf(b)
  {
    forall k ensures k in KeysOf(a + b) <==> k in KeysOf(a) + KeysOf(b) {
      if k in KeysOf(a + b) {
        var i :| 0 <= i < |a + b| && (a + b)[i].0 == k;
        if i < |a| {
          assert a[i].0 == k;
        } else {
          assert b[i - |a|].0 == k;
        }
      }
      if k in KeysOf(a) {
        var i :| 0 <= i < |a| && a[i].0 == k;
        assert (a + b)[i].0 == k;
      }
      if k in KeysOf(b) {
        var i :| 0 <= i < |b| && b[i].0 == k;
        assert (a + b)[|a| + i].0 == k;
      }
    }
  }

  /** `m[k] = v` for every (k, v) of `ws`, one after another. */
  function ApplyWrites<V>(m: map<string, V>, ws: seq<(string, V)>): map<string, V>
    decreases |ws|
  {
    if ws == [] then m
    else ApplyWrites(m, ws[..|ws| - 1])[ws[|ws| - 1].0 := ws[|ws| - 1].1]
  }

  /** The assignments add exactly the keys they name. */
  lemma {:induction false} ApplyWritesKeys<V>(m: map<string, V>, ws: seq<(string, V)>)
    ensures ApplyWrites(m, ws).Keys == m.Keys + KeysOf(ws)
    decreases |ws|
  {
    if ws != [] {
      ApplyWritesKeys(m, ws[..|ws| - 1]);
    }
  }

  /** One more assignment on top of the others. */
  lemma ApplyOneMore<V>(m: map<string, V>, ws: seq<(string, V)>, w: (string, V))
    ensures ApplyWrites(m, ws + [w]) == ApplyWrites(m, ws)[w.0 := w.1]
  {
    assert (ws + [w])[..|ws|] == ws;
  }

  /** On a collision the later assignment wins: a key holds the value of its last write. */
  lemma {:induction false} LastWriteWins<V>(m: map<string, V>, ws: seq<(string, V)>, i: nat)
    requires i < |ws| && forall j :: i < j < |ws| ==> ws[j].0 != ws[i].0
    ensures ws[i].0 in ApplyWrites(m, ws) && ApplyWrites(m, ws)[ws[i].0] == ws[i].1
    decreases |ws|
  {
    if i < |ws| - 1 {
      LastWriteWins(m, ws[..|ws| - 1], i);
    }
  }

  /** A key no assignment names keeps its entry, or its absence. */
  lemma {:induction false} ApplyUntouched<V>(m: map<string, V>, ws: seq<(string, V)>, k: string)
    requires forall i :: 0 <= i < |ws| ==> ws[i].0 != k
    ensures (k in ApplyWrites(m, ws) <==> k in m) && (k in m ==> ApplyWrites(m, ws)[k] == m[k])
    decreases |ws|
  {
    if ws != [] {
      ApplyUntouched(m, ws[..|ws| - 1], k);
    }
  }
}
