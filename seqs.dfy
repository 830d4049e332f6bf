/** Sequence facts shared by the aggregators: element sets and distinctness. */
module Seqs {

  function ElemSet<T>(s: seq<T>): set<T> {
    set x | x in s
  }

  /** No value occurs twice: what a JavaScript `Set` or `Map` key list guarantees. */
  predicate Distinct<T(==)>(s: seq<T>) {
    forall i, j :: 0 <= i < j < |s| ==> s[i] != s[j]
  }

  /** A sequence is duplicate-free exactly when it has as many elements as its set. */
  lemma {:induction false} DistinctIffCard<T>(s: seq<T>)
    ensures |ElemSet(s)| <= |s|
    ensures Distinct(s) <==> |ElemSet(s)| == |s|
  {
    if s != [] {
      var t := s[1..];
      DistinctIffCard(t);
      DistinctCons(s, t);
      assert ElemSet(s) == {s[0]} + ElemSet(t) by {
        assert s == [s[0]] + t;
      }
      if s[0] in t {
        assert ElemSet(s) == ElemSet(t);
      } else {
        assert |ElemSet(s)| == 1 + |ElemSet(t)|;
      }
    }
  }

  /** A non-empty sequence is duplicate-free exactly when its head is not in its tail and its tail is duplicate-free. */
  lemma DistinctCons<T>(s: seq<T>, t: seq<T>)
    requires s != [] && t == s[1..]
    ensures Distinct(s) <==> s[0] !in t && Distinct(t)
  {
    if s[0] in t {
      var k :| 0 <= k < |t| && t[k] == s[0];
      assert s[0] == s[k + 1];
    } else if Distinct(t) {
      forall i, j | 0 <= i < j < |s| ensures s[i] != s[j] {
        assert s[j] == t[j - 1];
        if i > 0 {
          assert s[i] == t[i - 1];
        }
      }
    } else {
      var i, j :| 0 <= i < j < |t| && t[i] == t[j];
      assert s[i + 1] == s[j + 1];
    }
  }

  /** The values of `s` in order of first occurrence: the iteration order of a
      JavaScript `Set` filled from `s`. */
  function Dedup<T(==)>(s: seq<T>): seq<T>
    decreases |s|
  {
    if s == [] then []
    else
      var d := Dedup(s[..|s| - 1]);
      if s[|s| - 1] in d then d else d + [s[|s| - 1]]
  }

  lemma {:induction false} DedupFacts<T>(s: seq<T>)
    ensures ElemSet(Dedup(s)) == ElemSet(s)
    ensures Distinct(Dedup(s))
    decreases |s|
  {
    if s != [] {
      var init := s[..|s| - 1];
      DedupFacts(init);
      assert s == init + [s[|s| - 1]];
      assert ElemSet(s) == ElemSet(init) + {s[|s| - 1]};
    }
  }
}
