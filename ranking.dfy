/**
 * Ranking by amount: the stable sort that `Array.prototype.sort` performs
 * with the comparator `([, a], [, b]) => b - a`, and slicing off the top.
 */
module Ranking {
  import opened Seqs
  import opened Assoc

  /** Amounts never increase from left to right. */
  predicate NonIncreasing<T>(s: seq<(T, int)>) {
    forall i, j :: 0 <= i < j < |s| ==> s[i].1 >= s[j].1
  }

  /** Puts `x` in front of the first entry whose amount does not exceed its own. */
  function Insert<T>(x: (T, int), s: seq<(T, int)>): seq<(T, int)> {
    if s == [] || s[0].1 <= x.1 then [x] + s else [s[0]] + Insert(x, s[1..])
  }

  /**
   * Sorts by amount, largest first. An entry is inserted before every later
   * entry of equal amount, so ties keep their original order.
   */
  function SortDesc<T>(s: seq<(T, int)>): seq<(T, int)> {
    if s == [] then [] else Insert(s[0], SortDesc(s[1..]))
  }

  lemma {:induction false} InsertPerm<T>(x: (T, int), s: seq<(T, int)>)
    ensures multiset(Insert(x, s)) == multiset{x} + multiset(s)
  {
    if s != [] && s[0].1 > x.1 {
      InsertPerm(x, s[1..]);
      assert s == [s[0]] + s[1..];
    }
  }

  lemma {:induction false} InsertSorted<T>(x: (T, int), s: seq<(T, int)>)
    requires NonIncreasing(s)
    ensures NonIncreasing(Insert(x, s))
  {
    if s != [] && s[0].1 > x.1 {
      var r, t := Insert(x, s), Insert(x, s[1..]);
      InsertSorted(x, s[1..]);
      InsertPerm(x, s[1..]);
      HeadDominates(x, s, t);
      assert r == [s[0]] + t;
      forall i, j | 0 <= i < j < |r| ensures r[i].1 >= r[j].1 {
        assert r[j] == t[j - 1];
        if i > 0 {
          assert r[i] == t[i - 1];
        }
      }
    }
  }

  /** The head of a ranking outranks `x` inserted into its tail. */
  lemma HeadDominates<T>(x: (T, int), s: seq<(T, int)>, t: seq<(T, int)>)
    requires NonIncreasing(s) && s != [] && s[0].1 > x.1
    requires multiset(t) == multiset{x} + multiset(s[1..])
    ensures forall j :: 0 <= j < |t| ==> s[0].1 >= t[j].1
  {
    forall j | 0 <= j < |t| ensures s[0].1 >= t[j].1 {
      assert t[j] in multiset(t);
      if t[j] != x {
        assert t[j] in multiset(s[1..]);
        var k :| 0 <= k < |s[1..]| && s[1..][k] == t[j];
        assert s[k + 1] == t[j];
      }
    }
  }

  lemma {:induction false} InsertAmountSum<T>(x: (T, int), s: seq<(T, int)>)
    ensures AmountSum(Insert(x, s)) == x.1 + AmountSum(s)
  {
    if s != [] && s[0].1 > x.1 {
      InsertAmountSum(x, s[1..]);
    }
  }

  /** Inserting adds exactly the inserted key to the key set. */
  lemma {:induction false} InsertKeySet<T>(x: (T, int), s: seq<(T, int)>)
    ensures KeySet(Insert(x, s)) == {x.0} + KeySet(s)
    ensures |Insert(x, s)| == |s| + 1
  {
    var r := Insert(x, s);
    if s == [] || s[0].1 <= x.1 {
      assert Keys(r) == [x.0] + Keys(s);
    } else {
      var t := Insert(x, s[1..]);
      InsertKeySet(x, s[1..]);
      assert Keys(r) == [s[0].0] + Keys(t);
      assert Keys(s) == [s[0].0] + Keys(s[1..]);
      assert KeySet(r) == {s[0].0} + KeySet(t);
      assert KeySet(s) == {s[0].0} + KeySet(s[1..]);
    }
  }

  /** The ranking is sorted largest first and is a permutation of its input. */
  lemma {:induction false} SortDescOrder<T>(s: seq<(T, int)>)
    ensures NonIncreasing(SortDesc(s))
    ensures multiset(SortDesc(s)) == multiset(s)
    ensures AmountSum(SortDesc(s)) == AmountSum(s)
  {
    if s != [] {
      SortDescOrder(s[1..]);
      InsertSorted(s[0], SortDesc(s[1..]));
      InsertPerm(s[0], SortDesc(s[1..]));
      InsertAmountSum(s[0], SortDesc(s[1..]));
      assert s == [s[0]] + s[1..];
    }
  }

  /** The ranking has the same length and keys as its input, and distinct keys stay distinct. */
  lemma {:induction false} SortDescKeys<T>(s: seq<(T, int)>)
    ensures |SortDesc(s)| == |s|
    ensures KeySet(SortDesc(s)) == KeySet(s)
    ensures DistinctKeys(s) ==> DistinctKeys(SortDesc(s))
  {
    if s != [] {
      SortDescKeys(s[1..]);
      InsertKeySet(s[0], SortDesc(s[1..]));
      assert Keys(s) == [s[0].0] + Keys(s[1..]);
      assert KeySet(s) == {s[0].0} + KeySet(s[1..]);
      DistinctIffCard(Keys(s));
      DistinctIffCard(Keys(SortDesc(s)));
    }
  }

  /** Sorting neither adds nor loses an entry. */
  lemma SortDescElems<T>(s: seq<(T, int)>)
    ensures |SortDesc(s)| == |s|
    ensures forall i :: 0 <= i < |s| ==> SortDesc(s)[i] in s
    ensures forall i :: 0 <= i < |s| ==> s[i] in SortDesc(s)
  {
    var r := SortDesc(s);
    SortDescOrder(s);
    assert |r| == |multiset(r)| == |multiset(s)| == |s|;
    forall i | 0 <= i < |s| ensures r[i] in s && s[i] in r {
      assert r[i] in multiset(r);
      assert s[i] in multiset(s);
    }
  }
}
