/**
 * The order in which `Array.prototype.sort()` without a comparator puts
 * strings: character by character, a proper prefix before its extensions.
 */
module Lexicographic {
  import opened Seqs

  predicate StrLe(a: string, b: string)
    decreases |a|
  {
    a == [] || (b != [] && (a[0] < b[0] || (a[0] == b[0] && StrLe(a[1..], b[1..]))))
  }

  predicate StrLt(a: string, b: string) {
    StrLe(a, b) && a != b
  }

  /** Any two strings are comparable. */
  lemma {:induction false} StrLeTotal(a: string, b: string)
    ensures StrLe(a, b) || StrLe(b, a)
    decreases |a|
  {
    if a != [] && b != [] && a[0] == b[0] {
      StrLeTotal(a[1..], b[1..]);
    }
  }

  /** Two strings each at most the other are equal. */
  lemma {:induction false} StrLeAntisymmetric(a: string, b: string)
    requires StrLe(a, b) && StrLe(b, a)
    ensures a == b
    decreases |a|
  {
    if a != [] {
      StrLeAntisymmetric(a[1..], b[1..]);
      assert a == [a[0]] + a[1..] && b == [b[0]] + b[1..];
    }
  }

  predicate Ascending(s: seq<string>) {
    forall i, j :: 0 <= i < j < |s| ==> StrLe(s[i], s[j])
  }

  predicate StrictlyAscending(s: seq<string>) {
    forall i, j :: 0 <= i < j < |s| ==> StrLt(s[i], s[j])
  }

  function InsertStr(x: string, s: seq<string>): seq<string> {
    if s == [] || StrLe(x, s[0]) then [x] + s else [s[0]] + InsertStr(x, s[1..])
  }

  /** `Array.prototype.sort()` on strings (an insertion sort, hence stable). */
  function SortStrings(s: seq<string>): seq<string> {
    if s == [] then [] else InsertStr(s[0], SortStrings(s[1..]))
  }

  lemma {:induction false} InsertStrElems(x: string, s: seq<string>)
    ensures ElemSet(InsertStr(x, s)) == {x} + ElemSet(s)
    ensures |InsertStr(x, s)| == |s| + 1
  {
    if s != [] && !StrLe(x, s[0]) {
      InsertStrElems(x, s[1..]);
      assert s == [s[0]] + s[1..];
      assert ElemSet(s) == {s[0]} + ElemSet(s[1..]);
      assert ElemSet(InsertStr(x, s)) == {s[0]} + ElemSet(InsertStr(x, s[1..]));
    }
  }

  lemma {:induction false} InsertStrAscending(x: string, s: seq<string>)
    requires Ascending(s)
    ensures Ascending(InsertStr(x, s))
  {
    var r := InsertStr(x, s);
    if s == [] || StrLe(x, s[0]) {
      forall j | 0 < j < |r| ensures StrLe(x, r[j]) {
        assert r[j] == s[j - 1];
        if j > 1 {
          assert StrLe(s[0], s[j - 1]);
          StrLeTransitive(x, s[0], s[j - 1]);
        }
      }
      forall i, j | 0 < i < j < |r| ensures StrLe(r[i], r[j]) {
        assert r[i] == s[i - 1] && r[j] == s[j - 1];
      }
    } else {
      var t := InsertStr(x, s[1..]);
      InsertStrAscending(x, s[1..]);
      InsertStrElems(x, s[1..]);
      StrLeTotal(x, s[0]);
      assert r == [s[0]] + t;
      forall j | 0 < j < |r| ensures StrLe(s[0], r[j]) {
        assert r[j] == t[j - 1];
        assert r[j] in ElemSet(t);
        if r[j] != x {
          assert r[j] in ElemSet(s[1..]);
          var k :| 0 <= k < |s[1..]| && s[1..][k] == r[j];
          assert s[k + 1] == r[j];
        }
      }
      forall i, j | 0 < i < j < |r| ensures StrLe(r[i], r[j]) {
        assert r[i] == t[i - 1] && r[j] == t[j - 1];
      }
    }
  }

  lemma {:induction false} StrLeTransitive(a: string, b: string, c: string)
    requires StrLe(a, b) && StrLe(b, c)
    ensures StrLe(a, c)
    decreases |a|
  {
    if a != [] && a[0] == b[0] && b[0] == c[0] {
      StrLeTransitive(a[1..], b[1..], c[1..]);
    }
  }

  /**
   * Sorting yields an ascending permutation; a duplicate-free input yields a
   * strictly ascending result.
   */
  lemma {:induction false} SortStringsFacts(s: seq<string>)
    ensures Ascending(SortStrings(s))
    ensures ElemSet(SortStrings(s)) == ElemSet(s) && |SortStrings(s)| == |s|
    ensures Distinct(s) ==> StrictlyAscending(SortStrings(s))
  {
    var r := SortStrings(s);
    if s != [] {
      SortStringsFacts(s[1..]);
      InsertStrAscending(s[0], SortStrings(s[1..]));
      InsertStrElems(s[0], SortStrings(s[1..]));
      assert s == [s[0]] + s[1..];
      assert ElemSet(s) == {s[0]} + ElemSet(s[1..]);
    }
    DistinctIffCard(s);
    DistinctIffCard(r);
  }
}
