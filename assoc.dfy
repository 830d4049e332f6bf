/**
 * Insertion-ordered maps from keys to amounts, the model of a JavaScript
 * `Map` whose entries are iterated in the order their keys were first set.
 */
module Assoc {
  import opened Wrappers
  import opened Seqs

  function Keys<K, V>(m: seq<(K, V)>): seq<K> {
    seq(|m|, i requires 0 <= i < |m| => m[i].0)
  }

  function KeySet<K, V>(m: seq<(K, V)>): set<K> {
    ElemSet(Keys(m))
  }

  predicate DistinctKeys<K(==), V>(m: seq<(K, V)>) {
    Distinct(Keys(m))
  }

  /** `Map.prototype.get`: the value of the first entry with key `k`. */
  function Lookup<K(==), V>(m: seq<(K, V)>, k: K): (r: Option<V>)
    ensures r.Some? <==> k in Keys(m)
  {
    if m == [] then None
    else if m[0].0 == k then
      assert Keys(m)[0] == k;
      Some(m[0].1)
    else
      assert Keys(m) == [m[0].0] + Keys(m[1..]);
      Lookup(m[1..], k)
  }

  /** Sum of the amounts, as `entries.reduce((s, [, v]) => s + v, 0)`. */
  function AmountSum<K>(m: seq<(K, int)>): int {
    if m == [] then 0 else m[0].1 + AmountSum(m[1..])
  }

  lemma {:induction false} AmountSumAppend<K>(a: seq<(K, int)>, b: seq<(K, int)>)
    ensures AmountSum(a + b) == AmountSum(a) + AmountSum(b)
  {
    if a != [] {
      AmountSumAppend(a[1..], b);
      assert (a + b)[0] == a[0];
      assert (a + b)[1..] == a[1..] + b;
    } else {
      assert a + b == b;
    }
  }

  /**
   * `m.set(k, (m.get(k) || 0) + v)`: adds `v` to the entry of `k`, or appends
   * a new entry `(k, v)` at the end when `k` has none.
   */
  function Accumulate<K(==)>(m: seq<(K, int)>, k: K, v: int): seq<(K, int)> {
    if m == [] then [(k, v)]
    else if m[0].0 == k then [(k, m[0].1 + v)] + m[1..]
    else [m[0]] + Accumulate(m[1..], k, v)
  }

  /** A new key is appended at the end; an existing key keeps its place. */
  lemma {:induction false} AccumulateKeys<K>(m: seq<(K, int)>, k: K, v: int)
    ensures Keys(Accumulate(m, k, v)) == if k in Keys(m) then Keys(m) else Keys(m) + [k]
  {
    if m != [] {
      var r := Accumulate(m, k, v);
      assert Keys(m) == [m[0].0] + Keys(m[1..]);
      assert Keys(r) == [r[0].0] + Keys(r[1..]);
      if m[0].0 != k {
        AccumulateKeys(m[1..], k, v);
      } else {
        assert Keys(r[1..]) == Keys(m[1..]);
      }
    }
  }

  /** Accumulating `v` raises the total by `v`. */
  lemma {:induction false} AccumulateAmountSum<K>(m: seq<(K, int)>, k: K, v: int)
    ensures AmountSum(Accumulate(m, k, v)) == AmountSum(m) + v
  {
    if m != [] && m[0].0 != k {
      AccumulateAmountSum(m[1..], k, v);
    }
  }

  /** Accumulating into `k` changes the value of `k` and of no other key. */
  lemma AccumulateLookup<K>(m: seq<(K, int)>, k: K, v: int, k': K)
    ensures Lookup(Accumulate(m, k, v), k') ==
            if k' == k then Some(Lookup(m, k).GetOr(0) + v) else Lookup(m, k')
  {
    if k' == k {
      AccumulateLookupSame(m, k, v);
    } else {
      AccumulateLookupOther(m, k, v, k');
    }
  }

  lemma {:induction false} AccumulateLookupSame<K>(m: seq<(K, int)>, k: K, v: int)
    ensures Lookup(Accumulate(m, k, v), k) == Some(Lookup(m, k).GetOr(0) + v)
  {
    var r := Accumulate(m, k, v);
    if m == [] {
      assert r == [(k, v)];
    } else if m[0].0 == k {
      assert r[0] == (k, m[0].1 + v);
    } else {
      AccumulateLookupSame(m[1..], k, v);
      assert r[0] == m[0] && r[1..] == Accumulate(m[1..], k, v);
      assert Lookup(r, k) == Lookup(r[1..], k);
    }
  }

  lemma {:induction false} AccumulateLookupOther<K>(m: seq<(K, int)>, k: K, v: int, k': K)
    requires k' != k
    ensures Lookup(Accumulate(m, k, v), k') == Lookup(m, k')
  {
    if m != [] {
      var r := Accumulate(m, k, v);
      if m[0].0 == k {
        assert r[1..] == m[1..];
      } else {
        AccumulateLookupOther(m[1..], k, v, k');
        assert r[0] == m[0] && r[1..] == Accumulate(m[1..], k, v);
      }
    }
  }

  /** The amounts paired with `k` in `p`, summed. */
  function SumFor<K(==)>(p: seq<(K, int)>, k: K): int
    decreases |p|
  {
    if p == [] then 0
    else SumFor(p[..|p| - 1], k) + (if p[|p| - 1].0 == k then p[|p| - 1].1 else 0)
  }

  lemma {:induction false} SumForAbsent<K>(p: seq<(K, int)>, k: K)
    requires k !in Keys(p)
    ensures SumFor(p, k) == 0
    decreases |p|
  {
    if p != [] {
      assert Keys(p[..|p| - 1]) == Keys(p)[..|p| - 1];
      assert Keys(p)[|p| - 1] == p[|p| - 1].0;
      SumForAbsent(p[..|p| - 1], k);
    }
  }

  /** Folds `Accumulate` over `p` from the first pair to the last. */
  function GroupSum<K(==)>(p: seq<(K, int)>): seq<(K, int)>
    decreases |p|
  {
    if p == [] then [] else Accumulate(GroupSum(p[..|p| - 1]), p[|p| - 1].0, p[|p| - 1].1)
  }

  /** Grouping keeps every key once, in first-encounter order. */
  lemma {:induction false} GroupSumKeys<K>(p: seq<(K, int)>)
    ensures Keys(GroupSum(p)) == Dedup(Keys(p))
    ensures DistinctKeys(GroupSum(p)) && KeySet(GroupSum(p)) == KeySet(p)
    decreases |p|
  {
    if p == [] {
      assert Keys(p) == [];
    } else {
      var init, x := p[..|p| - 1], p[|p| - 1];
      GroupSumKeys(init);
      AccumulateKeys(GroupSum(init), x.0, x.1);
      assert Keys(p)[..|p| - 1] == Keys(init);
      DedupFacts(Keys(p));
    }
  }

  /** Grouping keeps the grand total. */
  lemma {:induction false} GroupSumAmountSum<K>(p: seq<(K, int)>)
    ensures AmountSum(GroupSum(p)) == AmountSum(p)
    decreases |p|
  {
    if p != [] {
      var init, x := p[..|p| - 1], p[|p| - 1];
      GroupSumAmountSum(init);
      AccumulateAmountSum(GroupSum(init), x.0, x.1);
      assert p == init + [x];
      AmountSumAppend(init, [x]);
    }
  }

  /** Each key of the grouping carries the sum of that key's amounts. */
  lemma {:induction false} GroupSumLookup<K>(p: seq<(K, int)>, k: K)
    ensures Lookup(GroupSum(p), k) == if k in KeySet(p) then Some(SumFor(p, k)) else None
    decreases |p|
  {
    if p == [] {
      assert Keys(p) == [];
    } else {
      var init, x := p[..|p| - 1], p[|p| - 1];
      GroupSumLookup(init, k);
      var g := GroupSum(init);
      assert k in KeySet(p) <==> k in KeySet(init) || k == x.0 by {
        assert Keys(p) == Keys(init) + [x.0];
      }
      assert k !in KeySet(init) ==> SumFor(init, k) == 0 by {
        if k !in KeySet(init) {
          assert k !in Keys(init);
          SumForAbsent(init, k);
        }
      }
      assert GroupSum(p) == Accumulate(g, x.0, x.1);
      AccumulateLookup(g, x.0, x.1, k);
      assert SumFor(p, k) == SumFor(init, k) + (if x.0 == k then x.1 else 0);
    }
  }

  /** Every entry of the grouped sums carries the sum of its key's amounts. */
  lemma GroupSumEntry<K>(p: seq<(K, int)>, e: (K, int))
    requires e in GroupSum(p)
    ensures e.1 == SumFor(p, e.0)
  {
    var g := GroupSum(p);
    GroupSumKeys(p);
    var j :| 0 <= j < |g| && g[j] == e;
    LookupDistinct(g, j);
    GroupSumLookup(p, e.0);
    assert Keys(g)[j] == e.0;
  }

  /** In a map with distinct keys, looking up an entry's key finds that entry. */
  lemma {:induction false} LookupDistinct<K, V>(m: seq<(K, V)>, j: nat)
    requires DistinctKeys(m) && j < |m|
    ensures Lookup(m, m[j].0) == Some(m[j].1)
  {
    if j > 0 {
      assert Keys(m)[0] != Keys(m)[j];
      assert DistinctKeys(m[1..]) by {
        forall a, b | 0 <= a < b < |m[1..]| ensures Keys(m[1..])[a] != Keys(m[1..])[b] {
          assert Keys(m)[a + 1] != Keys(m)[b + 1];
        }
      }
      LookupDistinct(m[1..], j - 1);
    }
  }

  /** Appending an entry for a new key leaves every other lookup unchanged. */
  lemma {:induction false} LookupAppend<K, V>(m: seq<(K, V)>, k: K, v: V, k': K)
    ensures Lookup(m + [(k, v)], k') == if k' in Keys(m) then Lookup(m, k') else if k' == k then Some(v) else None
  {
    if m != [] {
      assert (m + [(k, v)])[1..] == m[1..] + [(k, v)];
      assert Keys(m) == [m[0].0] + Keys(m[1..]);
      LookupAppend(m[1..], k, v, k');
    }
  }

  /** `Lookup` returns the value of the first entry whose key is `k`. */
  lemma {:induction false} LookupFirst<K, V>(m: seq<(K, V)>, k: K, i: nat)
    requires i < |m| && m[i].0 == k
    requires forall j :: 0 <= j < i ==> m[j].0 != k
    ensures Lookup(m, k) == Some(m[i].1)
  {
    if i > 0 {
      LookupFirst(m[1..], k, i - 1);
    }
  }

  /** A key that is present is found together with an entry it heads. */
  lemma {:induction false} LookupFound<K, V>(m: seq<(K, V)>, k: K)
    requires k in Keys(m)
    ensures (k, Lookup(m, k).value) in m
  {
    assert Keys(m) == [m[0].0] + Keys(m[1..]);
    if m[0].0 != k {
      LookupFound(m[1..], k);
    }
  }
}
