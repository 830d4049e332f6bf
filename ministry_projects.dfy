/**
 * `generateMinistryProjectsData` (scripts/preprocess-data.ts): per ministry,
 * the year's projects keyed by project name with duplicate rows summed, the
 * ten largest listed, the rest summed into `othersTotal`.
 */
module MinistryProjects {
  import opened Wrappers
  import opened Seqs
  import opened Assoc
  import opened Ranking
  import opened RsRecords
  import opened Preprocess

  /** How many projects a ministry lists explicitly. */
  const TopCount := 10

  /** The nested `Map<府省庁, Map<事業名, amount>>`, both levels insertion-ordered. */
  type ProjectTable = seq<(string, seq<(string, int)>)>

  datatype ProjectAmount = ProjectAmount(name: string, amount: int)

  datatype MinistryRollup = MinistryRollup(top10: seq<ProjectAmount>, othersTotal: int, totalProjects: nat)

  /** `(府省庁, 事業名, amount)` for every row naming both, in row order. */
  function ProjectAmounts(rows: seq<BudgetRow>, year: Year): seq<(string, string, int)>
    decreases |rows|
  {
    if rows == [] then []
    else
      var init, r := ProjectAmounts(rows[..|rows| - 1], year), rows[|rows| - 1];
      if r.ministry == "" || r.eventName == "" then init
      else init + [(r.ministry, r.eventName, BudgetAmount(r, year))]
  }

  /** Adds `amount` to project `name` of `ministry`, creating either entry on first sight. */
  function AddProject(t: ProjectTable, ministry: string, name: string, amount: int): ProjectTable {
    if t == [] then [(ministry, Accumulate([], name, amount))]
    else if t[0].0 == ministry then [(ministry, Accumulate(t[0].1, name, amount))] + t[1..]
    else [t[0]] + AddProject(t[1..], ministry, name, amount)
  }

  function ProjectTotals(triples: seq<(string, string, int)>): ProjectTable
    decreases |triples|
  {
    if triples == [] then []
    else
      var x := triples[|triples| - 1];
      AddProject(ProjectTotals(triples[..|triples| - 1]), x.0, x.1, x.2)
  }

  /** The `(事業名, amount)` pairs of one ministry, in row order. */
  function PairsFor(triples: seq<(string, string, int)>, ministry: string): seq<(string, int)>
    decreases |triples|
  {
    if triples == [] then []
    else
      var init, x := PairsFor(triples[..|triples| - 1], ministry), triples[|triples| - 1];
      if x.0 == ministry then init + [(x.1, x.2)] else init
  }

  function Min(a: int, b: int): int {
    if a <= b then a else b
  }

  function Items(s: seq<(string, int)>): seq<ProjectAmount> {
    seq(|s|, i requires 0 <= i < |s| => ProjectAmount(s[i].0, s[i].1))
  }

  /** One ministry's entry: the top ten by amount, the rest summed, and the count. */
  function Rollup(projects: seq<(string, int)>): MinistryRollup {
    var sorted := SortDesc(projects);
    var k := Min(TopCount, |sorted|);
    MinistryRollup(Items(sorted[..k]), AmountSum(sorted[k..]), |sorted|)
  }

  /** The object `generateMinistryProjectsData` returns, keys in insertion order. */
  function MinistryProjectsData(rows: seq<BudgetRow>, year: Year): seq<(string, MinistryRollup)> {
    var t := ProjectTotals(ProjectAmounts(YearRows(rows, year), year));
    seq(|t|, i requires 0 <= i < |t| => (t[i].0, Rollup(t[i].1)))
  }

  /** The script's first loop: sum each row's budget into its ministry's project map. */
  method CollectProjects(current: seq<BudgetRow>, year: Year) returns (ministryProjects: ProjectTable)
    ensures ministryProjects == ProjectTotals(ProjectAmounts(current, year))
  {
    ministryProjects := [];
    var i := 0;
    while i < |current|
      invariant 0 <= i <= |current|
      invariant ministryProjects == ProjectTotals(ProjectAmounts(current[..i], year))
    {
      var budget := current[i];
      ghost var before := ProjectAmounts(current[..i], year);
      assert current[..i + 1][..i] == current[..i];
      if budget.ministry != "" && budget.eventName != "" {
        var budgetAmount := BudgetAmount(budget, year);
        assert ProjectAmounts(current[..i + 1], year) == before + [(budget.ministry, budget.eventName, budgetAmount)];
        ministryProjects := AddProject(ministryProjects, budget.ministry, budget.eventName, budgetAmount);
      } else {
        assert ProjectAmounts(current[..i + 1], year) == before;
      }
      i := i + 1;
    }
    assert current[..i] == current;
  }

  /** The script's second loop: rank each ministry's projects and split off the top ten. */
  method RollupAll(ministryProjects: ProjectTable) returns (result: seq<(string, MinistryRollup)>)
    ensures result == seq(|ministryProjects|, k requires 0 <= k < |ministryProjects| =>
                            (ministryProjects[k].0, Rollup(ministryProjects[k].1)))
  {
    result := [];
    var j := 0;
    while j < |ministryProjects|
      invariant 0 <= j <= |ministryProjects| && |result| == j
      invariant forall k :: 0 <= k < j ==> result[k] == (ministryProjects[k].0, Rollup(ministryProjects[k].1))
    {
      var ministry, projects := ministryProjects[j].0, ministryProjects[j].1;
      var sortedProjects := SortDesc(projects);
      var top10 := sortedProjects[..Min(TopCount, |sortedProjects|)];
      var others := sortedProjects[Min(TopCount, |sortedProjects|)..];
      var othersTotal := AmountSum(others);
      result := result + [(ministry, MinistryRollup(Items(top10), othersTotal, |sortedProjects|))];
      j := j + 1;
    }
  }

  /** `generateMinistryProjectsData`: filter the year's rows, group them, roll each ministry up. */
  method GenerateMinistryProjectsData(budgetData: seq<BudgetRow>, year: Year)
    returns (result: seq<(string, MinistryRollup)>)
    ensures result == MinistryProjectsData(budgetData, year)
  {
    var current := YearRows(budgetData, year);
    var ministryProjects := CollectProjects(current, year);
    result := RollupAll(ministryProjects);
  }

  // ---- the nested map ----

  /** The ministry of each triple, in order: the keys `ProjectTotals` sees. */
  function TripleMinistries(triples: seq<(string, string, int)>): seq<string> {
    seq(|triples|, i requires 0 <= i < |triples| => triples[i].0)
  }

  /** A new ministry is appended at the end; a known one keeps its place. */
  lemma {:induction false} AddProjectKeys(t: ProjectTable, ministry: string, name: string, amount: int)
    ensures Keys(AddProject(t, ministry, name, amount)) ==
            if ministry in Keys(t) then Keys(t) else Keys(t) + [ministry]
  {
    if t != [] {
      var r := AddProject(t, ministry, name, amount);
      assert Keys(t) == [t[0].0] + Keys(t[1..]);
      assert Keys(r) == [r[0].0] + Keys(r[1..]);
      if t[0].0 != ministry {
        AddProjectKeys(t[1..], ministry, name, amount);
      } else {
        assert Keys(r[1..]) == Keys(t[1..]);
      }
    }
  }

  /** Adding a project changes that ministry's inner map, by `Accumulate`, and no other. */
  lemma {:induction false} AddProjectLookup(t: ProjectTable, ministry: string, name: string, amount: int, k: string)
    ensures Lookup(AddProject(t, ministry, name, amount), k) ==
            if k == ministry then Some(Accumulate(Lookup(t, ministry).GetOr([]), name, amount))
            else Lookup(t, k)
  {
    if t != [] && t[0].0 != ministry {
      AddProjectLookup(t[1..], ministry, name, amount, k);
    }
  }

  /** Each ministry appears once, in order of first mention. */
  lemma {:induction false} ProjectTotalsKeys(triples: seq<(string, string, int)>)
    ensures Keys(ProjectTotals(triples)) == Dedup(TripleMinistries(triples))
    ensures DistinctKeys(ProjectTotals(triples))
    decreases |triples|
  {
    if triples != [] {
      var init, x := triples[..|triples| - 1], triples[|triples| - 1];
      ProjectTotalsKeys(init);
      AddProjectKeys(ProjectTotals(init), x.0, x.1, x.2);
      assert TripleMinistries(triples)[..|triples| - 1] == TripleMinistries(init);
      DedupFacts(TripleMinistries(triples));
    }
  }

  /** The inner map of a ministry is the grouping of that ministry's own pairs. */
  lemma {:induction false} ProjectTotalsLookup(triples: seq<(string, string, int)>, ministry: string)
    ensures Lookup(ProjectTotals(triples), ministry).GetOr([]) == GroupSum(PairsFor(triples, ministry))
    decreases |triples|
  {
    if triples != [] {
      var init, x := triples[..|triples| - 1], triples[|triples| - 1];
      ProjectTotalsLookup(init, ministry);
      AddProjectLookup(ProjectTotals(init), x.0, x.1, x.2, ministry);
      if x.0 == ministry {
        var p := PairsFor(init, ministry) + [(x.1, x.2)];
        assert p[..|p| - 1] == PairsFor(init, ministry);
      }
    }
  }

  // ---- the same sums stated on the rows ----

  /** The ministries that own at least one named project among `rows`. */
  function NamedMinistries(rows: seq<BudgetRow>): set<string> {
    set r | r in rows && r.ministry != "" && r.eventName != "" :: r.ministry
  }

  /** The project names of `ministry` among `rows`. */
  function ProjectNames(rows: seq<BudgetRow>, ministry: string): set<string> {
    set r | r in rows && r.ministry == ministry && r.eventName != "" :: r.eventName
  }

  /** The amounts of every row of `ministry` named `name`, summed. */
  function ProjectBudget(rows: seq<BudgetRow>, year: Year, ministry: string, name: string): int
    decreases |rows|
  {
    if rows == [] then 0
    else
      var r := rows[|rows| - 1];
      ProjectBudget(rows[..|rows| - 1], year, ministry, name)
      + (if r.ministry == ministry && r.eventName == name then BudgetAmount(r, year) else 0)
  }

  /** The amounts of every named row of `ministry`, summed. */
  function MinistryProjectBudget(rows: seq<BudgetRow>, year: Year, ministry: string): int
    decreases |rows|
  {
    if rows == [] then 0
    else
      var r := rows[|rows| - 1];
      MinistryProjectBudget(rows[..|rows| - 1], year, ministry)
      + (if r.ministry == ministry && r.eventName != "" then BudgetAmount(r, year) else 0)
  }

  lemma {:induction false} ProjectAmountsMinistries(rows: seq<BudgetRow>, year: Year)
    ensures ElemSet(TripleMinistries(ProjectAmounts(rows, year))) == NamedMinistries(rows)
    decreases |rows|
  {
    if rows != [] {
      var init, r := rows[..|rows| - 1], rows[|rows| - 1];
      ProjectAmountsMinistries(init, year);
      assert rows == init + [r];
      assert NamedMinistries(rows) == NamedMinistries(init) + NamedMinistries([r]);
      var a := ProjectAmounts(init, year);
      if r.ministry != "" && r.eventName != "" {
        var b := a + [(r.ministry, r.eventName, BudgetAmount(r, year))];
        assert TripleMinistries(b) == TripleMinistries(a) + [r.ministry];
      }
    }
  }

  lemma {:induction false} PairsForNames(rows: seq<BudgetRow>, year: Year, ministry: string)
    requires ministry != ""
    ensures KeySet(PairsFor(ProjectAmounts(rows, year), ministry)) == ProjectNames(rows, ministry)
    decreases |rows|
  {
    if rows != [] {
      var init, r := rows[..|rows| - 1], rows[|rows| - 1];
      PairsForNames(init, year, ministry);
      assert rows == init + [r];
      assert ProjectNames(rows, ministry) == ProjectNames(init, ministry) + ProjectNames([r], ministry);
      var a := ProjectAmounts(init, year);
      if r.ministry != "" && r.eventName != "" {
        var x := (r.ministry, r.eventName, BudgetAmount(r, year));
        assert (a + [x])[..|a|] == a;
        if r.ministry == ministry {
          var p := PairsFor(a, ministry);
          assert Keys(p + [(x.1, x.2)]) == Keys(p) + [x.1];
        }
      }
    }
  }

  lemma {:induction false} PairsForSums(rows: seq<BudgetRow>, year: Year, ministry: string, name: string)
    requires ministry != "" && name != ""
    ensures SumFor(PairsFor(ProjectAmounts(rows, year), ministry), name) == ProjectBudget(rows, year, ministry, name)
    decreases |rows|
  {
    if rows != [] {
      var init, r := rows[..|rows| - 1], rows[|rows| - 1];
      PairsForSums(init, year, ministry, name);
      var a := ProjectAmounts(init, year);
      if r.ministry != "" && r.eventName != "" {
        var x := (r.ministry, r.eventName, BudgetAmount(r, year));
        assert (a + [x])[..|a|] == a;
        if r.ministry == ministry {
          var p := PairsFor(a, ministry);
          assert (p + [(x.1, x.2)])[..|p|] == p;
        }
      }
    }
  }

  lemma {:induction false} PairsForTotal(rows: seq<BudgetRow>, year: Year, ministry: string)
    requires ministry != ""
    ensures AmountSum(PairsFor(ProjectAmounts(rows, year), ministry)) == MinistryProjectBudget(rows, year, ministry)
    decreases |rows|
  {
    if rows != [] {
      var init, r := rows[..|rows| - 1], rows[|rows| - 1];
      PairsForTotal(init, year, ministry);
      var a := ProjectAmounts(init, year);
      if r.ministry != "" && r.eventName != "" {
        var x := (r.ministry, r.eventName, BudgetAmount(r, year));
        assert (a + [x])[..|a|] == a;
        if r.ministry == ministry {
          AmountSumAppend(PairsFor(a, ministry), [(x.1, x.2)]);
        }
      }
    }
  }

  // ---- one ministry's rollup ----

  function TopNames(items: seq<ProjectAmount>): set<string> {
    set p | p in items :: p.name
  }

  /** Sum of the listed amounts. */
  function ProjectSum(items: seq<ProjectAmount>): int {
    if items == [] then 0 else items[0].amount + ProjectSum(items[1..])
  }

  lemma {:induction false} ItemsSum(s: seq<(string, int)>)
    ensures ProjectSum(Items(s)) == AmountSum(s)
  {
    if s != [] {
      assert Items(s)[1..] == Items(s[1..]);
      ItemsSum(s[1..]);
    }
  }

  /**
   * The listed projects are the `min(10, n)` largest, largest first, each an
   * entry of the ministry's map and each named once.
   */
  lemma RollupTop(projects: seq<(string, int)>)
    requires DistinctKeys(projects)
    ensures var r := Rollup(projects);
      && |r.top10| == Min(TopCount, |projects|)
      && r.totalProjects == |projects|
      && (forall i, j :: 0 <= i < j < |r.top10| ==> r.top10[i].amount >= r.top10[j].amount)
      && (forall i, j :: 0 <= i < j < |r.top10| ==> r.top10[i].name != r.top10[j].name)
      && (forall i :: 0 <= i < |r.top10| ==> (r.top10[i].name, r.top10[i].amount) in projects)
  {
    var r := Rollup(projects);
    var sorted := SortDesc(projects);
    SortDescOrder(projects);
    SortDescKeys(projects);
    forall i, j | 0 <= i < j < |r.top10| ensures r.top10[i].name != r.top10[j].name {
      assert Keys(sorted)[i] != Keys(sorted)[j];
    }
    forall i | 0 <= i < |r.top10| ensures (r.top10[i].name, r.top10[i].amount) in projects {
      assert sorted[i] in multiset(sorted);
    }
  }

  /** In a ranking, an entry whose key is not among the first `k` is no larger than any of them. */
  lemma BelowPrefix(sorted: seq<(string, int)>, k: int, p: (string, int), i: int)
    requires NonIncreasing(sorted) && p in sorted
    requires 0 <= i < k <= |sorted|
    requires forall q :: 0 <= q < k ==> sorted[q].0 != p.0
    ensures sorted[i].1 >= p.1
  {
    var j :| 0 <= j < |sorted| && sorted[j] == p;
    assert j >= k;
  }

  /** Every project left out of the list is no larger than any listed one. */
  lemma RollupOutranks(projects: seq<(string, int)>, p: (string, int), i: int)
    requires p in projects && p.0 !in TopNames(Rollup(projects).top10)
    requires 0 <= i < |Rollup(projects).top10|
    ensures Rollup(projects).top10[i].amount >= p.1
  {
    var r := Rollup(projects);
    var sorted := SortDesc(projects);
    var k := Min(TopCount, |sorted|);
    SortDescOrder(projects);
    assert p in multiset(sorted);
    forall q | 0 <= q < k ensures sorted[q].0 != p.0 {
      assert r.top10[q] in r.top10;
    }
    BelowPrefix(sorted, k, p, i);
  }

  /** The listed amounts and `othersTotal` together make up the ministry's total. */
  lemma RollupTotals(projects: seq<(string, int)>)
    ensures var r := Rollup(projects);
      && ProjectSum(r.top10) + r.othersTotal == AmountSum(projects)
      && (|projects| <= TopCount ==> r.othersTotal == 0)
  {
    var sorted := SortDesc(projects);
    SortDescOrder(projects);
    SortDescKeys(projects);
    var k := Min(TopCount, |sorted|);
    assert sorted == sorted[..k] + sorted[k..];
    AmountSumAppend(sorted[..k], sorted[k..]);
    ItemsSum(sorted[..k]);
  }

  // ---- the whole result ----

  /** One key per ministry that owns a named project of the year, each once. */
  lemma MinistryProjectsKeys(rows: seq<BudgetRow>, year: Year)
    ensures var data := MinistryProjectsData(rows, year);
      && (forall i, j :: 0 <= i < j < |data| ==> data[i].0 != data[j].0)
      && (set i | 0 <= i < |data| :: data[i].0) == NamedMinistries(YearRows(rows, year))
  {
    var data := MinistryProjectsData(rows, year);
    var a := ProjectAmounts(YearRows(rows, year), year);
    var t := ProjectTotals(a);
    ProjectTotalsKeys(a);
    DedupFacts(TripleMinistries(a));
    ProjectAmountsMinistries(YearRows(rows, year), year);
    forall i, j | 0 <= i < j < |data| ensures data[i].0 != data[j].0 {
      assert Keys(t)[i] != Keys(t)[j];
    }
    assert (set i | 0 <= i < |data| :: data[i].0) == ElemSet(Keys(t)) by {
      forall m | m in ElemSet(Keys(t)) ensures m in (set i | 0 <= i < |data| :: data[i].0) {
        var i :| 0 <= i < |t| && Keys(t)[i] == m;
        assert data[i].0 == m;
      }
      forall i | 0 <= i < |data| ensures data[i].0 in ElemSet(Keys(t)) {
        assert Keys(t)[i] == data[i].0;
      }
    }
  }

  /**
   * What each entry says about the year's rows: its project count is the
   * number of distinct project names, its listed amounts are the summed rows
   * of those projects, and listed plus others is the ministry's whole total.
   */
  lemma MinistryProjectsEntry(rows: seq<BudgetRow>, year: Year, i: int)
    requires 0 <= i < |MinistryProjectsData(rows, year)|
    ensures var current := YearRows(rows, year);
      var m, r := MinistryProjectsData(rows, year)[i].0, MinistryProjectsData(rows, year)[i].1;
      && m in NamedMinistries(current)
      && r.totalProjects == |ProjectNames(current, m)|
      && |r.top10| == Min(TopCount, r.totalProjects)
      && ProjectSum(r.top10) + r.othersTotal == MinistryProjectBudget(current, year, m)
      && (forall j :: 0 <= j < |r.top10| ==>
            r.top10[j].name in ProjectNames(current, m)
            && r.top10[j].amount == ProjectBudget(current, year, m, r.top10[j].name))
  {
    var current := YearRows(rows, year);
    var a := ProjectAmounts(current, year);
    var t := ProjectTotals(a);
    var m, r := t[i].0, Rollup(t[i].1);
    ProjectTotalsKeys(a);
    DedupFacts(TripleMinistries(a));
    ProjectAmountsMinistries(current, year);
    assert Keys(t)[i] == m;
    assert m in NamedMinistries(current);
    var pairs := PairsFor(a, m);
    var g := GroupSum(pairs);
    LookupDistinct(t, i);
    ProjectTotalsLookup(a, m);
    assert t[i].1 == g;
    GroupSumKeys(pairs);
    PairsForNames(current, year, m);
    DistinctIffCard(Keys(g));
    RollupTop(g);
    RollupTotals(g);
    assert |Keys(g)| == |g|;
    GroupSumAmountSum(pairs);
    PairsForTotal(current, year, m);
    forall j | 0 <= j < |r.top10|
      ensures r.top10[j].name in ProjectNames(current, m)
      ensures r.top10[j].amount == ProjectBudget(current, year, m, r.top10[j].name)
    {
      var e := (r.top10[j].name, r.top10[j].amount);
      var q :| 0 <= q < |g| && g[q] == e;
      assert Keys(g)[q] == e.0;
      LookupDistinct(g, q);
      GroupSumLookup(pairs, e.0);
      PairsForSums(current, year, m, e.0);
    }
  }
}
