/**
 * `generateSimplifiedSankeyData` (scripts/preprocess-data.ts): one root node
 * for the year's total budget and, per ministry, one node and one link from
 * the root, ministries ranked by budget, largest first.
 */
module SimplifiedSankey {
  import opened Wrappers
  import opened Decimal
  import opened Seqs
  import opened Assoc
  import opened Ranking
  import opened RsRecords
  import opened SankeyTypes
  import opened Preprocess

  const RootId := "total_budget"

  /** `(府省庁, amount)` for every row that names a ministry, in row order. */
  function MinistryAmounts(rows: seq<BudgetRow>, year: Year): seq<(string, int)>
    decreases |rows|
  {
    if rows == [] then []
    else
      var init, r := MinistryAmounts(rows[..|rows| - 1], year), rows[|rows| - 1];
      if r.ministry == "" then init else init + [(r.ministry, BudgetAmount(r, year))]
  }

  /** The ministries named by rows of `year`. */
  function MinistrySet(rows: seq<BudgetRow>, year: Year): set<string> {
    set r | r in YearRows(rows, year) && r.ministry != "" :: r.ministry
  }

  /** The yen budget of `ministry`: the sum over its rows of `year`. */
  function MinistryBudget(rows: seq<BudgetRow>, year: Year, ministry: string): int {
    SumFor(MinistryAmounts(YearRows(rows, year), year), ministry)
  }

  function RootNode(year: Year, total: int): SankeyNode {
    SankeyNode(RootId, NatToString(year) + "年度予算", Total,
               NodeMetadata(None, None, Some(total), None, None, None))
  }

  function MinistryNodeId(index: nat): string {
    "ministry_" + NatToString(index)
  }

  function MinistryNode(index: nat, entry: (string, int)): SankeyNode {
    SankeyNode(MinistryNodeId(index), entry.0, Ministry,
               NodeMetadata(None, None, Some(entry.1), Some(entry.0), None, None))
  }

  function MinistryLink(index: nat, entry: (string, int)): SankeyLink {
    SankeyLink(RootId, MinistryNodeId(index), entry.1, None)
  }

  /** The per-ministry totals of `year`, largest first. */
  function RankedMinistries(rows: seq<BudgetRow>, year: Year): seq<(string, int)> {
    SortDesc(GroupSum(MinistryAmounts(YearRows(rows, year), year)))
  }

  /** The graph `generateSimplifiedSankeyData` returns. */
  function SimplifiedSankeyData(rows: seq<BudgetRow>, year: Year): SankeyData {
    var ranked := RankedMinistries(rows, year);
    var total := AmountSum(MinistryAmounts(YearRows(rows, year), year));
    SankeyData(
      [RootNode(year, total)] + seq(|ranked|, i requires 0 <= i < |ranked| => MinistryNode(i, ranked[i])),
      seq(|ranked|, i requires 0 <= i < |ranked| => MinistryLink(i, ranked[i])))
  }

  /**
   * The script's first loop: sum each named ministry's budget into an
   * insertion-ordered map, and every such budget into a running total.
   */
  method SumMinistryBudgets(current: seq<BudgetRow>, year: Year) returns (ministryBudgets: seq<(string, int)>, totalBudget: int)
    ensures ministryBudgets == GroupSum(MinistryAmounts(current, year))
    ensures totalBudget == AmountSum(MinistryAmounts(current, year))
  {
    ministryBudgets, totalBudget := [], 0;
    var i := 0;
    while i < |current|
      invariant 0 <= i <= |current|
      invariant ministryBudgets == GroupSum(MinistryAmounts(current[..i], year))
      invariant totalBudget == AmountSum(MinistryAmounts(current[..i], year))
    {
      var budget := current[i];
      ghost var before := MinistryAmounts(current[..i], year);
      assert current[..i + 1][..i] == current[..i];
      if budget.ministry != "" {
        var budgetAmount := BudgetAmount(budget, year);
        assert MinistryAmounts(current[..i + 1], year) == before + [(budget.ministry, budgetAmount)];
        ministryBudgets := Accumulate(ministryBudgets, budget.ministry, budgetAmount);
        AmountSumAppend(before, [(budget.ministry, budgetAmount)]);
        totalBudget := totalBudget + budgetAmount;
      }
      i := i + 1;
    }
    assert current[..i] == current;
  }

  /** The script's second loop: one node and one root link per ranked ministry, in ranked order. */
  method PushMinistries(root: SankeyNode, sortedMinistries: seq<(string, int)>) returns (nodes: seq<SankeyNode>, links: seq<SankeyLink>)
    ensures nodes == [root] + seq(|sortedMinistries|, k requires 0 <= k < |sortedMinistries| => MinistryNode(k, sortedMinistries[k]))
    ensures links == seq(|sortedMinistries|, k requires 0 <= k < |sortedMinistries| => MinistryLink(k, sortedMinistries[k]))
  {
    nodes, links := [root], [];
    var nodeIndex := 0;
    while nodeIndex < |sortedMinistries|
      invariant 0 <= nodeIndex <= |sortedMinistries|
      invariant |nodes| == nodeIndex + 1 && nodes[0] == root && |links| == nodeIndex
      invariant forall k :: 0 <= k < nodeIndex ==> nodes[k + 1] == MinistryNode(k, sortedMinistries[k])
      invariant forall k :: 0 <= k < nodeIndex ==> links[k] == MinistryLink(k, sortedMinistries[k])
    {
      var entry := sortedMinistries[nodeIndex];
      nodes := nodes + [MinistryNode(nodeIndex, entry)];
      links := links + [MinistryLink(nodeIndex, entry)];
      nodeIndex := nodeIndex + 1;
    }
  }

  /**
   * `generateSimplifiedSankeyData`: filter the year's rows, sum per ministry,
   * push the root node, then the ministries ranked by budget.
   */
  method GenerateSimplifiedSankeyData(budgetData: seq<BudgetRow>, year: Year) returns (data: SankeyData)
    ensures data == SimplifiedSankeyData(budgetData, year)
  {
    var current := YearRows(budgetData, year);
    var ministryBudgets, totalBudget := SumMinistryBudgets(current, year);
    var totalBudgetNode := RootNode(year, totalBudget);
    var sortedMinistries := SortDesc(ministryBudgets);
    var nodes, links := PushMinistries(totalBudgetNode, sortedMinistries);
    data := SankeyData(nodes, links);
  }

  /** Sum of the link values. */
  function LinkTotal(links: seq<SankeyLink>): int {
    if links == [] then 0 else links[0].value + LinkTotal(links[1..])
  }

  lemma {:induction false} LinkTotalMatches(links: seq<SankeyLink>, ranked: seq<(string, int)>)
    requires |links| == |ranked|
    requires forall i :: 0 <= i < |links| ==> links[i].value == ranked[i].1
    ensures LinkTotal(links) == AmountSum(ranked)
  {
    if links != [] {
      LinkTotalMatches(links[1..], ranked[1..]);
    }
  }

  /** The keys of the amounts are the ministries the rows name. */
  lemma {:induction false} MinistryAmountsKeys(rows: seq<BudgetRow>, year: Year)
    ensures KeySet(MinistryAmounts(rows, year)) == set r | r in rows && r.ministry != "" :: r.ministry
    decreases |rows|
  {
    if rows != [] {
      var init, r := rows[..|rows| - 1], rows[|rows| - 1];
      MinistryAmountsKeys(init, year);
      assert rows == init + [r];
      var p := MinistryAmounts(init, year);
      var named := set x | x in rows && x.ministry != "" :: x.ministry;
      var namedInit := set x | x in init && x.ministry != "" :: x.ministry;
      if r.ministry != "" {
        assert Keys(p + [(r.ministry, BudgetAmount(r, year))]) == Keys(p) + [r.ministry];
        assert named == namedInit + {r.ministry};
      } else {
        assert named == namedInit;
      }
    }
  }

  /** Facts about the ranked ministry totals that the lemmas below share. */
  lemma RankedFacts(rows: seq<BudgetRow>, year: Year)
    ensures var ranked := RankedMinistries(rows, year);
      && NonIncreasing(ranked)
      && DistinctKeys(ranked)
      && KeySet(ranked) == MinistrySet(rows, year)
      && |ranked| == |MinistrySet(rows, year)|
      && AmountSum(ranked) == AmountSum(MinistryAmounts(YearRows(rows, year), year))
  {
    var p := MinistryAmounts(YearRows(rows, year), year);
    var g := GroupSum(p);
    GroupSumKeys(p);
    GroupSumAmountSum(p);
    SortDescOrder(g);
    SortDescKeys(g);
    MinistryAmountsKeys(YearRows(rows, year), year);
    DistinctIffCard(Keys(SortDesc(g)));
  }

  /**
   * Conservation: the root's budget equals the sum of all link values, and
   * each link carries exactly its ministry node's budget.
   */
  lemma SimplifiedSankeyConservation(rows: seq<BudgetRow>, year: Year)
    ensures var d := SimplifiedSankeyData(rows, year);
      && |d.nodes| == |d.links| + 1
      && d.nodes[0].metadata.budget == Some(LinkTotal(d.links))
      && forall i :: 0 <= i < |d.links| ==> d.nodes[i + 1].metadata.budget == Some(d.links[i].value)
  {
    var d := SimplifiedSankeyData(rows, year);
    var ranked := RankedMinistries(rows, year);
    RankedFacts(rows, year);
    LinkTotalMatches(d.links, ranked);
  }

  /** Each ministry node carries the summed yen budget of that ministry's rows of the year. */
  lemma SimplifiedSankeyMinistryBudgets(rows: seq<BudgetRow>, year: Year)
    ensures var d := SimplifiedSankeyData(rows, year);
      forall i :: 1 <= i < |d.nodes| ==>
        d.nodes[i].metadata.budget == Some(MinistryBudget(rows, year, d.nodes[i].name))
  {
    var d := SimplifiedSankeyData(rows, year);
    var p := MinistryAmounts(YearRows(rows, year), year);
    var g := GroupSum(p);
    var ranked := SortDesc(g);
    SortDescElems(g);
    assert |d.nodes| == |ranked| + 1;
    forall i | 1 <= i < |d.nodes|
      ensures d.nodes[i].metadata.budget == Some(MinistryBudget(rows, year, d.nodes[i].name))
    {
      GroupSumEntry(p, ranked[i - 1]);
    }
  }

  /**
   * Shape: one `total` root, then `ministry` nodes with ids `ministry_0`,
   * `ministry_1`, ... in order, and one link from the root to each of them.
   */
  lemma SimplifiedSankeyLayout(rows: seq<BudgetRow>, year: Year)
    ensures var d := SimplifiedSankeyData(rows, year);
      && d.nodes[0].id == RootId && d.nodes[0].nodeType == Total
      && (forall i :: 1 <= i < |d.nodes| ==>
            d.nodes[i].nodeType == Ministry && d.nodes[i].id == MinistryNodeId(i - 1))
      && (forall i :: 0 <= i < |d.links| ==>
            d.links[i].source == RootId && d.links[i].target == d.nodes[i + 1].id)
  {
  }

  /** Nodes that spell out a ranking in order have its names, each once, and its budgets in order. */
  lemma RankedNodes(nodes: seq<SankeyNode>, ranked: seq<(string, int)>)
    requires |nodes| == |ranked| + 1 && NonIncreasing(ranked) && DistinctKeys(ranked)
    requires forall i :: 1 <= i < |nodes| ==> nodes[i].name == ranked[i - 1].0
    requires forall i :: 1 <= i < |nodes| ==> nodes[i].metadata.budget == Some(ranked[i - 1].1)
    ensures (set i | 1 <= i < |nodes| :: nodes[i].name) == KeySet(ranked)
    ensures forall i, j :: 1 <= i < j < |nodes| ==> nodes[i].name != nodes[j].name
    ensures forall i, j :: 1 <= i < j < |nodes| ==>
              nodes[i].metadata.budget.GetOr(0) >= nodes[j].metadata.budget.GetOr(0)
  {
    var names := set i | 1 <= i < |nodes| :: nodes[i].name;
    forall x | x in KeySet(ranked) ensures x in names {
      var k :| 0 <= k < |ranked| && Keys(ranked)[k] == x;
      assert nodes[k + 1].name == x;
    }
    forall x | x in names ensures x in KeySet(ranked) {
      var k :| 1 <= k < |nodes| && nodes[k].name == x;
      assert Keys(ranked)[k - 1] == x;
    }
    forall i, j | 1 <= i < j < |nodes| ensures nodes[i].name != nodes[j].name {
      assert Keys(ranked)[i - 1] != Keys(ranked)[j - 1];
    }
  }

  /**
   * There is one ministry node per distinct non-empty ministry of the year's
   * rows, no ministry twice, and their budgets never increase.
   */
  lemma SimplifiedSankeyMinistries(rows: seq<BudgetRow>, year: Year)
    ensures var d := SimplifiedSankeyData(rows, year);
      && |d.nodes| == 1 + |MinistrySet(rows, year)|
      && (set i | 1 <= i < |d.nodes| :: d.nodes[i].name) == MinistrySet(rows, year)
      && (forall i, j :: 1 <= i < j < |d.nodes| ==> d.nodes[i].name != d.nodes[j].name)
      && (forall i, j :: 1 <= i < j < |d.nodes| ==>
            d.nodes[i].metadata.budget.GetOr(0) >= d.nodes[j].metadata.budget.GetOr(0))
  {
    RankedFacts(rows, year);
    RankedNodes(SimplifiedSankeyData(rows, year).nodes, RankedMinistries(rows, year));
  }

  /** Node ids are unique. */
  lemma SimplifiedSankeyIdsDistinct(rows: seq<BudgetRow>, year: Year)
    ensures Distinct(NodeIds(SimplifiedSankeyData(rows, year).nodes))
  {
    var d := SimplifiedSankeyData(rows, year);
    var ids := NodeIds(d.nodes);
    forall i, j | 0 <= i < j < |ids| ensures ids[i] != ids[j] {
      if i == 0 {
        assert ids[i][0] == 't' && ids[j][0] == 'm';
      } else {
        AppendCancel("ministry_", NatToString(i - 1), NatToString(j - 1));
        NatToStringInjective(i - 1, j - 1);
      }
    }
  }
}
