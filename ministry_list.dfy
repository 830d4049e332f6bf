/**
 * The sorted ministry lists: `extractMinistries` (scripts/preprocess-data.ts)
 * over one year's rows, and `getMinistryList`
 * (server/lib/sankey-transformer.ts) over every row it is given. Both fill a
 * `Set` with the non-empty `府省庁` values and sort its contents.
 */
module MinistryList {
  import opened Seqs
  import opened Lexicographic
  import opened RsRecords
  import opened Preprocess
  import opened SimplifiedSankey

  /** The `Set` of non-empty ministries after adding those of `rows` in order. */
  function MinistriesInOrder(rows: seq<BudgetRow>): seq<string>
    decreases |rows|
  {
    if rows == [] then []
    else
      var seen, m := MinistriesInOrder(rows[..|rows| - 1]), rows[|rows| - 1].ministry;
      if m == "" || m in seen then seen else seen + [m]
  }

  /** The non-empty ministries of `rows`. */
  function NonEmptyMinistries(rows: seq<BudgetRow>): set<string> {
    set r | r in rows && r.ministry != "" :: r.ministry
  }

  /** The set holds each non-empty ministry of the rows exactly once. */
  lemma {:induction false} MinistriesInOrderFacts(rows: seq<BudgetRow>)
    ensures Distinct(MinistriesInOrder(rows))
    ensures ElemSet(MinistriesInOrder(rows)) == NonEmptyMinistries(rows)
    decreases |rows|
  {
    if rows != [] {
      var init := rows[..|rows| - 1];
      MinistriesInOrderFacts(init);
      assert rows == init + [rows[|rows| - 1]];
      assert NonEmptyMinistries(rows) == NonEmptyMinistries(init) + NonEmptyMinistries([rows[|rows| - 1]]);
    }
  }

  /** Sorting the distinct names gives a strictly ascending list of the same names. */
  lemma SortedMinistries(rows: seq<BudgetRow>)
    ensures var s := SortStrings(MinistriesInOrder(rows));
      StrictlyAscending(s) && ElemSet(s) == NonEmptyMinistries(rows)
  {
    MinistriesInOrderFacts(rows);
    SortStringsFacts(MinistriesInOrder(rows));
  }

  method ExtractMinistries(budgetData: seq<BudgetRow>, year: Year) returns (result: seq<string>)
    ensures StrictlyAscending(result)
    ensures ElemSet(result) == MinistrySet(budgetData, year)
  {
    var currentYearBudgetData := YearRows(budgetData, year);
    var ministries: seq<string> := [];
    var i := 0;
    while i < |currentYearBudgetData|
      invariant 0 <= i <= |currentYearBudgetData|
      invariant ministries == MinistriesInOrder(currentYearBudgetData[..i])
    {
      var budget := currentYearBudgetData[i];
      assert currentYearBudgetData[..i + 1][..i] == currentYearBudgetData[..i];
      if budget.ministry != "" && budget.ministry !in ministries {
        ministries := ministries + [budget.ministry];
      }
      i := i + 1;
    }
    assert currentYearBudgetData[..i] == currentYearBudgetData;
    result := SortStrings(ministries);
    SortedMinistries(currentYearBudgetData);
  }

  method GetMinistryList(budgetSummary: seq<BudgetRow>) returns (result: seq<string>)
    ensures StrictlyAscending(result)
    ensures ElemSet(result) == NonEmptyMinistries(budgetSummary)
  {
    var ministries: seq<string> := [];
    var i := 0;
    while i < |budgetSummary|
      invariant 0 <= i <= |budgetSummary|
      invariant ministries == MinistriesInOrder(budgetSummary[..i])
    {
      var budget := budgetSummary[i];
      assert budgetSummary[..i + 1][..i] == budgetSummary[..i];
      if budget.ministry != "" && budget.ministry !in ministries {
        ministries := ministries + [budget.ministry];
      }
      i := i + 1;
    }
    assert budgetSummary[..i] == budgetSummary;
    result := SortStrings(ministries);
    SortedMinistries(budgetSummary);
  }
}
