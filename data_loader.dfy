/**
 * The computation in `loadStatisticsForYear` (server/loaders/data-loader.ts)
 * once the year's budget summary rows are loaded: the same totals, mean and
 * counts as the preprocessing statistics, but over every row given, from the
 * half-width `(合計)` columns only, without unit conversion, and with a guard
 * that turns the mean's `NaN` into 0.
 */
module StatisticsLoader {
  import opened Wrappers
  import opened RsRecords
  import opened Preprocess
  import opened YearStatistics

  datatype YearSummary = YearSummary(
    year: Year,
    totalBudget: int,
    totalExecution: int,
    averageExecutionRate: real,
    eventCount: nat,
    ministryCount: nat)

  /** `sum + (item['当初予算(合計)'] || 0)` over the rows. */
  function RawBudgetTotal(rows: seq<BudgetRow>): int
    decreases |rows|
  {
    if rows == [] then 0 else RawBudgetTotal(rows[..|rows| - 1]) + rows[|rows| - 1].initialBudget.GetOr(0)
  }

  /** `sum + (item['執行額(合計)'] || 0)` over the rows. */
  function RawExecutionTotal(rows: seq<BudgetRow>): int
    decreases |rows|
  {
    if rows == [] then 0 else RawExecutionTotal(rows[..|rows| - 1]) + rows[|rows| - 1].execution.GetOr(0)
  }

  /** The division `sum / count` over the truthy rates; `None` stands for the `NaN` of `0 / 0`. */
  function RateQuotient(rows: seq<BudgetRow>): Option<real> {
    if RateCount(rows) == 0 then None else Some(RateSum(rows) / RateCount(rows) as real)
  }

  /**
   * The record returned: the requested year echoed, and an average that is
   * the mean of the truthy rates, 0 when there are none.
   */
  function LoadStatistics(year: Year, budgetSummary: seq<BudgetRow>): (s: YearSummary)
    ensures s.year == year
    ensures s.averageExecutionRate == MeanRate(budgetSummary)
    ensures RateCount(budgetSummary) == 0 ==> s.averageExecutionRate == 0.0
  {
    var q := RateQuotient(budgetSummary);
    YearSummary(
      year,
      RawBudgetTotal(budgetSummary),
      RawExecutionTotal(budgetSummary),
      if q.None? then 0.0 else q.value,
      |EventIds(budgetSummary)|,
      |MinistryValues(budgetSummary)|)
  }

  lemma {:induction false} YearRowsAll(rows: seq<BudgetRow>, year: Year)
    requires forall r :: r in rows ==> r.budgetYear == year
    ensures YearRows(rows, year) == rows
  {
    if rows != [] {
      assert forall r :: r in rows[1..] ==> r in rows;
      YearRowsAll(rows[1..], year);
    }
  }

  /**
   * On rows that all belong to the year, the loader and the preprocessing
   * agree on the mean rate and on both distinct counts.
   */
  lemma LoaderMatchesPreprocessCounts(year: Year, rows: seq<BudgetRow>)
    requires forall r :: r in rows ==> r.budgetYear == year
    ensures var loaded, pre := LoadStatistics(year, rows), CalculateStatistics(rows, year);
      && loaded.averageExecutionRate == pre.averageExecutionRate
      && loaded.eventCount == pre.eventCount
      && loaded.ministryCount == pre.ministryCount
  {
    YearRowsAll(rows, year);
  }

  /** The yen factor `normalizeAmount` applies in `year`. */
  function YenFactor(year: Year): int {
    if year <= LastMillionsYear then 1_000_000 else 1
  }

  lemma {:induction false} BudgetTotalScales(rows: seq<BudgetRow>, year: Year)
    requires forall r :: r in rows ==> r.initialBudgetWide.None? && r.executionWide.None?
    ensures BudgetTotal(rows, year) == YenFactor(year) * RawBudgetTotal(rows)
    ensures ExecutionTotal(rows, year) == YenFactor(year) * RawExecutionTotal(rows)
    decreases |rows|
  {
    if rows != [] {
      var init := rows[..|rows| - 1];
      assert forall r :: r in init ==> r in rows;
      BudgetTotalScales(init, year);
      assert rows[|rows| - 1] in rows;
    }
  }

  /**
   * Where every row uses the half-width spellings only, the preprocessing
   * totals are the loader's totals in yen: a million times larger for 2014 to
   * 2023, equal for 2024.
   */
  lemma LoaderTotalsInYen(year: Year, rows: seq<BudgetRow>)
    requires forall r :: r in rows ==> r.budgetYear == year
    requires forall r :: r in rows ==> r.initialBudgetWide.None? && r.executionWide.None?
    ensures var loaded, pre := LoadStatistics(year, rows), CalculateStatistics(rows, year);
      && pre.totalBudget == YenFactor(year) * loaded.totalBudget
      && pre.totalExecution == YenFactor(year) * loaded.totalExecution
  {
    YearRowsAll(rows, year);
    BudgetTotalScales(rows, year);
  }
}
