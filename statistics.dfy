/**
 * `calculateStatistics` (scripts/preprocess-data.ts): totals in yen, the mean
 * execution rate and the distinct counts of one year's budget rows.
 */
module YearStatistics {
  import opened Wrappers
  import opened Assoc
  import opened RsRecords
  import opened Preprocess
  import opened SimplifiedSankey

  datatype Statistics = Statistics(
    totalBudget: int,
    totalExecution: int,
    averageExecutionRate: real,
    eventCount: nat,
    ministryCount: nat)

  /** Sum of the rows' initial budgets in yen. */
  function BudgetTotal(rows: seq<BudgetRow>, year: Year): int
    decreases |rows|
  {
    if rows == [] then 0 else BudgetTotal(rows[..|rows| - 1], year) + BudgetAmount(rows[|rows| - 1], year)
  }

  /** Sum of the rows' executed amounts in yen. */
  function ExecutionTotal(rows: seq<BudgetRow>, year: Year): int
    decreases |rows|
  {
    if rows == [] then 0 else ExecutionTotal(rows[..|rows| - 1], year) + ExecutionAmount(rows[|rows| - 1], year)
  }

  /** Sum of the truthy execution rates. */
  function RateSum(rows: seq<BudgetRow>): real
    decreases |rows|
  {
    if rows == [] then 0.0
    else
      var r := rows[|rows| - 1];
      RateSum(rows[..|rows| - 1]) + (if TruthyRate(r.executionRate) then r.executionRate.value else 0.0)
  }

  /** How many rows have a truthy execution rate. */
  function RateCount(rows: seq<BudgetRow>): nat
    decreases |rows|
  {
    if rows == [] then 0
    else RateCount(rows[..|rows| - 1]) + (if TruthyRate(rows[|rows| - 1].executionRate) then 1 else 0)
  }

  /** The mean of the truthy rates, 0 when there are none. */
  function MeanRate(rows: seq<BudgetRow>): (r: real)
    ensures RateCount(rows) == 0 ==> r == 0.0
    ensures RateCount(rows) > 0 ==> r * RateCount(rows) as real == RateSum(rows)
  {
    if RateCount(rows) > 0 then RateSum(rows) / RateCount(rows) as real else 0.0
  }

  function EventIds(rows: seq<BudgetRow>): set<int> {
    set r | r in rows :: r.eventId
  }

  /** The ministry values, the empty one included: a `Set` of `府省庁` cells. */
  function MinistryValues(rows: seq<BudgetRow>): set<string> {
    set r | r in rows :: r.ministry
  }

  function CalculateStatistics(budgetData: seq<BudgetRow>, year: Year): Statistics {
    var current := YearRows(budgetData, year);
    Statistics(
      BudgetTotal(current, year),
      ExecutionTotal(current, year),
      MeanRate(current),
      |EventIds(current)|,
      |MinistryValues(current)|)
  }

  // ---- the mean ----

  lemma {:induction false} RateCountBound(rows: seq<BudgetRow>)
    ensures RateCount(rows) <= |rows|
    ensures RateCount(rows) == 0 <==> forall r :: r in rows ==> !TruthyRate(r.executionRate)
    decreases |rows|
  {
    if rows != [] {
      var init := rows[..|rows| - 1];
      RateCountBound(init);
      assert rows == init + [rows[|rows| - 1]];
    }
  }

  /** `a` added up `n` times: a product the solver can reason about linearly. */
  function Times(a: real, n: nat): real {
    if n == 0 then 0.0 else Times(a, n - 1) + a
  }

  lemma {:induction false} TimesIsProduct(a: real, n: nat)
    ensures Times(a, n) == a * n as real
  {
    if n > 0 {
      TimesIsProduct(a, n - 1);
      assert a * n as real == a * (n - 1) as real + a;
    }
  }

  lemma {:induction false} RateSumAboveTimes(rows: seq<BudgetRow>, lo: real)
    requires forall r :: r in rows && TruthyRate(r.executionRate) ==> lo <= r.executionRate.value
    ensures Times(lo, RateCount(rows)) <= RateSum(rows)
    decreases |rows|
  {
    if rows != [] {
      var init, r := rows[..|rows| - 1], rows[|rows| - 1];
      assert forall x :: x in init ==> x in rows;
      RateSumAboveTimes(init, lo);
      if TruthyRate(r.executionRate) {
        assert r in rows;
      }
    }
  }

  lemma {:induction false} RateSumBelowTimes(rows: seq<BudgetRow>, hi: real)
    requires forall r :: r in rows && TruthyRate(r.executionRate) ==> r.executionRate.value <= hi
    ensures RateSum(rows) <= Times(hi, RateCount(rows))
    decreases |rows|
  {
    if rows != [] {
      var init, r := rows[..|rows| - 1], rows[|rows| - 1];
      assert forall x :: x in init ==> x in rows;
      RateSumBelowTimes(init, hi);
      if TruthyRate(r.executionRate) {
        assert r in rows;
      }
    }
  }

  /** Rates bounded below by `lo` sum to at least `lo` times their count. */
  lemma RateSumAbove(rows: seq<BudgetRow>, lo: real)
    requires forall r :: r in rows && TruthyRate(r.executionRate) ==> lo <= r.executionRate.value
    ensures lo * RateCount(rows) as real <= RateSum(rows)
  {
    RateSumAboveTimes(rows, lo);
    TimesIsProduct(lo, RateCount(rows));
  }

  /** Rates bounded above by `hi` sum to at most `hi` times their count. */
  lemma RateSumBelow(rows: seq<BudgetRow>, hi: real)
    requires forall r :: r in rows && TruthyRate(r.executionRate) ==> r.executionRate.value <= hi
    ensures RateSum(rows) <= hi * RateCount(rows) as real
  {
    RateSumBelowTimes(rows, hi);
    TimesIsProduct(hi, RateCount(rows));
  }

  lemma ScaleMonotone(a: real, b: real, n: real)
    requires n > 0.0 && a * n <= b * n
    ensures a <= b
  {
  }

  /** A quotient `m` with `m * n == sum` lies between bounds that scale to bound `sum`. */
  lemma QuotientBetween(lo: real, hi: real, m: real, n: real, sum: real)
    requires n > 0.0 && m * n == sum && lo * n <= sum <= hi * n
    ensures lo <= m <= hi
  {
    ScaleMonotone(lo, m, n);
    ScaleMonotone(m, hi, n);
  }

  /** The mean lies between the smallest and the largest truthy rate. */
  lemma MeanRateBounds(rows: seq<BudgetRow>, lo: real, hi: real)
    requires forall r :: r in rows && TruthyRate(r.executionRate) ==> lo <= r.executionRate.value <= hi
    requires RateCount(rows) > 0
    ensures lo <= MeanRate(rows) <= hi
  {
    RateSumAbove(rows, lo);
    RateSumBelow(rows, hi);
    QuotientBetween(lo, hi, MeanRate(rows), RateCount(rows) as real, RateSum(rows));
  }

  // ---- the counts ----

  lemma {:induction false} EventIdsBound(rows: seq<BudgetRow>)
    ensures |EventIds(rows)| <= |rows|
    ensures |EventIds(rows)| == 0 <==> rows == []
    decreases |rows|
  {
    if rows != [] {
      var init := rows[..|rows| - 1];
      EventIdsBound(init);
      assert rows == init + [rows[|rows| - 1]];
      assert EventIds(rows) == EventIds(init) + {rows[|rows| - 1].eventId};
    }
  }

  /**
   * The ministry count is the number of distinct non-empty ministries, the
   * list `extractMinistries` returns, plus one when some row names none.
   */
  lemma MinistryCountSplit(rows: seq<BudgetRow>, year: Year)
    ensures CalculateStatistics(rows, year).ministryCount ==
            |MinistrySet(rows, year)| + (if exists r :: r in YearRows(rows, year) && r.ministry == "" then 1 else 0)
  {
    var current := YearRows(rows, year);
    var all := MinistryValues(current);
    if exists r :: r in current && r.ministry == "" {
      assert all == MinistrySet(rows, year) + {""};
    } else {
      assert all == MinistrySet(rows, year);
    }
  }

  // ---- the totals ----

  /** Sum of the yen budgets of the rows that name no ministry. */
  function UnassignedBudget(rows: seq<BudgetRow>, year: Year): int
    decreases |rows|
  {
    if rows == [] then 0
    else
      var r := rows[|rows| - 1];
      UnassignedBudget(rows[..|rows| - 1], year) + (if r.ministry == "" then BudgetAmount(r, year) else 0)
  }

  lemma {:induction false} BudgetTotalSplit(rows: seq<BudgetRow>, year: Year)
    ensures BudgetTotal(rows, year) == AmountSum(MinistryAmounts(rows, year)) + UnassignedBudget(rows, year)
    decreases |rows|
  {
    if rows != [] {
      var init, r := rows[..|rows| - 1], rows[|rows| - 1];
      BudgetTotalSplit(init, year);
      if r.ministry != "" {
        AmountSumAppend(MinistryAmounts(init, year), [(r.ministry, BudgetAmount(r, year))]);
      }
    }
  }

  /**
   * The statistics' total budget is the simplified graph's root budget plus
   * the budgets of the year's rows that name no ministry.
   */
  lemma TotalBudgetMatchesSankey(rows: seq<BudgetRow>, year: Year)
    ensures CalculateStatistics(rows, year).totalBudget ==
            SimplifiedSankeyData(rows, year).nodes[0].metadata.budget.value
            + UnassignedBudget(YearRows(rows, year), year)
  {
    BudgetTotalSplit(YearRows(rows, year), year);
  }
}
