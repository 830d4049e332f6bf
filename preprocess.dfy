/**
 * Shared pieces of the per-year preprocessing (scripts/preprocess-data.ts):
 * unit normalisation, the CSV file-name rule, and the year filter every
 * aggregator applies first.
 */
module Preprocess {
  import opened Wrappers
  import opened Decimal
  import opened RsRecords

  /** Years up to this one report amounts in millions of yen; later ones in yen. */
  const LastMillionsYear := 2023

  /**
   * Converts a row amount to yen. A falsy (zero) amount is 0; amounts of
   * 2014 to 2023 are in millions; amounts of 2024 pass through.
   */
  function NormalizeAmount(amount: int, year: Year): (r: int)
    ensures amount == 0 ==> r == 0
    ensures year <= LastMillionsYear ==> r == amount * 1_000_000
    ensures year > LastMillionsYear ==> r == amount
    ensures (r < 0 <==> amount < 0) && (r == 0 <==> amount == 0)
  {
    if amount == 0 then 0
    else if year <= LastMillionsYear then amount * 1000000
    else amount
  }

  /**
   * The file-name prefix of a year's extract of kind `fileType`:
   * `<type>_RS_2024_` for 2024 and `<type>_<year>_` before.
   */
  function GetCSVFileName(year: Year, fileType: string): (r: string)
    ensures |r| > |fileType| + 1 && r[..|fileType|] == fileType && r[|r| - 1] == '_'
    ensures year == 2024 ==> r == fileType + "_RS_2024_"
    ensures year != 2024 ==>
              r[|fileType|] == '_' && AllDigits(r[|fileType| + 1..|r| - 1])
              && r[|fileType| + 1] != '0' && ParseNat(r[|fileType| + 1..|r| - 1]) == year
  {
    var y := NatToString(year);
    if year == 2024 then
      Numeral2024();
      fileType + "_RS_" + y + "_"
    else
      ParseNatToString(year);
      NatToStringLeading(year);
      var r := fileType + "_" + y + "_";
      assert r[|fileType| + 1..|r| - 1] == y;
      r
  }

  /** `${2024}` prints as "2024". */
  lemma Numeral2024()
    ensures NatToString(2024) == "2024"
  {
    assert NatToString(2024) == NatToString(202) + ['4'];
    assert NatToString(202) == NatToString(20) + ['2'];
    assert NatToString(20) == NatToString(2) + ['0'];
  }

  /** `budgetData.filter(b => b.予算年度 === year)`. */
  function YearRows(rows: seq<BudgetRow>, year: int): seq<BudgetRow> {
    if rows == [] then []
    else (if rows[0].budgetYear == year then [rows[0]] else []) + YearRows(rows[1..], year)
  }

  /** The filter keeps exactly the rows of `year`. */
  lemma {:induction false} YearRowsMembers(rows: seq<BudgetRow>, year: int)
    ensures forall x :: x in YearRows(rows, year) <==> x in rows && x.budgetYear == year
  {
    if rows != [] {
      YearRowsMembers(rows[1..], year);
      assert rows == [rows[0]] + rows[1..];
    }
  }

  lemma {:induction false} YearRowsAppend(a: seq<BudgetRow>, b: seq<BudgetRow>, year: int)
    ensures YearRows(a + b, year) == YearRows(a, year) + YearRows(b, year)
  {
    if a == [] {
      assert a + b == b;
    } else {
      var head := if a[0].budgetYear == year then [a[0]] else [];
      YearRowsAppend(a[1..], b, year);
      assert (a + b)[0] == a[0] && (a + b)[1..] == a[1..] + b;
      assert YearRows(a + b, year) == head + YearRows(a[1..] + b, year);
      assert YearRows(a, year) == head + YearRows(a[1..], year);
    }
  }

  /** A row of another fiscal year, wherever it stands, is filtered out. */
  lemma OtherYearRowFiltered(a: seq<BudgetRow>, r: BudgetRow, b: seq<BudgetRow>, year: int)
    requires r.budgetYear != year
    ensures YearRows(a + [r] + b, year) == YearRows(a + b, year)
  {
    YearRowsAppend(a + [r], b, year);
    YearRowsAppend(a, [r], year);
    YearRowsAppend(a, b, year);
    assert YearRows([r], year) == [];
  }

  /** The row's initial budget in yen: `normalizeAmount(b['当初予算(合計)'] || b['当初予算（合計）'] || 0, year)`. */
  function BudgetAmount(row: BudgetRow, year: Year): int {
    NormalizeAmount(FirstTruthy(row.initialBudget, row.initialBudgetWide), year)
  }

  /** The row's executed amount in yen, read the same way from the 執行額 columns. */
  function ExecutionAmount(row: BudgetRow, year: Year): int {
    NormalizeAmount(FirstTruthy(row.execution, row.executionWide), year)
  }
}
