/**
 * Parsed rows of the RS system CSV extracts (types/rs-system.ts), restricted
 * to the columns the modelled code reads.
 *
 * A column the row type declares as required is a plain value, where an
 * absent cell and an empty cell are both the empty string. A column declared
 * optional (`?`) is an `Option`. Both spellings of the amount headers,
 * half-width `(合計)` and full-width `（合計）`, are separate optional columns.
 */
module RsRecords {
  import opened Wrappers

  /** The fiscal years the pipeline knows: 2014 to 2024. */
  type Year = y: int | 2014 <= y <= 2024 witness 2014

  /** One row of 2-1_予算・執行_サマリ.csv. */
  datatype BudgetRow = BudgetRow(
    eventId: int,                    // 予算事業ID
    eventName: string,               // 事業名
    ministry: string,                // 府省庁
    budgetYear: int,                 // 予算年度
    initialBudget: Option<int>,      // '当初予算(合計)'
    initialBudgetWide: Option<int>,  // '当初予算（合計）'
    execution: Option<int>,          // '執行額(合計)'
    executionWide: Option<int>,      // '執行額（合計）'
    executionRate: Option<real>)     // 執行率

  /** One row of 5-1_支出先_支出情報.csv. */
  datatype ExpenditureRow = ExpenditureRow(
    eventId: int,                    // 予算事業ID
    eventName: string,               // 事業名
    ministry: string,                // 府省庁
    blockId: string,                 // 支出先ブロック番号
    blockTotal: Option<int>,         // ブロックの合計支出額
    recipientName: Option<string>,   // 支出先名
    corporateNumber: Option<string>, // 法人番号
    location: Option<string>,        // 所在地
    amount: Option<int>,             // 金額
    contractType: Option<string>,    // 契約方式等
    bidders: Option<int>,            // 入札者数
    fallRate: Option<real>,          // 落札率
    role: Option<string>)            // 事業を行う上での役割

  /** One row of 5-2_支出先_支出ブロックのつながり.csv. */
  datatype ConnectionRow = ConnectionRow(
    eventId: int,                    // 予算事業ID
    eventName: string,               // 事業名
    ministry: string,                // 府省庁
    sourceBlock: Option<string>,     // 支出元の支出先ブロック
    sourceBlockName: Option<string>, // 支出元の支出先ブロック名
    fromOrganization: bool,          // 担当組織からの支出
    targetBlock: string,             // 支出先の支出先ブロック
    targetBlockName: string)         // 支出先の支出先ブロック名

  /** JavaScript truthiness of an optional number: present and non-zero. */
  predicate TruthyNumber(x: Option<int>) {
    x.Some? && x.value != 0
  }

  predicate TruthyRate(x: Option<real>) {
    x.Some? && x.value != 0.0
  }

  /** JavaScript truthiness of an optional string: present and non-empty. */
  predicate TruthyString(x: Option<string>) {
    x.Some? && x.value != ""
  }

  /** `a || b || 0` on two optional numbers. */
  function FirstTruthy(a: Option<int>, b: Option<int>): (r: int)
    ensures r != 0 <==> TruthyNumber(a) || TruthyNumber(b)
    ensures TruthyNumber(a) ==> r == a.value
    ensures !TruthyNumber(a) && TruthyNumber(b) ==> r == b.value
  {
    if TruthyNumber(a) then a.value else if TruthyNumber(b) then b.value else 0
  }

  /** `a || b` where `b` is a plain string. */
  function StringOr(a: Option<string>, b: string): string {
    if TruthyString(a) then a.value else b
  }
}
