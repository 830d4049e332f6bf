/** `getBudgetInfoById` (server/lib/sankey-transformer.ts): `Array.prototype.find` by event id. */
module BudgetLookup {
  import opened Wrappers
  import opened RsRecords

  /**
   * The first row whose `予算事業ID` is `eventId`, or none: the row found sits
   * at an index `k` with that id, and no row before `k` has it.
   */
  function GetBudgetInfoById(eventId: int, budgetSummary: seq<BudgetRow>): (r: Option<BudgetRow>)
    ensures r.None? <==> forall i :: 0 <= i < |budgetSummary| ==> budgetSummary[i].eventId != eventId
    ensures r.Some? ==> exists k :: 0 <= k < |budgetSummary| && budgetSummary[k] == r.value
                          && budgetSummary[k].eventId == eventId
                          && forall j :: 0 <= j < k ==> budgetSummary[j].eventId != eventId
  {
    if budgetSummary == [] then None
    else if budgetSummary[0].eventId == eventId then Some(budgetSummary[0])
    else
      var r := GetBudgetInfoById(eventId, budgetSummary[1..]);
      assert forall i :: 1 <= i < |budgetSummary| ==> budgetSummary[1..][i - 1] == budgetSummary[i];
      r
  }
}
