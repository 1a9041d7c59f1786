/**
 * The driver's trip history: the list of past duty rows, newest first as the
 * store returns them, and for a chosen duty its expenses, their total and the
 * duty's profit.
 */
module History {
  import opened Wrappers
  import opened Duties
  import opened Expenses

  /** What a list entry shows for a time column: the time itself, or a fixed note. */
  datatype TimeLabel = Clock(stamp: string) | Note(text: string)

  /** `start_time ? <time> : 'Not started'`. */
  function StartLabel(d: Duty): TimeLabel {
    if Truthy(d.startTime) then Clock(d.startTime.value) else Note("Not started")
  }

  /** `end_time ? <time> : 'Active'`. */
  function EndLabel(d: Duty): TimeLabel {
    if Truthy(d.endTime) then Clock(d.endTime.value) else Note("Active")
  }

  /** `(selectedDuty?.total_collection || 0) - totalExpenses`. */
  function Profit(selected: Option<Duty>, expenses: seq<Expense>): real {
    var collection := if selected.Some? then selected.value.totalCollection.GetOr(0.0) else 0.0;
    collection - TotalExpenses(expenses)
  }

  /** `selectedDuty?.id === duty.id`: the list entry that is highlighted. */
  predicate IsSelected(selected: Option<Duty>, d: Duty) {
    selected.Some? && selected.value.id == d.id
  }

  // ---------------------------------------------------------------------------
  // Properties
  // ---------------------------------------------------------------------------

  /**
   * The list shows a start time followed by 'Active' exactly for the rows the
   * journey page treats as an active duty.
   */
  lemma LabelsShowActive(d: Duty)
    ensures (StartLabel(d).Clock? && EndLabel(d) == Note("Active")) <==> IsActive(Some(d))
  {
  }

  /** Each recorded expense lowers the profit by its amount. */
  lemma ProfitAfterExpense(selected: Option<Duty>, expenses: seq<Expense>, e: Expense)
    ensures Profit(selected, expenses + [e]) == Profit(selected, expenses) - e.amount
  {
    TotalAppend(expenses, e);
  }

  /** Without expenses the profit is the collection, a missing collection counting as zero. */
  lemma ProfitWithoutExpenses(d: Duty)
    ensures Profit(Some(d), []) == d.totalCollection.GetOr(0.0)
    ensures d.totalCollection.None? ==> Profit(Some(d), []) == 0.0
  {
  }

  /** With positive expenses the profit is below the collection. */
  lemma ProfitBelowCollection(d: Duty, expenses: seq<Expense>)
    requires expenses != []
    requires forall k :: 0 <= k < |expenses| ==> expenses[k].amount > 0.0
    ensures Profit(Some(d), expenses) < d.totalCollection.GetOr(0.0)
  {
    TotalNonNegative(expenses);
  }

  // ---------------------------------------------------------------------------
  // The page's state
  // ---------------------------------------------------------------------------

  class HistoryPage {
    var duties: seq<Duty>
    var selected: Option<Duty>
    var expenses: seq<Expense>
    var loadingDuty: bool

    constructor ()
      ensures duties == [] && selected.None? && expenses == [] && !loadingDuty
    {
      duties, selected, expenses, loadingDuty := [], None, [], false;
    }

    /** `fetchHistory`: an error keeps the list shown; a reply replaces it, `null` reading as empty. */
    method FetchHistory(reply: Result<Option<seq<Duty>>, string>)
      modifies this
      ensures duties == (if reply.Err? then old(duties) else reply.value.GetOr([]))
      ensures selected == old(selected) && expenses == old(expenses) && loadingDuty == old(loadingDuty)
    {
      if reply.Ok? {
        duties := reply.value.GetOr([]);
      }
    }

    /**
     * `viewDutyDetails`: the duty is selected at once and its expenses are
     * requested; an error shows no expenses. Returns the duty id queried.
     */
    method ViewDutyDetails(d: Duty, reply: Result<Option<seq<Expense>>, string>) returns (queried: string)
      modifies this
      ensures queried == d.id
      ensures selected == Some(d) && !loadingDuty && duties == old(duties)
      ensures expenses == (if reply.Err? then [] else reply.value.GetOr([]))
    {
      loadingDuty := true;
      selected := Some(d);
      queried := d.id;
      if reply.Err? {
        expenses := [];
      } else {
        expenses := reply.value.GetOr([]);
      }
      loadingDuty := false;
    }
  }
}
