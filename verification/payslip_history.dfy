/**
 * The payslip history screen: the list controller alone, with the "Showing X to Y of Z" text,
 * the page count handed to the pager and the choice of table body.
 */
module PayslipHistory {
  import opened Wrappers
  import opened Paging
  import opened Envelope
  import opened ListController

  /** A listed payslip, with the member the status column shows. */
  datatype HistoryRecord = HistoryRecord(id: nat, paidStatus: bool)

  /** `isLoading` starts true and `fetchPayrollHistory` never raises it. */
  const HistoryConfig := Config(HistoryKeys, true, false)

  class PayslipScreen {
    const list: ListState<HistoryRecord>

    predicate Valid()
      reads this, list
    {
      list.cfg == HistoryConfig && list.Valid()
    }

    constructor ()
      ensures Valid() && fresh(list)
      ensures list.View() == Mounted(HistoryConfig)
    {
      list := new ListState(HistoryConfig);
    }

    /** `totalPages` handed to the pager, once the total is known. */
    function TotalPages(): (n: Option<nat>)
      reads this, list
      requires Valid()
      ensures n.Some? <==> list.total.Some?
      ensures n.Some? ==> n.value == PageCount(list.total.value, list.perPage)
      ensures n.Some? ==> forall p :: 1 <= p <= n.value <==> Accepts(p, list.total, list.perPage)
    {
      match list.total
      case None => None
      case Some(t) => Some(PageCount(t, list.perPage))
    }

    /** "Showing X to Y of Z records", once the total is known. */
    function ShowingText(): (r: Option<Range>)
      reads this, list
      requires Valid()
      ensures r.Some? <==> list.total.Some?
      ensures r.Some? ==> r.value == Showing(list.page, list.perPage, list.total.value)
      ensures r.Some? && list.total.value > 0 && Accepts(list.page, list.total, list.perPage) ==>
        1 <= r.value.first <= r.value.last <= list.total.value
    {
      match list.total
      case None => None
      case Some(t) => Some(Showing(list.page, list.perPage, t))
    }

    /** The table body for the rows the pager selects. */
    function Body(visible: seq<HistoryRecord>): (b: Body)
      reads list
      ensures b == LoadingRow <==> list.loading
      ensures b == NoDataRow <==> !list.loading && visible == []
    {
      TableBody(list.loading, |visible|)
    }
  }
}
