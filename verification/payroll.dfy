/**
 * The payroll list screen: the list controller, the month selector and the "make payment"
 * confirm gate.
 */
module Payroll {
  import opened Wrappers
  import opened Envelope
  import opened ListController
  import opened ConfirmGate

  /** A listed payroll entry, with the member the status column shows. */
  datatype PayrollRecord = PayrollRecord(payrollId: nat, paidStatus: bool)

  /** The JSON values a request body is made of here. */
  datatype Json = JBool(b: bool) | JObject(members: map<string, Json>)

  /** The argument the screen passes: `{ paid_status: true }`. */
  const PaidArgument := JObject(map["paid_status" := JBool(true)])

  /** The body `updatePayrollStatus(id, paidStatus)` puts on the wire: `{ paid_status: paidStatus }`. */
  function StatusRequestBody(paidStatus: Json): (body: Json)
    ensures body.JObject? && body.members.Keys == {"paid_status"}
    ensures body.members["paid_status"] == paidStatus
  {
    JObject(map["paid_status" := paidStatus])
  }

  /**
   * Because the screen already wraps the flag and the API helper wraps its argument again, the
   * body sent on confirmation is `{ paid_status: { paid_status: true } }`: its `paid_status`
   * member is an object, not the boolean `true`.
   */
  lemma ConfirmationBodyIsNested()
    ensures var body := StatusRequestBody(PaidArgument);
      body.members["paid_status"] != JBool(true)
      && body.members["paid_status"].members["paid_status"] == JBool(true)
  {
  }

  /** The status column's text, shared with the payslip history. */
  function PaidLabel(paidStatus: bool): (s: string)
    ensures s == "Paid" <==> paidStatus
    ensures s == "Paid" || s == "Unpaid"
  {
    if paidStatus then "Paid" else "Unpaid"
  }

  /** `isLoading` starts true and `fetchPayrolls` never raises it. */
  const PayrollConfig := Config(PayrollKeys, true, false)

  const DefaultMonth := "2024-03"

  class PayrollScreen {
    const list: ListState<PayrollRecord>
    var selectedMonth: string
    var paymentGate: Gate

    predicate Valid()
      reads this, list
    {
      list.cfg == PayrollConfig && list.Valid() && paymentGate.Valid()
    }

    constructor ()
      ensures Valid() && fresh(list)
      ensures list.View() == Mounted(PayrollConfig)
      ensures selectedMonth == DefaultMonth && paymentGate == Idle
    {
      list := new ListState(PayrollConfig);
      selectedMonth, paymentGate := DefaultMonth, Idle;
    }

    /**
     * `handleMonthChange`: only the month changes. It is neither a request parameter nor an
     * effect dependency, so no request is issued. No element of the screen calls this handler,
     * so in the program the month stays `DefaultMonth`; the method states what a call would do.
     */
    method MonthChange(month: string)
      modifies this`selectedMonth
      ensures selectedMonth == month
    {
      selectedMonth := month;
    }

    /** `openPaymentModal(id)`. */
    method OpenPaymentModal(id: nat)
      requires Valid()
      modifies this`paymentGate
      ensures Valid() && paymentGate == old(paymentGate).Request(id)
    {
      paymentGate := paymentGate.Request(id);
    }

    /** `closePaymentModal`: the stored id stays. */
    method ClosePaymentModal()
      requires Valid()
      modifies this`paymentGate
      ensures Valid() && paymentGate == old(paymentGate).Close()
    {
      paymentGate := paymentGate.Close();
    }

    /**
     * `handleConfirmPayment`: the stored id is marked paid. On success the modal closes and the
     * list is fetched again (without raising loading); on failure the modal stays open.
     */
    method ConfirmPayment(succeeded: bool) returns (target: nat, body: Json)
      requires Valid() && paymentGate.open
      modifies this`paymentGate, list
      ensures Valid()
      ensures old(paymentGate).selected == Some(target)
      ensures body == StatusRequestBody(PaidArgument)
      ensures succeeded ==>
        && paymentGate == old(paymentGate).Close()
        && list.View() == FetchStarted(PayrollConfig, old(list.View()))
      ensures !succeeded ==> paymentGate == old(paymentGate) && list.View() == old(list.View())
    {
      target := paymentGate.selected.value;
      body := StatusRequestBody(PaidArgument);
      if succeeded {
        ClosePaymentModal();
        list.BeginFetch();
      }
    }
  }
}
