/** The two summary endpoints, get_statistics and get_payment_statistics, and
    the filters behind the pending and paid payment lists. Each works on the
    caller's quotation rows. Amounts are exact reals, so the order in which
    they are added does not matter. */
module Statistics {
  import opened Common
  import opened Tables
  import opened Entities

  /** `sum(q["total"] for q in qs)`. */
  function SumTotals(qs: seq<Row<Quotation>>): real {
    if qs == [] then 0.0 else qs[0].data.total + SumTotals(qs[1..])
  }

  /** `.eq("payment_status", status)`: the rows with that payment status, in
      order. */
  function WithStatus(qs: seq<Row<Quotation>>, status: string): (r: seq<Row<Quotation>>)
    ensures forall x :: x in r <==> x in qs && x.data.paymentStatus == status
  {
    if qs == [] then []
    else (if qs[0].data.paymentStatus == status then [qs[0]] else []) + WithStatus(qs[1..], status)
  }

  /** `sum(q["total"] for q in qs if q.get("payment_status") == status)`.
      It is the sum of the list `.eq("payment_status", status)` returns: the
      revenue of get_statistics is the sum of what get_paid_payments lists,
      its pending figure the sum of what get_pending_payments lists. */
  function SumTotalsWhere(qs: seq<Row<Quotation>>, status: string): (r: real)
    ensures r == SumTotals(WithStatus(qs, status))
  {
    if qs == [] then 0.0
    else if qs[0].data.paymentStatus == status then
      SumTotalsPrepend(qs[0], WithStatus(qs[1..], status));
      qs[0].data.total + SumTotalsWhere(qs[1..], status)
    else
      assert WithStatus(qs, status) == WithStatus(qs[1..], status);
      SumTotalsWhere(qs[1..], status)
  }

  /** `sum(1 for q in qs if q.get("payment_status") == status)`: the length
      of the filtered list, so get_payment_statistics' overdue count is the
      length of what get_pending_payments lists. */
  function CountWhere(qs: seq<Row<Quotation>>, status: string): (n: nat)
    ensures n == |WithStatus(qs, status)|
  {
    if qs == [] then 0
    else (if qs[0].data.paymentStatus == status then 1 else 0) + CountWhere(qs[1..], status)
  }

  /** The row records a payment amount that Python takes as true: present,
      not null and not zero. */
  predicate HasRecordedAmount(q: Quotation) {
    q.paymentAmount.Some? && q.paymentAmount.value != 0.0
  }

  /** `q.get("payment_amount", 0) or q["total"]`: the recorded amount, unless
      it is missing, null or zero, in which case the total counts as received. */
  function Received(q: Quotation): (r: real)
    ensures HasRecordedAmount(q) ==> r == q.paymentAmount.value && r != 0.0
    ensures !HasRecordedAmount(q) ==> r == q.total
  {
    if HasRecordedAmount(q) then q.paymentAmount.value else q.total
  }

  /** `sum(Received(q) for q in qs if q.get("payment_status") == "paid")`.
      It splits into the amounts recorded on the paid rows that have one and
      the totals of the paid rows that do not. */
  function SumReceived(qs: seq<Row<Quotation>>): (r: real)
    ensures r == SumAmounts(PaidRows(qs, true)) + SumTotals(PaidRows(qs, false))
  {
    if qs == [] then 0.0
    else
      var h, rest := qs[0], SumReceived(qs[1..]);
      if h.data.paymentStatus == "paid" then
        var b := HasRecordedAmount(h.data);
        var s := PaidRows(qs[1..], b);
        assert PaidRows(qs, b) == [h] + s;
        assert ([h] + s)[0] == h && ([h] + s)[1..] == s;
        assert PaidRows(qs, !b) == PaidRows(qs[1..], !b);
        Received(h.data) + rest
      else
        assert PaidRows(qs, true) == PaidRows(qs[1..], true);
        assert PaidRows(qs, false) == PaidRows(qs[1..], false);
        rest
  }

  /** The paid rows that do (`recorded`) or do not record a payment amount,
      in order. */
  function PaidRows(qs: seq<Row<Quotation>>, recorded: bool): (r: seq<Row<Quotation>>)
    ensures forall x :: x in r <==>
      x in qs && x.data.paymentStatus == "paid" && HasRecordedAmount(x.data) == recorded
  {
    if qs == [] then []
    else (if qs[0].data.paymentStatus == "paid" && HasRecordedAmount(qs[0].data) == recorded then [qs[0]] else [])
         + PaidRows(qs[1..], recorded)
  }

  /** The sum of the recorded payment amounts, a missing one counting 0. */
  function SumAmounts(qs: seq<Row<Quotation>>): real {
    if qs == [] then 0.0 else qs[0].data.paymentAmount.GetOr(0.0) + SumAmounts(qs[1..])
  }

  lemma {:induction false} SumTotalsPrepend(h: Row<Quotation>, qs: seq<Row<Quotation>>)
    ensures SumTotals([h] + qs) == h.data.total + SumTotals(qs)
  {
    assert ([h] + qs)[0] == h && ([h] + qs)[1..] == qs;
  }

  /** The get_statistics response. */
  datatype Overview = Overview(
    totalCustomers: nat,
    totalProducts: nat,
    totalQuotations: nat,
    totalRevenue: real,
    pendingPayments: real)

  /** get_statistics over the caller's rows of the three tables. */
  function StatisticsOf<C, P>(customers: seq<Row<C>>, products: seq<Row<P>>, qs: seq<Row<Quotation>>): (s: Overview)
    ensures s.totalCustomers == |customers| && s.totalProducts == |products|
    ensures s.totalQuotations == |qs|
    ensures s.totalRevenue == SumTotals(WithStatus(qs, "paid"))
    ensures s.pendingPayments == SumTotals(WithStatus(qs, "unpaid"))
  {
    Overview(|customers|, |products|, |qs|, SumTotalsWhere(qs, "paid"), SumTotalsWhere(qs, "unpaid"))
  }

  /** The get_payment_statistics response. */
  datatype PaymentOverview = PaymentOverview(
    totalExpected: real,
    totalReceived: real,
    totalPending: real,
    overdueCount: nat)

  /** get_payment_statistics over the caller's quotation rows. The overdue
      count is the number of unpaid quotations; no date is consulted. */
  function PaymentStatisticsOf(qs: seq<Row<Quotation>>): (s: PaymentOverview)
    ensures s.totalExpected == SumTotals(qs)
    ensures s.totalReceived == SumAmounts(PaidRows(qs, true)) + SumTotals(PaidRows(qs, false))
    ensures s.totalPending == SumTotals(WithStatus(qs, "unpaid"))
    ensures s.overdueCount == |WithStatus(qs, "unpaid")|
  {
    PaymentOverview(SumTotals(qs), SumReceived(qs), SumTotalsWhere(qs, "unpaid"), CountWhere(qs, "unpaid"))
  }

  /** When every quotation is either paid or unpaid, the expected total is the
      revenue plus the pending amount. */
  lemma {:induction false} ExpectedIsRevenuePlusPending(qs: seq<Row<Quotation>>)
    requires forall i :: 0 <= i < |qs| ==> qs[i].data.paymentStatus in {"paid", "unpaid"}
    ensures SumTotals(qs) == SumTotalsWhere(qs, "paid") + SumTotalsWhere(qs, "unpaid")
  {
    if qs != [] {
      assert qs[0].data.paymentStatus in {"paid", "unpaid"};
      ExpectedIsRevenuePlusPending(qs[1..]);
    }
  }

  /** A paid quotation with no amount recorded (or an amount of zero) counts
      its total as received: when no paid row records a non-zero amount, the
      received figure of get_payment_statistics equals the revenue of
      get_statistics. */
  lemma {:induction false} ReceivedIsRevenueWithoutAmounts(qs: seq<Row<Quotation>>)
    requires forall i :: 0 <= i < |qs| && qs[i].data.paymentStatus == "paid" ==>
      qs[i].data.paymentAmount.None? || qs[i].data.paymentAmount == Some(0.0)
    ensures SumReceived(qs) == SumTotalsWhere(qs, "paid")
  {
    if qs != [] {
      ReceivedIsRevenueWithoutAmounts(qs[1..]);
    }
  }

  /** When every paid quotation records a non-zero amount, the received
      figure is the sum of those amounts and no total enters it. */
  lemma {:induction false} ReceivedIsRecordedAmounts(qs: seq<Row<Quotation>>)
    requires forall i :: 0 <= i < |qs| && qs[i].data.paymentStatus == "paid" ==> HasRecordedAmount(qs[i].data)
    ensures SumReceived(qs) == SumAmounts(WithStatus(qs, "paid"))
  {
    if qs != [] {
      ReceivedIsRecordedAmounts(qs[1..]);
      var s := WithStatus(qs[1..], "paid");
      if qs[0].data.paymentStatus == "paid" {
        assert WithStatus(qs, "paid") == [qs[0]] + s;
        assert ([qs[0]] + s)[0] == qs[0] && ([qs[0]] + s)[1..] == s;
      } else {
        assert WithStatus(qs, "paid") == s;
      }
    }
  }

  /** Recording a payment with status "paid" on the one unpaid quotation the
      filter finds moves its total from the pending figure to the revenue
      and leaves the number of quotations as it was. */
  lemma {:induction false} MarkingPaidMovesTotal(qs: seq<Row<Quotation>>, id: Id, uid: Id, p: PaymentUpdate, row: Row<Quotation>)
    requires SelectWhere(qs, id, uid) == [row]
    requires row.data.paymentStatus == "unpaid" && p.paymentStatus == "paid"
    ensures var qs' := UpdateWhere(qs, id, uid, PaymentPatch(p));
      && SumTotalsWhere(qs', "paid") == SumTotalsWhere(qs, "paid") + row.data.total
      && SumTotalsWhere(qs', "unpaid") == SumTotalsWhere(qs, "unpaid") - row.data.total
  {
    var qs' := UpdateWhere(qs, id, uid, PaymentPatch(p));
    assert qs'[1..] == UpdateWhere(qs[1..], id, uid, PaymentPatch(p));
    if Matches(qs[0], id, uid) {
      assert row == qs[0];
      assert SelectWhere(qs[1..], id, uid) == [];
      UpdateNothingMatched(qs[1..], id, uid, PaymentPatch(p));
      var q' := ApplyPayment(row.data, p);
      assert qs'[0].data == q' && q'.total == row.data.total && q'.paymentStatus == "paid";
      HeadMarkedPaid(qs, qs');
    } else {
      MarkingPaidMovesTotal(qs[1..], id, uid, p, row);
      SameHead(qs, qs', "paid");
      SameHead(qs, qs', "unpaid");
    }
  }

  /** Changing only the first row from unpaid to paid, its total unchanged,
      moves that total between the two sums. */
  lemma HeadMarkedPaid(qs: seq<Row<Quotation>>, qs': seq<Row<Quotation>>)
    requires qs != [] && qs' != [] && qs'[1..] == qs[1..]
    requires qs[0].data.paymentStatus == "unpaid" && qs'[0].data.paymentStatus == "paid"
    requires qs'[0].data.total == qs[0].data.total
    ensures SumTotalsWhere(qs', "paid") == SumTotalsWhere(qs, "paid") + qs[0].data.total
    ensures SumTotalsWhere(qs', "unpaid") == SumTotalsWhere(qs, "unpaid") - qs[0].data.total
  {
  }

  /** Two lists with the same first row differ in their sums as their tails do. */
  lemma SameHead(qs: seq<Row<Quotation>>, qs': seq<Row<Quotation>>, status: string)
    requires qs != [] && qs' != [] && qs'[0] == qs[0]
    ensures SumTotalsWhere(qs', status) - SumTotalsWhere(qs, status)
         == SumTotalsWhere(qs'[1..], status) - SumTotalsWhere(qs[1..], status)
  {
  }
}
