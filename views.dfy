/** What the quotation reads send back: the header row with its items under
    "items" and the joined customer under "customer". */
module Views {
  import opened Common
  import opened Tables
  import opened Calculator
  import opened Entities
  import opened QuotationItems
  import opened Joins

  /** A quotation with its items and customer; `customer` is `None` where
      nothing is embedded and the response carries `null`. */
  datatype QuotationView = QuotationView(row: Row<Quotation>, items: seq<QuotationItem>, customer: Option<Customer>)

  /** A row of the pending or paid payment lists: the header and its
      customer, without items. */
  datatype PaymentView = PaymentView(row: Row<Quotation>, customer: Option<Customer>)

  /** The customer a quotation points to, looked up among the customers of
      the quotation's owner: the corrected join, not the unfiltered embedding
      `CustomerJoinAsWritten` describes. */
  function CustomerOf(customers: seq<Row<Customer>>, q: Row<Quotation>): (r: Option<Customer>)
    ensures r.Some? <==> Owns(customers, q.data.customerId, q.userId)
    ensures r.Some? ==> Row(q.data.customerId, q.userId, r.value) in customers
  {
    var c := CustomerJoin(customers, q.data.customerId, q.userId);
    if c.Some? then Some(c.value.data) else None
  }

  function ViewOf(q: Row<Quotation>, items: seq<ItemRow>, customers: seq<Row<Customer>>): QuotationView {
    QuotationView(q, ItemsOf(items, q.id), CustomerOf(customers, q))
  }

  /** One view per header, in the headers' order. */
  function ViewsOf(qs: seq<Row<Quotation>>, items: seq<ItemRow>, customers: seq<Row<Customer>>): (vs: seq<QuotationView>)
    ensures |vs| == |qs|
    ensures forall i :: 0 <= i < |qs| ==> vs[i] == ViewOf(qs[i], items, customers)
  {
    if qs == [] then [] else [ViewOf(qs[0], items, customers)] + ViewsOf(qs[1..], items, customers)
  }

  function PaymentViewsOf(qs: seq<Row<Quotation>>, customers: seq<Row<Customer>>): (vs: seq<PaymentView>)
    ensures |vs| == |qs|
    ensures forall i :: 0 <= i < |qs| ==> vs[i] == PaymentView(qs[i], CustomerOf(customers, qs[i]))
  {
    if qs == [] then [] else [PaymentView(qs[0], CustomerOf(customers, qs[0]))] + PaymentViewsOf(qs[1..], customers)
  }

  /** `s` back to front: rows are kept in insertion order, so this is
      `.order("created_at", desc=True)`. */
  function Reversed<T>(s: seq<T>): (r: seq<T>)
    ensures |r| == |s|
    ensures forall i :: 0 <= i < |s| ==> r[i] == s[|s| - 1 - i]
  {
    if s == [] then [] else Reversed(s[1..]) + [s[0]]
  }
}
