/** The `customers(*)` embedding in the quotation reads: each quotation comes
    back with the customer row its `customer_id` points to. The database is
    reached with the service key, so no row-level policy stands between a
    quotation and a customer of another user, and nothing checks
    `customer_id` when a quotation is created or updated. */
module Joins {
  import opened Common
  import opened Tables
  import opened Entities

  /** The embedding as written: the first customer row with that id, whoever
      owns it; `None` (the endpoint's `null`) when there is none. */
  function CustomerJoinAsWritten(customers: seq<Row<Customer>>, cid: Id): (r: Option<Row<Customer>>)
    ensures r.Some? ==> r.value in customers && r.value.id == cid
    ensures r.None? ==> forall i :: 0 <= i < |customers| ==> customers[i].id != cid
  {
    if customers == [] then None
    else if customers[0].id == cid then Some(customers[0])
    else CustomerJoinAsWritten(customers[1..], cid)
  }

  /** The embedding restricted to the caller's customers, as every other read
      is: the customer row with that id owned by `uid`, or `None`. */
  function CustomerJoin(customers: seq<Row<Customer>>, cid: Id, uid: Id): (r: Option<Row<Customer>>)
    ensures r.Some? ==> r.value in customers && Matches(r.value, cid, uid)
    ensures r.None? <==> !Owns(customers, cid, uid)
  {
    var found := SelectWhere(customers, cid, uid);
    if found == [] then None
    else
      assert found[0] in found;
      Some(found[0])
  }

  /** Whatever the other tenants' customers are, the corrected join shows the
      caller the same thing. */
  lemma CustomerJoinIsolated(customers1: seq<Row<Customer>>, customers2: seq<Row<Customer>>, cid: Id, uid: Id)
    requires OwnedBy(customers1, uid) == OwnedBy(customers2, uid)
    ensures CustomerJoin(customers1, cid, uid) == CustomerJoin(customers2, cid, uid)
  {
    SelectNoninterference(customers1, customers2, cid, uid);
  }

  /** On a quotation that points to one of the caller's own customers, the
      two joins agree: the correction only changes what a quotation pointing
      at another user's customer shows. */
  lemma JoinsAgreeOnOwnCustomer(customers: seq<Row<Customer>>, cid: Id, uid: Id)
    requires UniqueIds(customers) && Owns(customers, cid, uid)
    ensures CustomerJoin(customers, cid, uid) == CustomerJoinAsWritten(customers, cid)
  {
    var r := CustomerJoin(customers, cid, uid);
    var w := CustomerJoinAsWritten(customers, cid);
    var i :| 0 <= i < |customers| && customers[i] == r.value;
    var j :| 0 <= j < |customers| && customers[j] == w.value;
    assert customers[i].id == customers[j].id;
  }

  /** The leak: user 1 stores a quotation whose `customer_id` is 7, the id of
      a customer that belongs to user 2. Reading the quotation back, user 1
      is shown user 2's customer as written, and nothing once corrected. */
  lemma CrossTenantCustomerShown()
    ensures var secret := Customer("Rival Ltd", Some("ceo@rival.example"), None, None, None, None, None, None);
            var customers := [Row(7, 2, secret)];
            && CustomerJoinAsWritten(customers, 7) == Some(Row(7, 2, secret))
            && CustomerJoin(customers, 7, 1) == None
  {
    var secret := Customer("Rival Ltd", Some("ceo@rival.example"), None, None, None, None, None, None);
    var customers := [Row(7, 2, secret)];
    assert !Matches(customers[0], 7, 1);
  }
}
