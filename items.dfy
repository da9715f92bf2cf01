/** The `quotation_items` table: line items keyed by the quotation they belong
    to. It has no owner column; a quotation's items are reached through the
    quotation, which is owner-scoped. */
module QuotationItems {
  import opened Common
  import opened Calculator

  datatype ItemRow = ItemRow(quotationId: Id, item: QuotationItem)

  /** `.select("*").eq("quotation_id", qid)`: the items of one quotation, in
      the order they were inserted. */
  function ItemsOf(t: seq<ItemRow>, qid: Id): (r: seq<QuotationItem>)
    ensures |r| <= |t|
  {
    if t == [] then []
    else (if t[0].quotationId == qid then [t[0].item] else []) + ItemsOf(t[1..], qid)
  }

  /** `.delete().eq("quotation_id", qid)`: every item of that quotation goes,
      every other row stays, in order. */
  function DeleteItemsOf(t: seq<ItemRow>, qid: Id): (r: seq<ItemRow>)
    ensures forall x :: x in r <==> x in t && x.quotationId != qid
  {
    if t == [] then []
    else (if t[0].quotationId == qid then [] else [t[0]]) + DeleteItemsOf(t[1..], qid)
  }

  /** `rows` is `items_data`: one row per item, tagged with `qid`, in the
      items' order. */
  predicate AreRowsFor(rows: seq<ItemRow>, qid: Id, items: seq<QuotationItem>) {
    |rows| == |items| && forall k :: 0 <= k < |rows| ==> rows[k] == ItemRow(qid, items[k])
  }

  /** The `for` loop that appends to `items_data` before the insert. */
  method BuildItemRows(qid: Id, items: seq<QuotationItem>) returns (rows: seq<ItemRow>)
    ensures AreRowsFor(rows, qid, items)
    ensures ItemsOf(rows, qid) == items
    ensures forall q :: q != qid ==> ItemsOf(rows, q) == []
  {
    rows := [];
    var i := 0;
    while i < |items|
      invariant 0 <= i <= |items|
      invariant AreRowsFor(rows, qid, items[..i])
    {
      rows := rows + [ItemRow(qid, items[i])];
      i := i + 1;
    }
    assert items[..i] == items;
    forall q ensures ItemsOf(rows, q) == if q == qid then items else [] {
      ItemsOfRows(rows, qid, items, q);
    }
  }

  lemma {:induction false} ItemsOfAppend(a: seq<ItemRow>, b: seq<ItemRow>, qid: Id)
    ensures ItemsOf(a + b, qid) == ItemsOf(a, qid) + ItemsOf(b, qid)
  {
    if a == [] {
      assert a + b == b;
    } else {
      var head := if a[0].quotationId == qid then [a[0].item] else [];
      assert (a + b)[0] == a[0];
      assert (a + b)[1..] == a[1..] + b;
      ItemsOfAppend(a[1..], b, qid);
      calc {
        ItemsOf(a + b, qid);
        head + ItemsOf(a[1..] + b, qid);
        head + (ItemsOf(a[1..], qid) + ItemsOf(b, qid));
        (head + ItemsOf(a[1..], qid)) + ItemsOf(b, qid);
        ItemsOf(a, qid) + ItemsOf(b, qid);
      }
    }
  }

  /** Freshly built rows hold exactly the given items for their quotation and
      nothing for any other. */
  lemma {:induction false} ItemsOfRows(rows: seq<ItemRow>, qid: Id, items: seq<QuotationItem>, q: Id)
    requires AreRowsFor(rows, qid, items)
    ensures ItemsOf(rows, q) == if q == qid then items else []
  {
    if rows != [] {
      assert AreRowsFor(rows[1..], qid, items[1..]);
      ItemsOfRows(rows[1..], qid, items[1..], q);
      if q == qid {
        assert items == [items[0]] + items[1..];
      }
    }
  }

  /** Deleting a quotation's items empties that quotation's list and leaves
      every other quotation's list as it was. */
  lemma {:induction false} ItemsOfAfterDelete(t: seq<ItemRow>, qid: Id, q: Id)
    ensures ItemsOf(DeleteItemsOf(t, qid), q) == if q == qid then [] else ItemsOf(t, q)
  {
    if t != [] {
      ItemsOfAfterDelete(t[1..], qid, q);
      var rest := DeleteItemsOf(t[1..], qid);
      if t[0].quotationId != qid {
        var r := DeleteItemsOf(t, qid);
        assert r == [t[0]] + rest;
        assert r[0] == t[0] && r[1..] == rest;
      } else {
        assert DeleteItemsOf(t, qid) == rest;
      }
    }
  }

  /** update_quotation's delete-then-insert of the items: afterwards the
      quotation has exactly the new items, in the order sent, and every other
      quotation keeps its own. */
  lemma ReplaceItems(t: seq<ItemRow>, qid: Id, rows: seq<ItemRow>, items: seq<QuotationItem>, q: Id)
    requires AreRowsFor(rows, qid, items)
    ensures ItemsOf(DeleteItemsOf(t, qid) + rows, q) == if q == qid then items else ItemsOf(t, q)
  {
    ItemsOfAppend(DeleteItemsOf(t, qid), rows, q);
    ItemsOfAfterDelete(t, qid, q);
    ItemsOfRows(rows, qid, items, q);
  }

  /** Appending the rows of a new quotation, whose id no row uses yet, gives
      it exactly its items and changes no other quotation's items. */
  lemma AttachItems(t: seq<ItemRow>, qid: Id, rows: seq<ItemRow>, items: seq<QuotationItem>, q: Id)
    requires AreRowsFor(rows, qid, items)
    requires forall k :: 0 <= k < |t| ==> t[k].quotationId != qid
    ensures ItemsOf(t + rows, q) == if q == qid then items else ItemsOf(t, q)
  {
    ItemsOfAppend(t, rows, q);
    ItemsOfRows(rows, qid, items, q);
    if q == qid {
      NoRowsNoItems(t, qid);
    }
  }

  /** A quotation no row points to has no items. */
  lemma {:induction false} NoRowsNoItems(t: seq<ItemRow>, qid: Id)
    requires forall k :: 0 <= k < |t| ==> t[k].quotationId != qid
    ensures ItemsOf(t, qid) == []
  {
    if t != [] {
      NoRowsNoItems(t[1..], qid);
    }
  }
}
