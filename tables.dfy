/** The owner-scoped tables (customers, products, quotations, reminders) as
    the database sees them: rows in insertion order, each with its id and the
    id of the user who owns it. The endpoints only ever touch them through
    the filters below, which mirror the query builder's
    `.eq("id", id).eq("user_id", uid)` and `.eq("user_id", uid)`: a filter
    picks out every matching row, and an update or delete acts on all of them. */
module Tables {
  import opened Common

  datatype Row<D> = Row(id: Id, userId: Id, data: D)

  /** The row passes `.eq("id", id).eq("user_id", uid)`. */
  predicate Matches<D(!new)>(r: Row<D>, id: Id, uid: Id) {
    r.id == id && r.userId == uid
  }

  /** The table holds row `id` and it belongs to `uid`. */
  predicate Owns<D(!new)>(t: seq<Row<D>>, id: Id, uid: Id) {
    exists i :: 0 <= i < |t| && Matches(t[i], id, uid)
  }

  /** `.select("*").eq("user_id", uid)`: the user's rows, in table order. */
  function OwnedBy<D(!new)>(t: seq<Row<D>>, uid: Id): (r: seq<Row<D>>)
    ensures |r| <= |t|
    ensures forall x :: x in r <==> x in t && x.userId == uid
  {
    if t == [] then []
    else (if t[0].userId == uid then [t[0]] else []) + OwnedBy(t[1..], uid)
  }

  /** The position of the first row the filter matches. */
  function FindIndex<D(!new)>(t: seq<Row<D>>, id: Id, uid: Id): (k: nat)
    requires Owns(t, id, uid)
    ensures k < |t| && Matches(t[k], id, uid)
    ensures forall j :: 0 <= j < k ==> !Matches(t[j], id, uid)
  {
    if Matches(t[0], id, uid) then 0
    else
      assert Owns(t[1..], id, uid) by {
        var i :| 0 <= i < |t| && Matches(t[i], id, uid);
        assert t[1..][i - 1] == t[i];
      }
      1 + FindIndex(t[1..], id, uid)
  }

  /** `.select("*").eq("id", id).eq("user_id", uid)`: the rows with this id
      that belong to this user. Nothing is returned exactly when the user
      owns no such row. */
  function SelectWhere<D(!new)>(t: seq<Row<D>>, id: Id, uid: Id): (r: seq<Row<D>>)
    ensures forall x :: x in r <==> x in t && Matches(x, id, uid)
    ensures |r| == 0 <==> !Owns(t, id, uid)
  {
    if t == [] then []
    else
      var rest := SelectWhere(t[1..], id, uid);
      assert Owns(t, id, uid) <==> Matches(t[0], id, uid) || Owns(t[1..], id, uid) by {
        if Owns(t[1..], id, uid) {
          var i :| 0 <= i < |t[1..]| && Matches(t[1..][i], id, uid);
          assert t[i + 1] == t[1..][i];
        }
        if Owns(t, id, uid) && !Matches(t[0], id, uid) {
          var i :| 0 <= i < |t| && Matches(t[i], id, uid);
          assert t[1..][i - 1] == t[i];
        }
      }
      (if Matches(t[0], id, uid) then [t[0]] else []) + rest
  }

  /** `.update(...).eq("id", id).eq("user_id", uid)`: every matching row's
      data is passed through `f`; every other row, and every id and owner,
      stays as it was. */
  function UpdateWhere<D(!new)>(t: seq<Row<D>>, id: Id, uid: Id, f: D -> D): (r: seq<Row<D>>)
    ensures |r| == |t|
    ensures forall i :: 0 <= i < |t| ==> r[i].id == t[i].id && r[i].userId == t[i].userId
    ensures forall i :: 0 <= i < |t| && !Matches(t[i], id, uid) ==> r[i] == t[i]
    ensures forall i :: 0 <= i < |t| && Matches(t[i], id, uid) ==> r[i].data == f(t[i].data)
  {
    if t == [] then []
    else
      [if Matches(t[0], id, uid) then Row(id, uid, f(t[0].data)) else t[0]]
      + UpdateWhere(t[1..], id, uid, f)
  }

  /** `.delete().eq("id", id).eq("user_id", uid)`: the rows that do not
      match stay, in order; exactly the matching ones go. */
  function DeleteWhere<D(!new)>(t: seq<Row<D>>, id: Id, uid: Id): (r: seq<Row<D>>)
    ensures forall x :: x in r <==> x in t && !Matches(x, id, uid)
    ensures |r| + |SelectWhere(t, id, uid)| == |t|
    ensures !Owns(t, id, uid) ==> r == t
  {
    if t == [] then []
    else (if Matches(t[0], id, uid) then [] else [t[0]]) + DeleteWhere(t[1..], id, uid)
  }

  /** After a delete the user owns no row with that id. */
  lemma DeleteRemovesAll<D(!new)>(t: seq<Row<D>>, id: Id, uid: Id)
    ensures !Owns(DeleteWhere(t, id, uid), id, uid)
  {
    var r := DeleteWhere(t, id, uid);
    forall i | 0 <= i < |r| ensures !Matches(r[i], id, uid) {
      assert r[i] in r;
    }
  }

  /** An update that matches nothing leaves the table as it was. */
  lemma UpdateNothingMatched<D(!new)>(t: seq<Row<D>>, id: Id, uid: Id, f: D -> D)
    requires !Owns(t, id, uid)
    ensures UpdateWhere(t, id, uid, f) == t
  {
    var r := UpdateWhere(t, id, uid, f);
    forall i | 0 <= i < |t| ensures r[i] == t[i] {
      assert !Matches(t[i], id, uid);
    }
  }

  /** After the update, the filter finds the rows it found before, now
      carrying their new data: the update matched exactly when the user owned
      the row. */
  lemma UpdateKeepsOwnership<D(!new)>(t: seq<Row<D>>, id: Id, uid: Id, f: D -> D)
    ensures Owns(UpdateWhere(t, id, uid, f), id, uid) <==> Owns(t, id, uid)
  {
    var r := UpdateWhere(t, id, uid, f);
    if Owns(t, id, uid) {
      var i :| 0 <= i < |t| && Matches(t[i], id, uid);
      assert Matches(r[i], id, uid);
    }
    if Owns(r, id, uid) {
      var i :| 0 <= i < |r| && Matches(r[i], id, uid);
      assert Matches(t[i], id, uid);
    }
  }

  /** Each row an update returns is the image under `f` of a row the caller
      owned before. */
  lemma UpdatedRowsComeFromOwnedRows<D(!new)>(t: seq<Row<D>>, id: Id, uid: Id, f: D -> D, x: Row<D>)
    requires x in SelectWhere(UpdateWhere(t, id, uid, f), id, uid)
    ensures exists i :: 0 <= i < |t| && Matches(t[i], id, uid) && x == Row(id, uid, f(t[i].data))
  {
    var r := UpdateWhere(t, id, uid, f);
    var i :| 0 <= i < |r| && r[i] == x;
    assert Matches(t[i], id, uid);
  }

  lemma {:induction false} OwnedByAppend<D(!new)>(a: seq<Row<D>>, b: seq<Row<D>>, uid: Id)
    ensures OwnedBy(a + b, uid) == OwnedBy(a, uid) + OwnedBy(b, uid)
  {
    if a == [] {
      assert a + b == b;
    } else {
      assert (a + b)[0] == a[0];
      assert (a + b)[1..] == a[1..] + b;
      OwnedByAppend(a[1..], b, uid);
    }
  }

  /** What a user's filter returns is decided by that user's rows alone:
      looking up a row by id among all rows or among the caller's rows gives
      the same answer, so no other tenant's row can be read. */
  lemma {:induction false} SelectSeesOnlyOwnRows<D(!new)>(t: seq<Row<D>>, id: Id, uid: Id)
    ensures SelectWhere(t, id, uid) == SelectWhere(OwnedBy(t, uid), id, uid)
  {
    if t != [] {
      var o, ot := OwnedBy(t, uid), OwnedBy(t[1..], uid);
      SelectSeesOnlyOwnRows(t[1..], id, uid);
      if t[0].userId == uid {
        assert o == [t[0]] + ot;
        assert o[0] == t[0] && o[1..] == ot;
        calc {
          SelectWhere(o, id, uid);
          (if Matches(t[0], id, uid) then [t[0]] else []) + SelectWhere(ot, id, uid);
          (if Matches(t[0], id, uid) then [t[0]] else []) + SelectWhere(t[1..], id, uid);
          SelectWhere(t, id, uid);
        }
      } else {
        assert o == ot;
        assert SelectWhere(t, id, uid) == SelectWhere(t[1..], id, uid);
      }
    }
  }

  /** Two tables that agree on a user's rows give that user the same lookup
      results, however the other tenants' rows differ. */
  lemma SelectNoninterference<D(!new)>(t1: seq<Row<D>>, t2: seq<Row<D>>, id: Id, uid: Id)
    requires OwnedBy(t1, uid) == OwnedBy(t2, uid)
    ensures SelectWhere(t1, id, uid) == SelectWhere(t2, id, uid)
  {
    SelectSeesOnlyOwnRows(t1, id, uid);
    SelectSeesOnlyOwnRows(t2, id, uid);
  }

  /** An update filtered by `uid` leaves every other user's rows exactly as
      they were. */
  lemma {:induction false} UpdateIsolation<D(!new)>(t: seq<Row<D>>, id: Id, uid: Id, f: D -> D, other: Id)
    requires other != uid
    ensures OwnedBy(UpdateWhere(t, id, uid, f), other) == OwnedBy(t, other)
  {
    if t != [] {
      var r := UpdateWhere(t, id, uid, f);
      assert r[1..] == UpdateWhere(t[1..], id, uid, f);
      UpdateIsolation(t[1..], id, uid, f, other);
      if t[0].userId == other {
        assert r[0] == t[0];
      }
    }
  }

  /** A delete filtered by `uid` leaves every other user's rows exactly as
      they were. */
  lemma {:induction false} DeleteIsolation<D(!new)>(t: seq<Row<D>>, id: Id, uid: Id, other: Id)
    requires other != uid
    ensures OwnedBy(DeleteWhere(t, id, uid), other) == OwnedBy(t, other)
  {
    if t != [] {
      var rest := DeleteWhere(t[1..], id, uid);
      DeleteIsolation(t[1..], id, uid, other);
      if Matches(t[0], id, uid) {
        assert DeleteWhere(t, id, uid) == rest;
      } else {
        var r := DeleteWhere(t, id, uid);
        assert r == [t[0]] + rest;
        assert r[0] == t[0] && r[1..] == rest;
      }
    }
  }

  /** Updating the whole table and then taking a user's rows is the same as
      updating that user's rows alone. */
  lemma {:induction false} UpdateCommutesWithOwnedBy<D(!new)>(t: seq<Row<D>>, id: Id, uid: Id, f: D -> D, u: Id)
    ensures OwnedBy(UpdateWhere(t, id, uid, f), u) == UpdateWhere(OwnedBy(t, u), id, uid, f)
  {
    if t != [] {
      var r, o := UpdateWhere(t, id, uid, f), OwnedBy(t, u);
      assert r[1..] == UpdateWhere(t[1..], id, uid, f);
      UpdateCommutesWithOwnedBy(t[1..], id, uid, f, u);
      if t[0].userId == u {
        assert o == [t[0]] + OwnedBy(t[1..], u);
        assert o[0] == t[0] && o[1..] == OwnedBy(t[1..], u);
      }
    }
  }

  /** Inserting a row for `uid` leaves every other user's rows as they were. */
  lemma InsertIsolation<D(!new)>(t: seq<Row<D>>, row: Row<D>, other: Id)
    requires row.userId != other
    ensures OwnedBy(t + [row], other) == OwnedBy(t, other)
  {
    OwnedByAppend(t, [row], other);
    assert OwnedBy([row], other) == [];
  }

  // ------------------------------------------------------------ primary keys

  predicate IdsBelow<D(!new)>(t: seq<Row<D>>, bound: Id) {
    forall i :: 0 <= i < |t| ==> t[i].id < bound
  }

  /** The id column is a primary key. */
  predicate UniqueIds<D(!new)>(t: seq<Row<D>>) {
    forall i, j :: 0 <= i < j < |t| ==> t[i].id != t[j].id
  }

  /** Every key is below the next one to be handed out, and keys are distinct. */
  predicate WellKeyed<D(!new)>(t: seq<Row<D>>, next: Id) {
    IdsBelow(t, next) && UniqueIds(t)
  }

  lemma UpdateKeepsKeys<D(!new)>(t: seq<Row<D>>, id: Id, uid: Id, f: D -> D, next: Id)
    requires WellKeyed(t, next)
    ensures WellKeyed(UpdateWhere(t, id, uid, f), next)
  {
  }

  lemma DeleteKeepsKeys<D(!new)>(t: seq<Row<D>>, id: Id, uid: Id, next: Id)
    requires WellKeyed(t, next)
    ensures WellKeyed(DeleteWhere(t, id, uid), next)
  {
    var r := DeleteWhere(t, id, uid);
    forall i | 0 <= i < |r| ensures r[i].id < next {
      assert r[i] in t;
    }
    DeleteKeepsUnique(t, id, uid);
  }

  lemma {:induction false} DeleteKeepsUnique<D(!new)>(t: seq<Row<D>>, id: Id, uid: Id)
    requires UniqueIds(t)
    ensures UniqueIds(DeleteWhere(t, id, uid))
  {
    if t != [] {
      var r, rest := DeleteWhere(t, id, uid), DeleteWhere(t[1..], id, uid);
      DeleteKeepsUnique(t[1..], id, uid);
      if !Matches(t[0], id, uid) {
        assert r == [t[0]] + rest;
        forall j | 0 <= j < |rest| ensures rest[j].id != t[0].id {
          assert rest[j] in t[1..];
          var k :| 0 <= k < |t[1..]| && t[1..][k] == rest[j];
          assert t[k + 1] == rest[j];
        }
      }
    }
  }

  lemma InsertKeepsKeys<D(!new)>(t: seq<Row<D>>, row: Row<D>, next: Id)
    requires WellKeyed(t, next) && row.id == next
    ensures WellKeyed(t + [row], next + 1)
  {
  }

  /** With a primary key, the id-and-owner filter finds at most one row. */
  lemma {:induction false} SelectAtMostOne<D(!new)>(t: seq<Row<D>>, id: Id, uid: Id)
    requires UniqueIds(t)
    ensures |SelectWhere(t, id, uid)| <= 1
  {
    if t != [] {
      SelectAtMostOne(t[1..], id, uid);
      if Matches(t[0], id, uid) {
        assert !Owns(t[1..], id, uid) by {
          forall i | 0 <= i < |t[1..]| ensures !Matches(t[1..][i], id, uid) {
            assert t[1..][i] == t[i + 1];
          }
        }
      }
    }
  }
}
