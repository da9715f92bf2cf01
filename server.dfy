/** The API endpoints over one in-memory store of the backend's tables.
    Each endpoint is a method (when it writes) or a function (when it only
    reads) of `Store`; the caller's identity is the user id carried by a
    valid token, and every endpoint first checks that the user still exists. */
module Server {
  import opened Common
  import opened Numbering
  import opened Calculator
  import opened Entities
  import opened Tables
  import opened QuotationItems
  import opened Categories
  import opened Statistics
  import opened Joins
  import opened Views

  /** get_current_user's answer when the token's user id has no row. */
  const UserNotFound := Unauthorized("User not found")

  /** Every stored header carries the amounts the calculator gives for its
      stored items, its discount and its rate. */
  predicate HeadersMatchItems(qs: seq<Row<Quotation>>, items: seq<ItemRow>) {
    forall i :: 0 <= i < |qs| ==> AmountsDerived(qs[i].data, ItemsOf(items, qs[i].id))
  }

  /** No item row points to an id at or above `next`. */
  predicate ItemsBelow(items: seq<ItemRow>, next: Id) {
    forall k :: 0 <= k < |items| ==> items[k].quotationId < next
  }

  /** A new header whose amounts come from its items, stored together with
      those items under a fresh id, keeps every header's amounts derived. */
  lemma CreateKeepsHeadersMatch(qs: seq<Row<Quotation>>, items: seq<ItemRow>, row: Row<Quotation>,
                                rows: seq<ItemRow>, its: seq<QuotationItem>)
    requires HeadersMatchItems(qs, items) && IdsBelow(qs, row.id) && ItemsBelow(items, row.id)
    requires AreRowsFor(rows, row.id, its) && AmountsDerived(row.data, its)
    ensures HeadersMatchItems(qs + [row], items + rows)
  {
    var qs', items' := qs + [row], items + rows;
    forall i | 0 <= i < |qs'| ensures AmountsDerived(qs'[i].data, ItemsOf(items', qs'[i].id)) {
      AttachItems(items, row.id, rows, its, qs'[i].id);
    }
  }

  /** update_quotation's header rewrite followed by its delete-and-insert of
      the items keeps every header's amounts derived. */
  lemma UpdateKeepsHeadersMatch(qs: seq<Row<Quotation>>, items: seq<ItemRow>, id: Id, uid: Id,
                                req: QuotationRequest, rows: seq<ItemRow>)
    requires HeadersMatchItems(qs, items) && UniqueIds(qs) && Owns(qs, id, uid)
    requires AreRowsFor(rows, id, req.items)
    ensures HeadersMatchItems(UpdateWhere(qs, id, uid, QuotationPatch(req)), DeleteItemsOf(items, id) + rows)
  {
    var qs', items' := UpdateWhere(qs, id, uid, QuotationPatch(req)), DeleteItemsOf(items, id) + rows;
    var k :| 0 <= k < |qs| && Matches(qs[k], id, uid);
    forall i | 0 <= i < |qs'| ensures AmountsDerived(qs'[i].data, ItemsOf(items', qs'[i].id)) {
      ReplaceItems(items, id, rows, req.items, qs[i].id);
      if i != k {
        assert qs[i].id != id;
      }
    }
  }

  /** update_quotation's writes, taken together, keep the quotation and item
      tables well formed and give the quotation exactly the new items. */
  lemma ReplaceQuotationKeepsTables(qs: seq<Row<Quotation>>, items: seq<ItemRow>, id: Id, uid: Id,
                                    req: QuotationRequest, rows: seq<ItemRow>, next: Id)
    requires WellKeyed(qs, next) && ItemsBelow(items, next) && HeadersMatchItems(qs, items)
    requires Owns(qs, id, uid) && AreRowsFor(rows, id, req.items)
    ensures var qs', items' := UpdateWhere(qs, id, uid, QuotationPatch(req)), DeleteItemsOf(items, id) + rows;
      && WellKeyed(qs', next) && ItemsBelow(items', next) && HeadersMatchItems(qs', items')
      && ItemsOf(items', id) == req.items
      && forall q :: q != id ==> ItemsOf(items', q) == ItemsOf(items, q)
  {
    var d := DeleteItemsOf(items, id);
    forall k | 0 <= k < |d| ensures d[k].quotationId < next {
      assert d[k] in d;
    }
    UpdateKeepsKeys(qs, id, uid, QuotationPatch(req), next);
    UpdateKeepsHeadersMatch(qs, items, id, uid, req, rows);
    forall q ensures ItemsOf(d + rows, q) == if q == id then req.items else ItemsOf(items, q) {
      ReplaceItems(items, id, rows, req.items, q);
    }
  }

  /** A payment update keeps every header's amounts derived. */
  lemma PaymentKeepsHeadersMatch(qs: seq<Row<Quotation>>, items: seq<ItemRow>, id: Id, uid: Id, p: PaymentUpdate)
    requires HeadersMatchItems(qs, items)
    ensures HeadersMatchItems(UpdateWhere(qs, id, uid, PaymentPatch(p)), items)
  {
    var qs' := UpdateWhere(qs, id, uid, PaymentPatch(p));
    forall i | 0 <= i < |qs'| ensures AmountsDerived(qs'[i].data, ItemsOf(items, qs'[i].id)) {
      PaymentKeepsAmountsDerived(qs[i].data, p, ItemsOf(items, qs[i].id));
    }
  }

  /** Removing headers keeps the remaining ones derived. */
  lemma DeleteKeepsHeadersMatch(qs: seq<Row<Quotation>>, items: seq<ItemRow>, id: Id, uid: Id)
    requires HeadersMatchItems(qs, items)
    ensures HeadersMatchItems(DeleteWhere(qs, id, uid), items)
  {
    var qs' := DeleteWhere(qs, id, uid);
    forall i | 0 <= i < |qs'| ensures AmountsDerived(qs'[i].data, ItemsOf(items, qs'[i].id)) {
      assert qs'[i] in qs;
    }
  }

  lemma KeysStayBelow<D(!new)>(t: seq<Row<D>>, next: Id)
    requires WellKeyed(t, next)
    ensures WellKeyed(t, next + 1)
  {
  }

  class Store {
    /** `users`, keyed by id. */
    var users: map<Id, User>
    var customers: seq<Row<Customer>>
    var products: seq<Row<Product>>
    var quotations: seq<Row<Quotation>>
    var quotationItems: seq<ItemRow>
    var reminders: seq<Row<Reminder>>
    /** The next id the database hands out; ids are never reused. */
    var nextId: Id

    ghost predicate Valid()
      reads this
    {
      && (forall u :: u in users ==> u < nextId)
      && (forall a, b :: a in users && b in users && a != b ==> users[a].email != users[b].email)
      && WellKeyed(customers, nextId) && WellKeyed(products, nextId)
      && WellKeyed(quotations, nextId) && WellKeyed(reminders, nextId)
      && ItemsBelow(quotationItems, nextId)
      && HeadersMatchItems(quotations, quotationItems)
    }

    constructor ()
      ensures Valid()
      ensures users == map[] && customers == [] && products == [] && quotations == []
      ensures quotationItems == [] && reminders == []
    {
      users := map[];
      customers := [];
      products := [];
      quotations := [];
      quotationItems := [];
      reminders := [];
      nextId := 0;
    }

    // ------------------------------------------------------------ auth

    /** register: a new user with the free plan, unless the email is taken.
        The password arrives already hashed. */
    method Register(email: string, passwordHash: string, fullName: string) returns (r: Result<Id>)
      requires Valid()
      modifies this`users, this`nextId
      ensures Valid()
      ensures (exists u :: u in old(users) && old(users)[u].email == email) ==>
        r == Err(BadRequest("Email already registered")) && users == old(users) && nextId == old(nextId)
      ensures (forall u :: u in old(users) ==> old(users)[u].email != email) ==>
        && r == Ok(old(nextId)) && old(nextId) !in old(users)
        && users == old(users)[old(nextId) := NewUser(email, passwordHash, fullName)]
        && nextId == old(nextId) + 1
    {
      if exists u :: u in users && users[u].email == email {
        return Err(BadRequest("Email already registered"));
      }
      var id := nextId;
      users := users[id := NewUser(email, passwordHash, fullName)];
      nextId := nextId + 1;
      KeysStayBelow(customers, id);
      KeysStayBelow(products, id);
      KeysStayBelow(quotations, id);
      KeysStayBelow(reminders, id);
      r := Ok(id);
    }

    /** update_settings: writes the fields sent as something other than
        null; a body with none of them is refused. */
    method UpdateSettings(uid: Id, s: SettingsUpdate) returns (r: Result<User>)
      requires Valid()
      modifies this`users
      ensures Valid()
      ensures uid !in old(users) ==> r == Err(UserNotFound) && users == old(users)
      ensures uid in old(users) && NothingSupplied(s) ==>
        r == Err(BadRequest("No data to update")) && users == old(users)
      ensures uid in old(users) && !NothingSupplied(s) ==>
        r == Ok(ApplySettings(old(users)[uid], s)) && users == old(users)[uid := r.value]
    {
      if uid !in users {
        return Err(UserNotFound);
      }
      var supplied := s.fullName.Some? || s.company.Some? || s.phone.Some?
        || s.companyLogo.Some? || s.companyAddress.Some? || s.companyTaxNumber.Some?
        || s.companyTaxOffice.Some? || s.defaultTaxRate.Some? || s.designSettings.Some?;
      if !supplied {
        assert NothingSupplied(s) by {
          forall f ensures !IsSupplied(s, f) {
            match f
            case FullName =>
            case Company =>
            case Phone =>
            case CompanyLogo =>
            case CompanyAddress =>
            case CompanyTaxNumber =>
            case CompanyTaxOffice =>
            case DefaultTaxRate =>
            case DesignSettings =>
          }
        }
        return Err(BadRequest("No data to update"));
      }
      assert !NothingSupplied(s) by {
        assert IsSupplied(s, FullName) || IsSupplied(s, Company) || IsSupplied(s, Phone)
          || IsSupplied(s, CompanyLogo) || IsSupplied(s, CompanyAddress) || IsSupplied(s, CompanyTaxNumber)
          || IsSupplied(s, CompanyTaxOffice) || IsSupplied(s, DefaultTaxRate) || IsSupplied(s, DesignSettings);
      }
      var v := ApplySettings(users[uid], s);
      users := users[uid := v];
      r := Ok(v);
    }

    // ------------------------------------------------------- customers

    /** get_customers: the caller's customers. */
    function ListCustomers(uid: Id): (r: Result<seq<Row<Customer>>>)
      reads this
      ensures uid !in users <==> r == Err(UserNotFound)
      ensures r.Ok? ==> forall x :: x in r.value <==> x in customers && x.userId == uid
    {
      if uid !in users then Err(UserNotFound) else Ok(OwnedBy(customers, uid))
    }

    /** get_customer: the caller's customer with this id, or 404. */
    function GetCustomer(uid: Id, id: Id): (r: Result<Row<Customer>>)
      reads this
      ensures uid !in users ==> r == Err(UserNotFound)
      ensures uid in users ==> (r.Ok? <==> Owns(customers, id, uid))
      ensures uid in users && r.Err? ==> r == Err(NotFound("Customer not found"))
      ensures r.Ok? ==> r.value in customers && Matches(r.value, id, uid)
    {
      if uid !in users then Err(UserNotFound)
      else
        var found := SelectWhere(customers, id, uid);
        if found == [] then Err(NotFound("Customer not found"))
        else
          assert found[0] in found;
          Ok(found[0])
    }

    /** create_customer: a new row owned by the caller. */
    method CreateCustomer(uid: Id, input: CustomerInput) returns (r: Result<Row<Customer>>)
      requires Valid()
      modifies this`customers, this`nextId
      ensures Valid()
      ensures uid !in users ==> r == Err(UserNotFound) && customers == old(customers) && nextId == old(nextId)
      ensures uid in users ==>
        && r == Ok(Row(old(nextId), uid, NewCustomer(input)))
        && customers == old(customers) + [r.value] && nextId == old(nextId) + 1
      ensures forall u :: u != uid ==> OwnedBy(customers, u) == OwnedBy(old(customers), u)
    {
      if uid !in users {
        return Err(UserNotFound);
      }
      var row := Row(nextId, uid, NewCustomer(input));
      InsertKeepsKeys(customers, row, nextId);
      forall u | u != uid ensures OwnedBy(customers + [row], u) == OwnedBy(customers, u) {
        InsertIsolation(customers, row, u);
      }
      KeysStayBelow(products, nextId);
      KeysStayBelow(quotations, nextId);
      KeysStayBelow(reminders, nextId);
      customers := customers + [row];
      nextId := nextId + 1;
      r := Ok(row);
    }

    /** update_customer: the fields sent are written into the caller's
        customer with this id; 404, and nothing written, when there is none. */
    method UpdateCustomer(uid: Id, id: Id, input: CustomerInput) returns (r: Result<Row<Customer>>)
      requires Valid()
      modifies this`customers
      ensures Valid()
      ensures uid !in users ==> r == Err(UserNotFound) && customers == old(customers)
      ensures uid in users && !Owns(old(customers), id, uid) ==>
        r == Err(NotFound("Customer not found")) && customers == old(customers)
      ensures uid in users && Owns(old(customers), id, uid) ==>
        && customers == UpdateWhere(old(customers), id, uid, CustomerPatch(input))
        && r.Ok?
        && exists i :: 0 <= i < |old(customers)| && Matches(old(customers)[i], id, uid)
                    && r.value == Row(id, uid, ApplyCustomerInput(old(customers)[i].data, input))
      ensures forall u :: u != uid ==> OwnedBy(customers, u) == OwnedBy(old(customers), u)
    {
      if uid !in users {
        return Err(UserNotFound);
      }
      var f := CustomerPatch(input);
      ghost var before := customers;
      UpdateKeepsKeys(customers, id, uid, f, nextId);
      UpdateKeepsOwnership(customers, id, uid, f);
      forall u | u != uid ensures OwnedBy(UpdateWhere(before, id, uid, f), u) == OwnedBy(before, u) {
        UpdateIsolation(before, id, uid, f, u);
      }
      customers := UpdateWhere(customers, id, uid, f);
      var found := SelectWhere(customers, id, uid);
      if found == [] {
        UpdateNothingMatched(before, id, uid, f);
        return Err(NotFound("Customer not found"));
      }
      assert found[0] in found;
      UpdatedRowsComeFromOwnedRows(before, id, uid, f, found[0]);
      r := Ok(found[0]);
    }

    /** delete_customer: removes the caller's customer with this id; 404 when
        there is none. */
    method DeleteCustomer(uid: Id, id: Id) returns (r: Result<string>)
      requires Valid()
      modifies this`customers
      ensures Valid()
      ensures uid !in users ==> r == Err(UserNotFound) && customers == old(customers)
      ensures uid in users ==> customers == DeleteWhere(old(customers), id, uid) && !Owns(customers, id, uid)
      ensures uid in users ==> (r.Ok? <==> Owns(old(customers), id, uid))
      ensures uid in users && r.Err? ==> r == Err(NotFound("Customer not found")) && customers == old(customers)
      ensures r.Ok? ==> r.value == "Customer deleted successfully"
      ensures forall u :: u != uid ==> OwnedBy(customers, u) == OwnedBy(old(customers), u)
    {
      if uid !in users {
        return Err(UserNotFound);
      }
      var deleted := SelectWhere(customers, id, uid);
      DeleteKeepsKeys(customers, id, uid, nextId);
      DeleteRemovesAll(customers, id, uid);
      forall u | u != uid ensures OwnedBy(DeleteWhere(customers, id, uid), u) == OwnedBy(customers, u) {
        DeleteIsolation(customers, id, uid, u);
      }
      customers := DeleteWhere(customers, id, uid);
      if deleted == [] {
        return Err(NotFound("Customer not found"));
      }
      r := Ok("Customer deleted successfully");
    }

    // -------------------------------------------------------- products

    /** get_products: the caller's products. */
    function ListProducts(uid: Id): (r: Result<seq<Row<Product>>>)
      reads this
      ensures uid !in users <==> r == Err(UserNotFound)
      ensures r.Ok? ==> forall x :: x in r.value <==> x in products && x.userId == uid
    {
      if uid !in users then Err(UserNotFound) else Ok(OwnedBy(products, uid))
    }

    /** get_product: the caller's product with this id, or 404. */
    function GetProduct(uid: Id, id: Id): (r: Result<Row<Product>>)
      reads this
      ensures uid !in users ==> r == Err(UserNotFound)
      ensures uid in users ==> (r.Ok? <==> Owns(products, id, uid))
      ensures uid in users && r.Err? ==> r == Err(NotFound("Product not found"))
      ensures r.Ok? ==> r.value in products && Matches(r.value, id, uid)
    {
      if uid !in users then Err(UserNotFound)
      else
        var found := SelectWhere(products, id, uid);
        if found == [] then Err(NotFound("Product not found"))
        else
          assert found[0] in found;
          Ok(found[0])
    }

    /** create_product: a new row owned by the caller, with the defaults for
        the fields not sent. */
    method CreateProduct(uid: Id, input: ProductInput) returns (r: Result<Row<Product>>)
      requires Valid()
      modifies this`products, this`nextId
      ensures Valid()
      ensures uid !in users ==> r == Err(UserNotFound) && products == old(products) && nextId == old(nextId)
      ensures uid in users ==>
        && r == Ok(Row(old(nextId), uid, NewProduct(input)))
        && products == old(products) + [r.value] && nextId == old(nextId) + 1
      ensures forall u :: u != uid ==> OwnedBy(products, u) == OwnedBy(old(products), u)
    {
      if uid !in users {
        return Err(UserNotFound);
      }
      var row := Row(nextId, uid, NewProduct(input));
      InsertKeepsKeys(products, row, nextId);
      forall u | u != uid ensures OwnedBy(products + [row], u) == OwnedBy(products, u) {
        InsertIsolation(products, row, u);
      }
      KeysStayBelow(customers, nextId);
      KeysStayBelow(quotations, nextId);
      KeysStayBelow(reminders, nextId);
      products := products + [row];
      nextId := nextId + 1;
      r := Ok(row);
    }

    /** update_product: the fields sent are written into the caller's
        product with this id; 404, and nothing written, when there is none. */
    method UpdateProduct(uid: Id, id: Id, input: ProductInput) returns (r: Result<Row<Product>>)
      requires Valid()
      modifies this`products
      ensures Valid()
      ensures uid !in users ==> r == Err(UserNotFound) && products == old(products)
      ensures uid in users && !Owns(old(products), id, uid) ==>
        r == Err(NotFound("Product not found")) && products == old(products)
      ensures uid in users && Owns(old(products), id, uid) ==>
        && products == UpdateWhere(old(products), id, uid, ProductPatch(input))
        && r.Ok?
        && exists i :: 0 <= i < |old(products)| && Matches(old(products)[i], id, uid)
                    && r.value == Row(id, uid, ApplyProductInput(old(products)[i].data, input))
      ensures forall u :: u != uid ==> OwnedBy(products, u) == OwnedBy(old(products), u)
    {
      if uid !in users {
        return Err(UserNotFound);
      }
      var f := ProductPatch(input);
      ghost var before := products;
      UpdateKeepsKeys(products, id, uid, f, nextId);
      UpdateKeepsOwnership(products, id, uid, f);
      forall u | u != uid ensures OwnedBy(UpdateWhere(before, id, uid, f), u) == OwnedBy(before, u) {
        UpdateIsolation(before, id, uid, f, u);
      }
      products := UpdateWhere(products, id, uid, f);
      var found := SelectWhere(products, id, uid);
      if found == [] {
        UpdateNothingMatched(before, id, uid, f);
        return Err(NotFound("Product not found"));
      }
      assert found[0] in found;
      UpdatedRowsComeFromOwnedRows(before, id, uid, f, found[0]);
      r := Ok(found[0]);
    }

    /** delete_product: removes the caller's product with this id; 404 when
        there is none. */
    method DeleteProduct(uid: Id, id: Id) returns (r: Result<string>)
      requires Valid()
      modifies this`products
      ensures Valid()
      ensures uid !in users ==> r == Err(UserNotFound) && products == old(products)
      ensures uid in users ==> products == DeleteWhere(old(products), id, uid) && !Owns(products, id, uid)
      ensures uid in users ==> (r.Ok? <==> Owns(old(products), id, uid))
      ensures uid in users && r.Err? ==> r == Err(NotFound("Product not found")) && products == old(products)
      ensures r.Ok? ==> r.value == "Product deleted successfully"
      ensures forall u :: u != uid ==> OwnedBy(products, u) == OwnedBy(old(products), u)
    {
      if uid !in users {
        return Err(UserNotFound);
      }
      var deleted := SelectWhere(products, id, uid);
      DeleteKeepsKeys(products, id, uid, nextId);
      DeleteRemovesAll(products, id, uid);
      forall u | u != uid ensures OwnedBy(DeleteWhere(products, id, uid), u) == OwnedBy(products, u) {
        DeleteIsolation(products, id, uid, u);
      }
      products := DeleteWhere(products, id, uid);
      if deleted == [] {
        return Err(NotFound("Product not found"));
      }
      r := Ok("Product deleted successfully");
    }

    /** get_categories: the caller's distinct non-empty product categories,
        in ascending order. */
    function GetCategories(uid: Id): (r: Result<seq<string>>)
      reads this
      ensures uid !in users <==> r == Err(UserNotFound)
      ensures r.Ok? ==> StrictlyAscending(r.value)
      ensures r.Ok? ==> forall c :: c in r.value <==>
        c != "" && exists i :: 0 <= i < |products| && products[i].userId == uid && products[i].data.category == Some(c)
    {
      if uid !in users then Err(UserNotFound)
      else
        var owned := OwnedBy(products, uid);
        assert forall c :: HasCategory(owned, c) <==>
          c != "" && exists i :: 0 <= i < |products| && products[i].userId == uid && products[i].data.category == Some(c) by {
          forall c ensures HasCategory(owned, c) <==>
            c != "" && exists i :: 0 <= i < |products| && products[i].userId == uid && products[i].data.category == Some(c) {
            if HasCategory(owned, c) {
              var i :| 0 <= i < |owned| && owned[i].data.category == Some(c);
              assert owned[i] in owned;
            }
            if c != "" && exists i :: 0 <= i < |products| && products[i].userId == uid && products[i].data.category == Some(c) {
              var i :| 0 <= i < |products| && products[i].userId == uid && products[i].data.category == Some(c);
              assert products[i] in owned;
            }
          }
        }
        Ok(DistinctCategories(owned))
    }

    // ------------------------------------------------------ quotations

    /** get_quotations: the caller's quotations, newest first, each with its
        items and customer. */
    function ListQuotations(uid: Id): (r: Result<seq<QuotationView>>)
      reads this
      ensures uid !in users <==> r == Err(UserNotFound)
      ensures r.Ok? ==> |r.value| == |OwnedBy(quotations, uid)|
      ensures r.Ok? ==> forall i :: 0 <= i < |r.value| ==>
        var q := OwnedBy(quotations, uid)[|r.value| - 1 - i];
        && r.value[i].row == q && r.value[i].items == ItemsOf(quotationItems, q.id)
        && r.value[i].customer == CustomerOf(customers, q)
    {
      if uid !in users then Err(UserNotFound)
      else Ok(ViewsOf(Reversed(OwnedBy(quotations, uid)), quotationItems, customers))
    }

    /** get_quotation: the caller's quotation with this id, its items and
        its customer, or 404. */
    function GetQuotation(uid: Id, id: Id): (r: Result<QuotationView>)
      reads this
      ensures uid !in users ==> r == Err(UserNotFound)
      ensures uid in users ==> (r.Ok? <==> Owns(quotations, id, uid))
      ensures uid in users && r.Err? ==> r == Err(NotFound("Quotation not found"))
      ensures r.Ok? ==> r.value.row in quotations && Matches(r.value.row, id, uid)
      ensures r.Ok? ==> r.value.items == ItemsOf(quotationItems, id)
      ensures r.Ok? ==> r.value.customer == CustomerOf(customers, r.value.row)
    {
      if uid !in users then Err(UserNotFound)
      else
        var found := SelectWhere(quotations, id, uid);
        if found == [] then Err(NotFound("Quotation not found"))
        else
          assert found[0] in found;
          Ok(ViewOf(found[0], quotationItems, customers))
    }

    /** create_quotation: computes the amounts, stores the header with a
        fresh number, status "pending" and payment status "unpaid", then the
        items, and answers with the stored quotation. The clock reading and
        the random draw are supplied by the caller. */
    method CreateQuotation(uid: Id, body: QuotationInput, now: DateTime, random: int) returns (r: Result<QuotationView>)
      requires Valid()
      requires ValidDateTime(now) && 1000 <= random <= 9999
      modifies this`quotations, this`quotationItems, this`nextId
      ensures Valid()
      ensures uid !in users ==>
        && r == Err(UserNotFound) && quotations == old(quotations)
        && quotationItems == old(quotationItems) && nextId == old(nextId)
      ensures uid in users ==>
        && r.Ok?
        && r.value.row == Row(old(nextId), uid, NewQuotation(ResolveQuotation(body), QuotationNumber(now, random)))
        && r.value.row.data.discountAmount == ResolveQuotation(body).discountAmount
        && r.value.row.data.taxRate == ResolveQuotation(body).taxRate
        && r.value.items == ResolveQuotation(body).items
        && r.value.customer == CustomerOf(customers, r.value.row)
        && quotations == old(quotations) + [r.value.row]
        && nextId == old(nextId) + 1
        && ItemsOf(quotationItems, old(nextId)) == ResolveQuotation(body).items
        && (forall q :: q != old(nextId) ==> ItemsOf(quotationItems, q) == ItemsOf(old(quotationItems), q))
      ensures forall u :: u != uid ==> OwnedBy(quotations, u) == OwnedBy(old(quotations), u)
    {
      var req := ResolveQuotation(body);
      if uid !in users {
        return Err(UserNotFound);
      }
      var qid := nextId;
      var row := Row(qid, uid, NewQuotation(req, QuotationNumber(now, random)));
      var rows := BuildItemRows(qid, req.items);
      ghost var items0 := quotationItems;
      InsertKeepsKeys(quotations, row, qid);
      CreateKeepsHeadersMatch(quotations, quotationItems, row, rows, req.items);
      forall u | u != uid ensures OwnedBy(quotations + [row], u) == OwnedBy(quotations, u) {
        InsertIsolation(quotations, row, u);
      }
      forall q ensures ItemsOf(items0 + rows, q) == if q == qid then req.items else ItemsOf(items0, q) {
        AttachItems(items0, qid, rows, req.items, q);
      }
      KeysStayBelow(customers, qid);
      KeysStayBelow(products, qid);
      KeysStayBelow(reminders, qid);
      quotations := quotations + [row];
      nextId := nextId + 1;
      quotationItems := quotationItems + rows;
      r := Ok(ViewOf(row, quotationItems, customers));
    }

    /** update_quotation: rewrites the caller's quotation from the request
        (amounts recomputed, number, status and payment kept), then replaces
        its items; 404, and nothing written, when there is none. */
    method UpdateQuotation(uid: Id, id: Id, body: QuotationInput) returns (r: Result<QuotationView>)
      requires Valid()
      modifies this`quotations, this`quotationItems
      ensures Valid()
      ensures uid !in users ==>
        r == Err(UserNotFound) && quotations == old(quotations) && quotationItems == old(quotationItems)
      ensures uid in users && !Owns(old(quotations), id, uid) ==>
        && r == Err(NotFound("Quotation not found"))
        && quotations == old(quotations) && quotationItems == old(quotationItems)
      ensures uid in users && Owns(old(quotations), id, uid) ==>
        && quotations == UpdateWhere(old(quotations), id, uid, QuotationPatch(ResolveQuotation(body)))
        && ItemsOf(quotationItems, id) == ResolveQuotation(body).items
        && (forall q :: q != id ==> ItemsOf(quotationItems, q) == ItemsOf(old(quotationItems), q))
        && r.Ok? && r.value.items == ResolveQuotation(body).items
        && AmountsDerived(r.value.row.data, ResolveQuotation(body).items)
        && r.value.row.data.discountAmount == ResolveQuotation(body).discountAmount
        && r.value.row.data.taxRate == ResolveQuotation(body).taxRate
        && r.value.customer == CustomerOf(customers, r.value.row)
        && exists i :: 0 <= i < |old(quotations)| && Matches(old(quotations)[i], id, uid)
                    && r.value.row == Row(id, uid, ApplyQuotationRequest(old(quotations)[i].data, ResolveQuotation(body)))
      ensures forall u :: u != uid ==> OwnedBy(quotations, u) == OwnedBy(old(quotations), u)
    {
      var req := ResolveQuotation(body);
      if uid !in users {
        return Err(UserNotFound);
      }
      var f := QuotationPatch(req);
      ghost var before, items0 := quotations, quotationItems;
      if !Owns(quotations, id, uid) {
        UpdateNothingMatched(quotations, id, uid, f);
        quotations := UpdateWhere(quotations, id, uid, f);
        return Err(NotFound("Quotation not found"));
      }
      var rows := BuildItemRows(id, req.items);
      ReplaceQuotationKeepsTables(before, items0, id, uid, req, rows, nextId);
      forall u | u != uid ensures OwnedBy(UpdateWhere(before, id, uid, f), u) == OwnedBy(before, u) {
        UpdateIsolation(before, id, uid, f, u);
      }
      var k := FindIndex(quotations, id, uid);
      quotations := UpdateWhere(quotations, id, uid, f);
      var row := quotations[k];
      assert row.data == ApplyQuotationRequest(before[k].data, req);
      quotationItems := DeleteItemsOf(quotationItems, id) + rows;
      r := Ok(ViewOf(row, quotationItems, customers));
    }

    /** delete_quotation: removes the caller's quotation with this id; 404
        when there is none. Its item rows are left in place. */
    method DeleteQuotation(uid: Id, id: Id) returns (r: Result<string>)
      requires Valid()
      modifies this`quotations
      ensures Valid()
      ensures uid !in users ==> r == Err(UserNotFound) && quotations == old(quotations)
      ensures uid in users ==> quotations == DeleteWhere(old(quotations), id, uid) && !Owns(quotations, id, uid)
      ensures uid in users ==> (r.Ok? <==> Owns(old(quotations), id, uid))
      ensures uid in users && r.Err? ==> r == Err(NotFound("Quotation not found")) && quotations == old(quotations)
      ensures r.Ok? ==> r.value == "Quotation deleted successfully"
      ensures forall u :: u != uid ==> OwnedBy(quotations, u) == OwnedBy(old(quotations), u)
    {
      if uid !in users {
        return Err(UserNotFound);
      }
      var deleted := SelectWhere(quotations, id, uid);
      DeleteKeepsKeys(quotations, id, uid, nextId);
      DeleteRemovesAll(quotations, id, uid);
      DeleteKeepsHeadersMatch(quotations, quotationItems, id, uid);
      forall u | u != uid ensures OwnedBy(DeleteWhere(quotations, id, uid), u) == OwnedBy(quotations, u) {
        DeleteIsolation(quotations, id, uid, u);
      }
      quotations := DeleteWhere(quotations, id, uid);
      if deleted == [] {
        return Err(NotFound("Quotation not found"));
      }
      r := Ok("Quotation deleted successfully");
    }

    /** update_payment_status: writes the payment status and whichever
        payment fields were sent into the caller's quotation; 404, and
        nothing written, when there is none. */
    method UpdatePaymentStatus(uid: Id, id: Id, p: PaymentUpdate) returns (r: Result<Row<Quotation>>)
      requires Valid()
      modifies this`quotations
      ensures Valid()
      ensures uid !in users ==> r == Err(UserNotFound) && quotations == old(quotations)
      ensures uid in users && !Owns(old(quotations), id, uid) ==>
        r == Err(NotFound("Quotation not found")) && quotations == old(quotations)
      ensures uid in users && Owns(old(quotations), id, uid) ==>
        && quotations == UpdateWhere(old(quotations), id, uid, PaymentPatch(p))
        && r.Ok?
        && exists i :: 0 <= i < |old(quotations)| && Matches(old(quotations)[i], id, uid)
                    && r.value == Row(id, uid, ApplyPayment(old(quotations)[i].data, p))
      ensures forall u :: u != uid ==> OwnedBy(quotations, u) == OwnedBy(old(quotations), u)
    {
      if uid !in users {
        return Err(UserNotFound);
      }
      var f := PaymentPatch(p);
      ghost var before := quotations;
      UpdateKeepsKeys(quotations, id, uid, f, nextId);
      UpdateKeepsOwnership(quotations, id, uid, f);
      PaymentKeepsHeadersMatch(quotations, quotationItems, id, uid, p);
      forall u | u != uid ensures OwnedBy(UpdateWhere(before, id, uid, f), u) == OwnedBy(before, u) {
        UpdateIsolation(before, id, uid, f, u);
      }
      quotations := UpdateWhere(quotations, id, uid, f);
      var found := SelectWhere(quotations, id, uid);
      if found == [] {
        UpdateNothingMatched(before, id, uid, f);
        return Err(NotFound("Quotation not found"));
      }
      assert found[0] in found;
      UpdatedRowsComeFromOwnedRows(before, id, uid, f, found[0]);
      r := Ok(found[0]);
    }

    // ---------------------------------------------- statistics, payments

    /** get_statistics over the caller's rows. */
    function GetStatistics(uid: Id): (r: Result<Overview>)
      reads this
      ensures uid !in users <==> r == Err(UserNotFound)
      ensures r.Ok? ==> r.value == StatisticsOf(OwnedBy(customers, uid), OwnedBy(products, uid), OwnedBy(quotations, uid))
    {
      if uid !in users then Err(UserNotFound)
      else Ok(StatisticsOf(OwnedBy(customers, uid), OwnedBy(products, uid), OwnedBy(quotations, uid)))
    }

    /** get_payment_statistics over the caller's quotations. */
    function GetPaymentStatistics(uid: Id): (r: Result<PaymentOverview>)
      reads this
      ensures uid !in users <==> r == Err(UserNotFound)
      ensures r.Ok? ==> r.value == PaymentStatisticsOf(OwnedBy(quotations, uid))
    {
      if uid !in users then Err(UserNotFound) else Ok(PaymentStatisticsOf(OwnedBy(quotations, uid)))
    }

    /** get_pending_payments (`status` "unpaid") and get_paid_payments
        (`status` "paid"): the caller's quotations with that payment status,
        each with its customer. */
    function PaymentsWithStatus(uid: Id, status: string): (r: Result<seq<PaymentView>>)
      reads this
      ensures uid !in users <==> r == Err(UserNotFound)
      ensures r.Ok? ==> forall v :: v in r.value ==>
        && v.row in quotations && v.row.userId == uid && v.row.data.paymentStatus == status
        && v.customer == CustomerOf(customers, v.row)
      ensures r.Ok? ==> forall q :: q in quotations && q.userId == uid && q.data.paymentStatus == status ==>
        exists v :: v in r.value && v.row == q
    {
      if uid !in users then Err(UserNotFound)
      else
        var qs := WithStatus(OwnedBy(quotations, uid), status);
        var vs := PaymentViewsOf(qs, customers);
        assert forall v :: v in vs ==> v.row in qs by {
          forall v | v in vs ensures v.row in qs {
            var i :| 0 <= i < |vs| && vs[i] == v;
          }
        }
        assert forall q :: q in qs ==> exists v :: v in vs && v.row == q by {
          forall q | q in qs ensures exists v :: v in vs && v.row == q {
            var i :| 0 <= i < |qs| && qs[i] == q;
            assert vs[i] in vs;
          }
        }
        Ok(vs)
    }

    // ------------------------------------------------------- reminders

    /** get_reminders: the caller's reminders. */
    function ListReminders(uid: Id): (r: Result<seq<Row<Reminder>>>)
      reads this
      ensures uid !in users <==> r == Err(UserNotFound)
      ensures r.Ok? ==> forall x :: x in r.value <==> x in reminders && x.userId == uid
    {
      if uid !in users then Err(UserNotFound) else Ok(OwnedBy(reminders, uid))
    }

    /** create_reminder: a new unsent reminder owned by the caller. */
    method CreateReminder(uid: Id, input: ReminderInput) returns (r: Result<Row<Reminder>>)
      requires Valid()
      modifies this`reminders, this`nextId
      ensures Valid()
      ensures uid !in users ==> r == Err(UserNotFound) && reminders == old(reminders) && nextId == old(nextId)
      ensures uid in users ==>
        && r == Ok(Row(old(nextId), uid, NewReminder(input)))
        && reminders == old(reminders) + [r.value] && nextId == old(nextId) + 1
      ensures forall u :: u != uid ==> OwnedBy(reminders, u) == OwnedBy(old(reminders), u)
    {
      if uid !in users {
        return Err(UserNotFound);
      }
      var row := Row(nextId, uid, NewReminder(input));
      InsertKeepsKeys(reminders, row, nextId);
      forall u | u != uid ensures OwnedBy(reminders + [row], u) == OwnedBy(reminders, u) {
        InsertIsolation(reminders, row, u);
      }
      KeysStayBelow(customers, nextId);
      KeysStayBelow(products, nextId);
      KeysStayBelow(quotations, nextId);
      reminders := reminders + [row];
      nextId := nextId + 1;
      r := Ok(row);
    }

    /** send_reminder: marks the caller's reminder as sent; 404 when there is
        none. Nothing is delivered. */
    method SendReminder(uid: Id, id: Id) returns (r: Result<string>)
      requires Valid()
      modifies this`reminders
      ensures Valid()
      ensures uid !in users ==> r == Err(UserNotFound) && reminders == old(reminders)
      ensures uid in users ==> reminders == UpdateWhere(old(reminders), id, uid, SendPatch())
      ensures uid in users ==> (r.Ok? <==> Owns(old(reminders), id, uid))
      ensures uid in users && r.Err? ==> r == Err(NotFound("Reminder not found")) && reminders == old(reminders)
      ensures r.Ok? ==> r.value == "Reminder sent successfully"
      ensures uid in users ==> forall i :: 0 <= i < |reminders| && Matches(reminders[i], id, uid) ==> reminders[i].data.sent
      ensures forall u :: u != uid ==> OwnedBy(reminders, u) == OwnedBy(old(reminders), u)
    {
      if uid !in users {
        return Err(UserNotFound);
      }
      var f := SendPatch();
      ghost var before := reminders;
      UpdateKeepsKeys(reminders, id, uid, f, nextId);
      UpdateKeepsOwnership(reminders, id, uid, f);
      forall u | u != uid ensures OwnedBy(UpdateWhere(before, id, uid, f), u) == OwnedBy(before, u) {
        UpdateIsolation(before, id, uid, f, u);
      }
      reminders := UpdateWhere(reminders, id, uid, f);
      var found := SelectWhere(reminders, id, uid);
      if found == [] {
        UpdateNothingMatched(before, id, uid, f);
        return Err(NotFound("Reminder not found"));
      }
      r := Ok("Reminder sent successfully");
    }

    /** delete_reminder: removes the caller's reminder with this id; 404 when
        there is none. */
    method DeleteReminder(uid: Id, id: Id) returns (r: Result<string>)
      requires Valid()
      modifies this`reminders
      ensures Valid()
      ensures uid !in users ==> r == Err(UserNotFound) && reminders == old(reminders)
      ensures uid in users ==> reminders == DeleteWhere(old(reminders), id, uid) && !Owns(reminders, id, uid)
      ensures uid in users ==> (r.Ok? <==> Owns(old(reminders), id, uid))
      ensures uid in users && r.Err? ==> r == Err(NotFound("Reminder not found")) && reminders == old(reminders)
      ensures r.Ok? ==> r.value == "Reminder deleted successfully"
      ensures forall u :: u != uid ==> OwnedBy(reminders, u) == OwnedBy(old(reminders), u)
    {
      if uid !in users {
        return Err(UserNotFound);
      }
      var deleted := SelectWhere(reminders, id, uid);
      DeleteKeepsKeys(reminders, id, uid, nextId);
      DeleteRemovesAll(reminders, id, uid);
      forall u | u != uid ensures OwnedBy(DeleteWhere(reminders, id, uid), u) == OwnedBy(reminders, u) {
        DeleteIsolation(reminders, id, uid, u);
      }
      reminders := DeleteWhere(reminders, id, uid);
      if deleted == [] {
        return Err(NotFound("Reminder not found"));
      }
      r := Ok("Reminder deleted successfully");
    }
  }
}
