# teklif-backend in Dafny

A model of `server.py`, the FastAPI backend of a quotation and invoicing
service. Each user keeps their own customers, products, quotations and
reminders in hosted database tables. This model replaces the tables with one
in-memory store, `Server.Store`, with one member per endpoint:

- a `method` where the endpoint writes;
- a `function` where it only reads.

Every row of an owned table carries its owner's user id. Every endpoint except
register, which has no caller yet, first checks that the caller exists, as
`get_current_user` does, and then filters
the owned table it reads or writes by the caller's `user_id`. One read in
`server.py` is not filtered that way: the customer embedded in a quotation is
looked up by `customer_id` alone. The model keeps that embedding as written in
`Joins.CustomerJoinAsWritten`, but the endpoints here use the owner-filtered
join `Joins.CustomerJoin` (see "## Findings" and "## Left out").

The modules follow the parts of the file:

- `Common`: ids, `Option`, the `Field` of a request body that may be left
  unset, HTTP errors, `Result`.
- `Numbering`: `generate_quotation_number` and its parser.
- `Calculator`: the amounts of a quotation (subtotal, taxable amount, tax,
  total), shared by create and update.
- `Entities`: the row and request-body records. It also holds the partial
  updates: `exclude_unset` for customers, products and payments, and the
  "not None" mask of the settings update.
- `Tables`: an owner-scoped table and the database filters the endpoints use
  (`.eq("user_id")`, `.eq("id").eq("user_id")` with select, update or
  delete), with their isolation and key lemmas.
- `QuotationItems`: the `quotation_items` table and the delete-then-insert
  of a quotation's items.
- `Categories`: `sorted(set(...))` of the product categories.
- `Statistics`: the dashboard and payment sums.
- `Joins`: the `customers(*)` embedding of the quotation reads.
- `Views`: what the quotation and payment reads return.
- `Server`: the store, its invariant `Valid()` and the endpoints.

`Valid()` keeps these facts about the store:

- user emails are unique;
- every table's ids are unique and below the id counter;
- every stored quotation header carries the amounts the calculator gives for
  its stored items.

Every writing endpoint preserves `Valid()` and leaves every other user's rows
as they were.

## Model

| member | source | states |
|---|---|---|
| Numbering.Timestamp | server.py:455 | `%Y%m%d%H%M%S` is 14 digits |
| Numbering.QuotationNumber | server.py:452-457 | the number is 21 characters: `Q-`, 14 digits, `-`, 4 digits |
| Numbering.ParseQuotationNumber | server.py:457 | a string it accepts has the generated shape |
| Numbering.QuotationNumberRoundTrip | server.py:452-457 | the number gives back exactly the clock reading (to the second) and the random draw it was made from |
| Numbering.QuotationNumberInjective | server.py:452-457 | two numbers are equal only when made in the same second with the same draw |
| Numbering.PaddedRoundTrip | server.py:455 | a zero-padded field reads back as its value |
| Numbering.DecimalIsPadded | server.py:456-457 | a number of exactly `width` digits prints without padding |
| Calculator.SumOfTotalsAppend | server.py:477 | the sum of item totals is additive over concatenation |
| Calculator.SumOfTotalsFromFront | server.py:477 | summing from the front gives the same subtotal |
| Calculator.ComputeTotals | server.py:477-480 | subtotal is the sum of the item totals; taxable = subtotal − discount, unclamped; total − tax = taxable |
| Calculator.TotalScalesTaxable | server.py:479-480 | total × 100 = taxable × (100 + rate), so tax = taxable × rate / 100 |
| Calculator.DiscountAboveSubtotalGivesNegativeTotal | server.py:478-480 | a discount above the subtotal makes taxable and total negative, tax ≤ 0, for any rate ≥ 0 |
| Calculator.AppendedItemsRaiseTaxable | server.py:477-478 | more items add their totals to the subtotal and the taxable amount |
| Calculator.TwoItemExample | server.py:477-480 | items of 100 and 50 at 20%: 150/150/30/180; with a discount of 50: 150/100/20/120 |
| Entities.NewUser | server.py:248-255 | the given email, password hash and name; plan "free", status "active", default tax rate 20; every other column empty |
| Entities.ApplySettings | server.py:320-344 | every non-None field is written; every other column is unchanged |
| Entities.UnsuppliedKept | server.py:323-339 | "each unsent field is kept" means "only sent fields differ" |
| Entities.ApplySettingsUnique | server.py:320-344 | the settings merge is the only row that holds the sent values and changes nothing else |
| Entities.EmptySettingsChangeNothing | server.py:341-342 | a mask with no field set would change nothing |
| Entities.ApplySettingsIdempotent | server.py:320-344 | sending the same settings twice gives the row after the first time |
| Entities.FullCustomerUpdateIsCreate | server.py:376-380 | an update that sends every field gives the row create would build (also at lines 393-395) |
| Entities.ApplyCustomerInput | server.py:393-395 | `exclude_unset`: name and every sent field are written, every unsent field keeps its stored value |
| Entities.CustomerDefaults | server.py:376-380 | create stores None in every optional field not sent; creating is updating a row with only the name |
| Entities.FullProductUpdateIsCreate | server.py:417-421 | an update that sends every field gives the row create would build (also at lines 434-436) |
| Entities.ApplyProductInput | server.py:434-436 | `exclude_unset`: name, price and every sent field are written, every unsent field keeps its stored value |
| Entities.ProductDefaults | server.py:133-142 | create defaults stock to 0, unit to "adet" and every other optional field to None; creating is updating the row of defaults (also at lines 417-421) |
| Entities.NewQuotation | server.py:477-494 | the request's customer, discount, rate and notes; amounts from the calculator on those; the given number, status "pending", payment "unpaid", no payment data |
| Entities.ApplyQuotationRequest | server.py:538-553 | the request's customer, discount, rate and notes written, amounts recomputed from them; number, status and payment columns kept |
| Entities.ResolveItem | server.py:144-150 | the item as sent, with a missing `unit` read as "adet" and missing `specifications` as None |
| Entities.ResolveItems | server.py:170-172 | each item of the body parsed, same length, same order |
| Entities.ResolveQuotation | server.py:170-175 | the body as sent, with a missing discount read as 0, a missing tax rate as 20 and missing notes as None |
| Entities.OmittedFieldsReset | server.py:543-551 | an update whose body leaves out the rate, the discount or the notes writes 20, 0 or None over the stored value; a create from that body stores the same |
| Entities.CreateAndUpdateAgree | server.py:477-480 | create and update store the same amounts for the same request (also at lines 538-541) |
| Entities.ApplyPayment | server.py:586-589 | `exclude_unset`: writes the status and every payment field sent; every unsent payment field keeps its stored value; no other column changes |
| Entities.PaymentKeepsAmountsDerived | server.py:586-589 | a payment update leaves the amounts consistent with the items |
| Entities.NewReminder | server.py:735-738 | the request's quotation, date and message; not sent |
| Entities.MarkSent | server.py:747 | the row is sent; quotation, date and message are unchanged |
| Entities.MarkSentIdempotent | server.py:747 | sending twice is sending once; a new reminder and its sent form differ in `sent` alone |
| Tables.OwnedBy | server.py:371-373 | `.eq("user_id", uid)`: exactly the rows owned by `uid`, never more rows than the table |
| Tables.FindIndex | server.py:388 | the first row matching id and owner (also at line 524) |
| Tables.SelectWhere | server.py:388 | `.eq("id").eq("user_id")`: exactly the matching rows; empty iff the caller owns no such row (also at lines 429, 524) |
| Tables.UpdateWhere | server.py:395 | same length, ids and owners; matching rows get `f` applied, all others unchanged (also at lines 436, 553, 588, 747) |
| Tables.DeleteWhere | server.py:402 | removes exactly the matching rows; unchanged when nothing matches (also at lines 443, 581, 756) |
| Tables.DeleteRemovesAll | server.py:402 | after a delete no matching row remains (also at lines 443, 581, 756) |
| Tables.UpdateNothingMatched | server.py:396-397 | an update that matches nothing leaves the table unchanged (also at lines 437-438, 554-555, 589-590, 748-749) |
| Tables.UpdateKeepsOwnership | server.py:395 | the caller owns row `id` after an update exactly when it did before (also at lines 436, 553, 588, 747) |
| Tables.UpdatedRowsComeFromOwnedRows | server.py:395 | a row changed by an update was the caller's matching row (also at lines 436, 553, 588, 747) |
| Tables.OwnedByAppend | server.py:371-373 | the owner filter distributes over concatenation |
| Tables.SelectSeesOnlyOwnRows | server.py:388 | a select by id and owner reads only the caller's rows (also at lines 429, 524) |
| Tables.SelectNoninterference | server.py:388 | other users' rows cannot change what the caller's select returns (also at lines 429, 524) |
| Tables.UpdateIsolation | server.py:395 | an update leaves every other user's rows unchanged (also at lines 436, 553, 588, 747) |
| Tables.DeleteIsolation | server.py:402 | a delete leaves every other user's rows unchanged (also at lines 443, 581, 756) |
| Tables.UpdateCommutesWithOwnedBy | server.py:395 | filtering by owner and then updating is updating and then filtering (also at lines 436, 553, 588, 747) |
| Tables.InsertIsolation | server.py:376-380 | an insert for one user leaves other users' rows unchanged (also at lines 417-421, 497, 734-738) |
| Tables.UpdateKeepsKeys | server.py:395 | an update keeps ids unique and below the counter (also at lines 436, 553, 588, 747) |
| Tables.DeleteKeepsKeys | server.py:402 | a delete keeps ids unique and below the counter (also at lines 443, 581, 756) |
| Tables.DeleteKeepsUnique | server.py:402 | a delete keeps ids unique (also at lines 443, 581, 756) |
| Tables.InsertKeepsKeys | server.py:376-380 | inserting a fresh id keeps ids unique and below the new counter (also at lines 417-421, 497, 734-738) |
| Tables.SelectAtMostOne | server.py:390-391 | with unique ids a select by id finds at most one row, so `data[0]` is that row (also at lines 431-432, 528) |
| QuotationItems.ItemsOf | server.py:465 | a quotation never has more items than the table has rows (also at lines 516, 527, 573) |
| QuotationItems.DeleteItemsOf | server.py:558 | removes exactly that quotation's item rows |
| QuotationItems.BuildItemRows | server.py:502-508 | one row per item, tagged with the quotation id, in order; those rows hold exactly the items, for no other quotation (also at lines 560-566) |
| QuotationItems.ItemsOfAppend | server.py:510 | reading the items distributes over an insert (also at line 568) |
| QuotationItems.ItemsOfRows | server.py:502-508 | built rows hold exactly the given items (also at lines 560-566) |
| QuotationItems.ItemsOfAfterDelete | server.py:558 | after the delete, that quotation has no items and every other quotation keeps its own |
| QuotationItems.ReplaceItems | server.py:557-568 | after delete-then-insert, the quotation has exactly the new items in order, the others keep theirs |
| QuotationItems.AttachItems | server.py:502-510 | a new quotation gets exactly its items; others are unchanged |
| QuotationItems.NoRowsNoItems | server.py:502-510 | a quotation no row points to has no items |
| Categories.BelowIrreflexive | server.py:837 | Python's string `<` is irreflexive |
| Categories.BelowTransitive | server.py:837 | Python's string `<` is transitive |
| Categories.BelowTotal | server.py:837 | Python's string `<` is total on distinct strings |
| Categories.Insert | server.py:836-837 | adding to a sorted list without repeats keeps it so, with the new element added |
| Categories.DistinctCategories | server.py:835-837 | strictly ascending (sorted, no duplicates); contains exactly the non-empty categories of the rows |
| Categories.AscendingIsUnique | server.py:837 | one strictly ascending list per set of strings |
| Categories.SameElementsSameEmptiness | server.py:836-837 | two lists with the same elements are empty together |
| Categories.CategoriesDependOnlyOnTheSet | server.py:836-837 | the answer depends only on which categories occur, not on row order or count |
| Statistics.WithStatus | server.py:779-780 | exactly the rows with that payment status (also at lines 796, 805) |
| Statistics.SumTotalsPrepend | server.py:779-780 | the total sum splits off the first row |
| Statistics.SumTotalsWhere | server.py:779-780 | the conditional sum of totals equals the sum over the rows the status filter lists (also at line 818) |
| Statistics.CountWhere | server.py:819 | the conditional count equals the number of rows the status filter lists |
| Statistics.StatisticsOf | server.py:767-788 | counts of customers, products, quotations; revenue = sum over "paid", pending = sum over "unpaid" |
| Statistics.PaidRows | server.py:817 | exactly the paid rows that do, or do not, record a non-zero payment amount |
| Statistics.Received | server.py:817 | `payment_amount or total`: the recorded amount when it is present and non-zero, otherwise the total |
| Statistics.SumReceived | server.py:817 | received = the amounts recorded on paid rows that have one + the totals of the other paid rows |
| Statistics.PaymentStatisticsOf | server.py:814-826 | expected = sum of all totals; received = recorded amounts of paid rows, or their totals where none is recorded; pending = sum over "unpaid"; overdue = number of unpaid |
| Statistics.ExpectedIsRevenuePlusPending | server.py:779-780 | when every status is paid or unpaid, expected = revenue + pending (also at lines 816-818) |
| Statistics.ReceivedIsRevenueWithoutAmounts | server.py:817 | when no paid row records a non-zero amount, received = revenue |
| Statistics.ReceivedIsRecordedAmounts | server.py:817 | when every paid row records a non-zero amount, received = the sum of those amounts |
| Statistics.MarkingPaidMovesTotal | server.py:586-589 | marking the unpaid quotation paid moves its total from pending to revenue (also at lines 779-780) |
| Joins.CustomerJoinAsWritten | server.py:462 | the embedded customer has the quotation's customer id, whoever owns it; none iff no such customer (also at lines 514, 524, 571) |
| Joins.CustomerJoin | server.py:462 | the embedded customer is the caller's customer with that id; none iff the caller has none (also at lines 514, 524, 571) |
| Joins.CustomerJoinIsolated | server.py:462 | other users' customers cannot change what the caller sees (also at line 524) |
| Joins.JoinsAgreeOnOwnCustomer | server.py:462 | for a quotation pointing at the caller's own customer, both joins agree (also at line 524) |
| Joins.CrossTenantCustomerShown | server.py:462 | user 1 is shown user 2's customer as written; nothing once corrected (also at line 524) |
| Views.CustomerOf | server.py:468 | the corrected embedding: the customer with the quotation's customer id owned by the quotation's owner, `None` (the response's `null`) iff there is none (also at lines 518, 530, 575) |
| Views.ViewsOf | server.py:464-470 | one view per header, in order, each with its items and customer |
| Views.PaymentViewsOf | server.py:797-800 | one payment view per header, in order, each with its customer (also at lines 806-809) |
| Views.Reversed | server.py:462 | `created_at` descending: the rows back to front |
| Server.CreateKeepsHeadersMatch | server.py:497-510 | a new header with its items keeps every header's amounts derived from its items |
| Server.UpdateKeepsHeadersMatch | server.py:553-568 | the header rewrite plus item replacement keeps every header's amounts derived |
| Server.ReplaceQuotationKeepsTables | server.py:553-568 | the update keeps keys and amounts consistent; the quotation gets exactly the new items, others keep theirs |
| Server.PaymentKeepsHeadersMatch | server.py:588 | a payment update keeps amounts derived |
| Server.DeleteKeepsHeadersMatch | server.py:581 | removing headers keeps the rest derived |
| Server.Store.constructor | server.py:37 | the store starts with empty tables and satisfies the invariant |
| Server.Store.Register | server.py:239-259 | a taken email gives 400 "Email already registered" and no new user; otherwise exactly one user with a fresh id, plan "free", status "active", tax rate 20 |
| Server.Store.UpdateSettings | server.py:318-344 | 401 for an unknown user; 400 "No data to update" with nothing changed when no field is set; otherwise the row becomes the settings merge and no other user changes |
| Server.Store.ListCustomers | server.py:370-373 | exactly the caller's customers; 401 for an unknown user |
| Server.Store.GetCustomer | server.py:386-391 | the caller's customer with that id, or 404 "Customer not found" exactly when there is none |
| Server.Store.CreateCustomer | server.py:375-384 | one new row owned by the caller with a fresh id and the sent data; other users' rows unchanged |
| Server.Store.UpdateCustomer | server.py:393-398 | 404 and no change when the caller owns no such row; otherwise the row gets the sent fields; other users' rows unchanged |
| Server.Store.DeleteCustomer | server.py:400-405 | the row is gone; Ok iff it existed, 404 and no change otherwise; other users' rows unchanged |
| Server.Store.ListProducts | server.py:411-414 | exactly the caller's products |
| Server.Store.GetProduct | server.py:427-432 | the caller's product, or 404 "Product not found" exactly when there is none |
| Server.Store.CreateProduct | server.py:416-425 | one new row owned by the caller with defaults for unsent fields |
| Server.Store.UpdateProduct | server.py:434-439 | 404 and no change when not owned; otherwise the sent fields are written; other users unchanged |
| Server.Store.DeleteProduct | server.py:441-446 | the row is gone; Ok iff it existed; other users unchanged |
| Server.Store.GetCategories | server.py:832-837 | strictly ascending, exactly the caller's non-empty product categories |
| Server.Store.ListQuotations | server.py:459-472 | the caller's quotations, newest first, each with its items and the customer of `Views.CustomerOf` |
| Server.Store.GetQuotation | server.py:522-533 | the caller's quotation with its items and the customer of `Views.CustomerOf`, or 404 exactly when there is none |
| Server.Store.CreateQuotation | server.py:474-520 | a header with the request's discount and rate (20 and 0 when left out, never the user's `default_tax_rate`), amounts derived from them, status "pending", payment "unpaid", a generated number and a fresh id; exactly the sent items attached; the customer of `Views.CustomerOf`; other users unchanged |
| Server.Store.UpdateQuotation | server.py:535-577 | 404 with header and items unchanged when not owned; otherwise the request's discount and rate (20 and 0 when left out, whatever was stored) with amounts recomputed, exactly the new items in order, other quotations' items kept, the customer of `Views.CustomerOf`, other users unchanged |
| Server.Store.DeleteQuotation | server.py:579-584 | the header is gone; Ok iff it existed; other users unchanged |
| Server.Store.UpdatePaymentStatus | server.py:586-592 | 404 and no change when not owned; otherwise the payment fields sent are written; other users unchanged |
| Server.Store.GetStatistics | server.py:764-788 | the statistics of the caller's rows only |
| Server.Store.GetPaymentStatistics | server.py:812-826 | the payment statistics of the caller's quotations only |
| Server.Store.PaymentsWithStatus | server.py:794-810 | exactly the caller's quotations with that payment status, each with the customer of `Views.CustomerOf` |
| Server.Store.ListReminders | server.py:728-731 | exactly the caller's reminders |
| Server.Store.CreateReminder | server.py:733-742 | one new unsent reminder owned by the caller |
| Server.Store.SendReminder | server.py:744-751 | the caller's reminder is marked sent, nothing else changes; 404 when there is none |
| Server.Store.DeleteReminder | server.py:753-758 | the reminder is gone; Ok iff it existed; other users unchanged |

## Left out

- JWT and bcrypt (server.py:203-233): the caller's identity is an input. `get_current_user`'s lookup is kept: an unknown user id gets 401 "User not found". The password reaches `Register` already hashed.
- Server.Store.Register: returns the new user's id, not an access token with the user summary; `login` and `get_me` are not part of this model.
- PDF generation (server.py:598-722), `create_category`, the root and health endpoints, CORS and the router: drawing and framework code.
- The Supabase client: tables are sequences in memory, ids come from a counter instead of generated uuids, and the `created_at` columns are not stored. Insertion order stands in for `created_at` in `Server.Store.ListQuotations`.
- Server.Store.ListReminders: returns the caller's reminders in insertion order, not ordered by `reminder_date`, and without the embedded quotation number and customer.
- Views.CustomerOf: the customer embedded in a quotation is looked up among the quotation owner's customers only. `server.py` embeds any customer with that id, whoever owns it (see "## Findings"). The quotation reads below therefore return the corrected embedding, not the program's.
- Server.Store.CreateQuotation: its `customer` is the corrected embedding of `Views.CustomerOf`, not the unfiltered one of server.py:514-518.
- Server.Store.GetQuotation: its `customer` is the corrected embedding, not the unfiltered one of server.py:524-531.
- Server.Store.ListQuotations: each `customer` is the corrected embedding, not the unfiltered one of server.py:462-469.
- Server.Store.UpdateQuotation: its `customer` is the corrected embedding, not the unfiltered one of server.py:571-575.
- Server.Store.PaymentsWithStatus: each `customer` is the corrected embedding, not the unfiltered one of server.py:796-799 and 805-808.
- Database column defaults: the inserts of server.py:248-255, 483-495 and 735-738 do not send `sent`, the payment columns or the company columns; the model gives them the defaults the row models declare (`sent` false as at server.py:182, the others None).
- The 500 "Failed to ..." answers: an in-memory insert or update cannot fail.
- Foreign keys: `customer_id` of a quotation and `quotation_id` of a reminder are not checked against any table.
- Server.Store.DeleteQuotation: leaves the quotation's item rows in place. Any cascading delete would be a property of the database schema, which is not part of this model.
- Amounts are exact reals, not binary floats; the `:.2f` formatting is not modelled.
- Pydantic validation (`EmailStr`, types, required fields) is taken as given: request bodies arrive as typed values. The defaults of optional body fields are modelled: `Field` values resolved by `Entities.ResolveQuotation`, `Entities.NewProduct` and the `exclude_unset` merges.
- `datetime.now()` and `random.randint(1000, 9999)` are parameters of `Server.Store.CreateQuotation`.
- The settings update builds `update_data` field by field. The model computes whether any field was sent and writes the merged row in one step.
- Calculator.TotalScalesTaxable: the tax appears as taxable × rate / 100 only through this lemma. `Calculator.ComputeTotals` itself states the sum, the discount and total = taxable + tax.

## Findings

| source | as written | input that shows it | evidently intended | confidence | as-written member | corrected member |
|---|---|---|---|---|---|---|
| server.py:524 | `customers(*)` embeds the customer whose id is the quotation's `customer_id`, with no owner filter, and `customer_id` is never checked | user 1 stores a quotation with `customer_id` 7, where customer 7 belongs to user 2; reading it back shows user 2's customer | embed only the caller's own customer, as every other read is owner-filtered | not executed | Joins.CrossTenantCustomerShown | Joins.CustomerJoin |
