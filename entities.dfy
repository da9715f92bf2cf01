/** The records of the backend's tables and of its request bodies, and how
    each request body turns into a new row or rewrites an existing one.
    Pydantic request models are mirrored field for field: `Option` for a
    nullable field, `Field` for a field of a body read with `exclude_unset`. */
module Entities {
  import opened Common
  import opened Numbering
  import opened Calculator

  // ---------------------------------------------------------------- users

  /** A row of `users`. The free-form `design_settings` object is kept as a
      flat string map. */
  datatype User = User(
    email: string,
    passwordHash: string,
    fullName: string,
    company: Option<string>,
    phone: Option<string>,
    subscriptionPlan: string,
    subscriptionStatus: string,
    companyLogo: Option<string>,
    companyAddress: Option<string>,
    companyTaxNumber: Option<string>,
    companyTaxOffice: Option<string>,
    defaultTaxRate: int,
    designSettings: Option<map<string, string>>)

  /** The row register inserts: the given email, password hash and name, the
      free plan, an active subscription and a 20% default tax rate; every
      other column starts empty. */
  function NewUser(email: string, passwordHash: string, fullName: string): (u: User)
    ensures u.email == email && u.passwordHash == passwordHash && u.fullName == fullName
    ensures u.subscriptionPlan == "free" && u.subscriptionStatus == "active"
    ensures u.defaultTaxRate == 20
    ensures u.company.None? && u.phone.None? && u.designSettings.None?
    ensures u.companyLogo.None? && u.companyAddress.None?
    ensures u.companyTaxNumber.None? && u.companyTaxOffice.None?
  {
    User(email, passwordHash, fullName, None, None, "free", "active",
         None, None, None, None, 20, None)
  }

  /** The body of `PUT /auth/settings` (UserSettingsUpdate): `None` means
      "leave as is". */
  datatype SettingsUpdate = SettingsUpdate(
    fullName: Option<string>,
    company: Option<string>,
    phone: Option<string>,
    companyLogo: Option<string>,
    companyAddress: Option<string>,
    companyTaxNumber: Option<string>,
    companyTaxOffice: Option<string>,
    defaultTaxRate: Option<int>,
    designSettings: Option<map<string, string>>)

  /** The user columns the settings endpoint may write. */
  datatype SettingsField =
    | FullName | Company | Phone | CompanyLogo | CompanyAddress
    | CompanyTaxNumber | CompanyTaxOffice | DefaultTaxRate | DesignSettings

  /** Whether update_settings puts field `f` into `update_data`: it was sent
      as a value other than None. */
  predicate IsSupplied(s: SettingsUpdate, f: SettingsField) {
    match f
    case FullName => s.fullName.Some?
    case Company => s.company.Some?
    case Phone => s.phone.Some?
    case CompanyLogo => s.companyLogo.Some?
    case CompanyAddress => s.companyAddress.Some?
    case CompanyTaxNumber => s.companyTaxNumber.Some?
    case CompanyTaxOffice => s.companyTaxOffice.Some?
    case DefaultTaxRate => s.defaultTaxRate.Some?
    case DesignSettings => s.designSettings.Some?
  }

  /** `update_data` would be empty. */
  predicate NothingSupplied(s: SettingsUpdate) {
    forall f :: !IsSupplied(s, f)
  }

  /** Whether two user rows differ in the settable column `f`. */
  predicate Differs(u: User, v: User, f: SettingsField) {
    match f
    case FullName => u.fullName != v.fullName
    case Company => u.company != v.company
    case Phone => u.phone != v.phone
    case CompanyLogo => u.companyLogo != v.companyLogo
    case CompanyAddress => u.companyAddress != v.companyAddress
    case CompanyTaxNumber => u.companyTaxNumber != v.companyTaxNumber
    case CompanyTaxOffice => u.companyTaxOffice != v.companyTaxOffice
    case DefaultTaxRate => u.defaultTaxRate != v.defaultTaxRate
    case DesignSettings => u.designSettings != v.designSettings
  }

  /** Every supplied value is what the row now holds. */
  predicate HoldsSupplied(v: User, s: SettingsUpdate) {
    && (s.fullName.Some? ==> v.fullName == s.fullName.value)
    && (s.company.Some? ==> v.company == s.company)
    && (s.phone.Some? ==> v.phone == s.phone)
    && (s.companyLogo.Some? ==> v.companyLogo == s.companyLogo)
    && (s.companyAddress.Some? ==> v.companyAddress == s.companyAddress)
    && (s.companyTaxNumber.Some? ==> v.companyTaxNumber == s.companyTaxNumber)
    && (s.companyTaxOffice.Some? ==> v.companyTaxOffice == s.companyTaxOffice)
    && (s.defaultTaxRate.Some? ==> v.defaultTaxRate == s.defaultTaxRate.value)
    && (s.designSettings.Some? ==> v.designSettings == s.designSettings)
  }

  /** `v` keeps every column of `u` that the settings endpoint cannot write,
      and every settable column that was not supplied. */
  predicate OnlySuppliedChanged(u: User, v: User, s: SettingsUpdate) {
    && v.email == u.email && v.passwordHash == u.passwordHash
    && v.subscriptionPlan == u.subscriptionPlan && v.subscriptionStatus == u.subscriptionStatus
    && forall f :: Differs(u, v, f) ==> IsSupplied(s, f)
  }

  /** A settings field that is not None replaces the stored value. */
  function Sent<T>(sent: Option<T>, stored: Option<T>): Option<T> {
    if sent.Some? then sent else stored
  }

  /** The user row after the database merges `update_data` into it. */
  function ApplySettings(u: User, s: SettingsUpdate): (v: User)
    ensures HoldsSupplied(v, s)
    ensures OnlySuppliedChanged(u, v, s)
  {
    var v := User(u.email, u.passwordHash, s.fullName.GetOr(u.fullName),
                  Sent(s.company, u.company),
                  Sent(s.phone, u.phone),
                  u.subscriptionPlan, u.subscriptionStatus,
                  Sent(s.companyLogo, u.companyLogo),
                  Sent(s.companyAddress, u.companyAddress),
                  Sent(s.companyTaxNumber, u.companyTaxNumber),
                  Sent(s.companyTaxOffice, u.companyTaxOffice),
                  s.defaultTaxRate.GetOr(u.defaultTaxRate),
                  Sent(s.designSettings, u.designSettings));
    UnsuppliedKept(u, v, s);
    v
  }

  /** Field-by-field "not supplied, not changed" is "changed only where
      supplied". */
  lemma UnsuppliedKept(u: User, v: User, s: SettingsUpdate)
    requires s.fullName.None? ==> v.fullName == u.fullName
    requires s.company.None? ==> v.company == u.company
    requires s.phone.None? ==> v.phone == u.phone
    requires s.companyLogo.None? ==> v.companyLogo == u.companyLogo
    requires s.companyAddress.None? ==> v.companyAddress == u.companyAddress
    requires s.companyTaxNumber.None? ==> v.companyTaxNumber == u.companyTaxNumber
    requires s.companyTaxOffice.None? ==> v.companyTaxOffice == u.companyTaxOffice
    requires s.defaultTaxRate.None? ==> v.defaultTaxRate == u.defaultTaxRate
    requires s.designSettings.None? ==> v.designSettings == u.designSettings
    ensures forall f :: Differs(u, v, f) ==> IsSupplied(s, f)
  {
    forall f | Differs(u, v, f) ensures IsSupplied(s, f) {
      match f
      case FullName =>
      case Company =>
      case Phone =>
      case CompanyLogo =>
      case CompanyAddress =>
      case CompanyTaxNumber =>
      case CompanyTaxOffice =>
      case DefaultTaxRate =>
      case DesignSettings =>
    }
  }

  /** The settings update is determined by its two promises: any row that
      holds the supplied values and changes nothing else is ApplySettings(u, s). */
  lemma ApplySettingsUnique(u: User, s: SettingsUpdate, v: User)
    requires HoldsSupplied(v, s) && OnlySuppliedChanged(u, v, s)
    ensures v == ApplySettings(u, s)
  {
    var w := ApplySettings(u, s);
    assert v.fullName == w.fullName by {
      if s.fullName.None? { assert !Differs(u, v, FullName); }
    }
    assert v.company == w.company by {
      if s.company.None? { assert !Differs(u, v, Company); }
    }
    assert v.phone == w.phone by {
      if s.phone.None? { assert !Differs(u, v, Phone); }
    }
    assert v.companyLogo == w.companyLogo by {
      if s.companyLogo.None? { assert !Differs(u, v, CompanyLogo); }
    }
    assert v.companyAddress == w.companyAddress by {
      if s.companyAddress.None? { assert !Differs(u, v, CompanyAddress); }
    }
    assert v.companyTaxNumber == w.companyTaxNumber by {
      if s.companyTaxNumber.None? { assert !Differs(u, v, CompanyTaxNumber); }
    }
    assert v.companyTaxOffice == w.companyTaxOffice by {
      if s.companyTaxOffice.None? { assert !Differs(u, v, CompanyTaxOffice); }
    }
    assert v.defaultTaxRate == w.defaultTaxRate by {
      if s.defaultTaxRate.None? { assert !Differs(u, v, DefaultTaxRate); }
    }
    assert v.designSettings == w.designSettings by {
      if s.designSettings.None? { assert !Differs(u, v, DesignSettings); }
    }
  }

  /** An update with no field set has nothing to write; update_settings
      rejects exactly these bodies. Applied anyway, it would change nothing. */
  lemma EmptySettingsChangeNothing(u: User, s: SettingsUpdate)
    requires NothingSupplied(s)
    ensures ApplySettings(u, s) == u
  {
    assert !IsSupplied(s, FullName) && !IsSupplied(s, Company) && !IsSupplied(s, Phone);
    assert !IsSupplied(s, CompanyLogo) && !IsSupplied(s, CompanyAddress);
    assert !IsSupplied(s, CompanyTaxNumber) && !IsSupplied(s, CompanyTaxOffice);
    assert !IsSupplied(s, DefaultTaxRate) && !IsSupplied(s, DesignSettings);
  }

  /** Sending the same settings twice leaves the row as after the first time. */
  lemma ApplySettingsIdempotent(u: User, s: SettingsUpdate)
    ensures ApplySettings(ApplySettings(u, s), s) == ApplySettings(u, s)
  {
  }

  // ------------------------------------------------------------ customers

  /** The data columns of a `customers` row. */
  datatype Customer = Customer(
    name: string,
    email: Option<string>,
    phone: Option<string>,
    company: Option<string>,
    address: Option<string>,
    taxNumber: Option<string>,
    taxOffice: Option<string>,
    notes: Option<string>)

  /** The CustomerCreate body, with each optional field recorded as sent or
      not; `name` is required and so always sent. */
  datatype CustomerInput = CustomerInput(
    name: string,
    email: Field<Option<string>>,
    phone: Field<Option<string>>,
    company: Field<Option<string>>,
    address: Field<Option<string>>,
    taxNumber: Field<Option<string>>,
    taxOffice: Field<Option<string>>,
    notes: Field<Option<string>>)

  /** An input that sends every field. */
  predicate SendsAllCustomerFields(i: CustomerInput) {
    i.email.Set? && i.phone.Set? && i.company.Set? && i.address.Set?
    && i.taxNumber.Set? && i.taxOffice.Set? && i.notes.Set?
  }

  /** create_customer's row: `customer.dict()`, where a field not sent takes
      its default, None. */
  function NewCustomer(i: CustomerInput): Customer {
    Customer(i.name, i.email.Or(None), i.phone.Or(None), i.company.Or(None), i.address.Or(None),
             i.taxNumber.Or(None), i.taxOffice.Or(None), i.notes.Or(None))
  }

  /** update_customer's row: `customer.dict(exclude_unset=True)` merged into
      the stored one. Every field sent is written, `name` always, since the
      body requires it; every field not sent keeps its stored value. */
  function ApplyCustomerInput(c: Customer, i: CustomerInput): (c': Customer)
    ensures c'.name == i.name
    ensures i.email.Set? ==> c'.email == i.email.value
    ensures i.phone.Set? ==> c'.phone == i.phone.value
    ensures i.company.Set? ==> c'.company == i.company.value
    ensures i.address.Set? ==> c'.address == i.address.value
    ensures i.taxNumber.Set? ==> c'.taxNumber == i.taxNumber.value
    ensures i.taxOffice.Set? ==> c'.taxOffice == i.taxOffice.value
    ensures i.notes.Set? ==> c'.notes == i.notes.value
    ensures i.email.Unset? ==> c'.email == c.email
    ensures i.phone.Unset? ==> c'.phone == c.phone
    ensures i.company.Unset? ==> c'.company == c.company
    ensures i.address.Unset? ==> c'.address == c.address
    ensures i.taxNumber.Unset? ==> c'.taxNumber == c.taxNumber
    ensures i.taxOffice.Unset? ==> c'.taxOffice == c.taxOffice
    ensures i.notes.Unset? ==> c'.notes == c.notes
  {
    Customer(i.name, i.email.Or(c.email), i.phone.Or(c.phone), i.company.Or(c.company),
             i.address.Or(c.address), i.taxNumber.Or(c.taxNumber), i.taxOffice.Or(c.taxOffice),
             i.notes.Or(c.notes))
  }

  /** An update that sends every field rewrites the whole row: the result is
      what creating a customer from the same body stores, whatever was there. */
  lemma FullCustomerUpdateIsCreate(c: Customer, i: CustomerInput)
    requires SendsAllCustomerFields(i)
    ensures ApplyCustomerInput(c, i) == NewCustomer(i)
  {
  }

  /** A customer created without an optional field stores None there:
      creating is updating a row that holds the name and nothing else. */
  lemma CustomerDefaults(i: CustomerInput)
    ensures NewCustomer(i).name == i.name
    ensures i.email.Unset? ==> NewCustomer(i).email == None
    ensures i.notes.Unset? ==> NewCustomer(i).notes == None
    ensures NewCustomer(i) == ApplyCustomerInput(Customer(i.name, None, None, None, None, None, None, None), i)
  {
  }

  /** The update as a function on the stored row, for table-wide updates. */
  function CustomerPatch(i: CustomerInput): Customer -> Customer {
    c => ApplyCustomerInput(c, i)
  }

  // ------------------------------------------------------------- products

  /** The data columns of a `products` row. */
  datatype Product = Product(
    name: string,
    description: Option<string>,
    category: Option<string>,
    price: real,
    stock: int,
    unit: string,
    sku: Option<string>,
    specifications: Option<string>,
    imageBase64: Option<string>)

  /** The ProductCreate body; `name` and `price` are required. */
  datatype ProductInput = ProductInput(
    name: string,
    price: real,
    description: Field<Option<string>>,
    category: Field<Option<string>>,
    stock: Field<int>,
    unit: Field<string>,
    sku: Field<Option<string>>,
    specifications: Field<Option<string>>,
    imageBase64: Field<Option<string>>)

  predicate SendsAllProductFields(i: ProductInput) {
    i.description.Set? && i.category.Set? && i.stock.Set? && i.unit.Set?
    && i.sku.Set? && i.specifications.Set? && i.imageBase64.Set?
  }

  /** create_product's row: fields not sent take their defaults, stock 0 and
      unit "adet", and None for the rest. */
  function NewProduct(i: ProductInput): Product {
    Product(i.name, i.description.Or(None), i.category.Or(None), i.price, i.stock.Or(0),
            i.unit.Or("adet"), i.sku.Or(None), i.specifications.Or(None), i.imageBase64.Or(None))
  }

  /** update_product's row: every field sent is written, `name` and `price`
      always; every field not sent keeps its stored value. */
  function ApplyProductInput(p: Product, i: ProductInput): (p': Product)
    ensures p'.name == i.name && p'.price == i.price
    ensures i.description.Set? ==> p'.description == i.description.value
    ensures i.category.Set? ==> p'.category == i.category.value
    ensures i.stock.Set? ==> p'.stock == i.stock.value
    ensures i.unit.Set? ==> p'.unit == i.unit.value
    ensures i.sku.Set? ==> p'.sku == i.sku.value
    ensures i.specifications.Set? ==> p'.specifications == i.specifications.value
    ensures i.imageBase64.Set? ==> p'.imageBase64 == i.imageBase64.value
    ensures i.description.Unset? ==> p'.description == p.description
    ensures i.category.Unset? ==> p'.category == p.category
    ensures i.stock.Unset? ==> p'.stock == p.stock
    ensures i.unit.Unset? ==> p'.unit == p.unit
    ensures i.sku.Unset? ==> p'.sku == p.sku
    ensures i.specifications.Unset? ==> p'.specifications == p.specifications
    ensures i.imageBase64.Unset? ==> p'.imageBase64 == p.imageBase64
  {
    Product(i.name, i.description.Or(p.description), i.category.Or(p.category), i.price,
            i.stock.Or(p.stock), i.unit.Or(p.unit), i.sku.Or(p.sku),
            i.specifications.Or(p.specifications), i.imageBase64.Or(p.imageBase64))
  }

  lemma FullProductUpdateIsCreate(p: Product, i: ProductInput)
    requires SendsAllProductFields(i)
    ensures ApplyProductInput(p, i) == NewProduct(i)
  {
  }

  /** A product created without stock or unit has 0 in stock, counted in
      "adet"; every other optional field not sent is None. Creating is
      updating the row that holds exactly these defaults. */
  lemma ProductDefaults(i: ProductInput)
    ensures i.stock.Unset? ==> NewProduct(i).stock == 0
    ensures i.unit.Unset? ==> NewProduct(i).unit == "adet"
    ensures i.description.Unset? ==> NewProduct(i).description == None
    ensures i.category.Unset? ==> NewProduct(i).category == None
    ensures i.sku.Unset? ==> NewProduct(i).sku == None
    ensures i.specifications.Unset? ==> NewProduct(i).specifications == None
    ensures i.imageBase64.Unset? ==> NewProduct(i).imageBase64 == None
    ensures NewProduct(i) == ApplyProductInput(Product(i.name, None, None, i.price, 0, "adet", None, None, None), i)
  {
  }

  function ProductPatch(i: ProductInput): Product -> Product {
    p => ApplyProductInput(p, i)
  }

  // ----------------------------------------------------------- quotations

  /** The header columns of a `quotations` row. */
  datatype Quotation = Quotation(
    customerId: Id,
    quotationNumber: string,
    subtotal: real,
    discountAmount: real,
    taxRate: int,
    taxAmount: real,
    total: real,
    notes: Option<string>,
    status: string,
    paymentStatus: string,
    paymentDate: Option<DateTime>,
    paymentAmount: Option<real>,
    paymentNotes: Option<string>)

  /** A QuotationItem of a request body as sent: `specifications` and `unit`
      may be left out. */
  datatype ItemInput = ItemInput(
    productName: string,
    specifications: Field<Option<string>>,
    quantity: int,
    unit: Field<string>,
    unitPrice: real,
    total: real)

  /** The QuotationCreate body as sent, used by both create and update:
      `discount_amount`, `tax_rate` and `notes` may be left out. */
  datatype QuotationInput = QuotationInput(
    customerId: Id,
    items: seq<ItemInput>,
    discountAmount: Field<real>,
    taxRate: Field<int>,
    notes: Field<Option<string>>)

  /** The QuotationCreate body once Pydantic has filled in its defaults. */
  datatype QuotationRequest = QuotationRequest(
    customerId: Id,
    items: seq<QuotationItem>,
    discountAmount: real,
    taxRate: int,
    notes: Option<string>)

  /** Pydantic's parse of one item: a missing `unit` is "adet", missing
      `specifications` are None. */
  function ResolveItem(i: ItemInput): (it: QuotationItem)
    ensures it.productName == i.productName && it.quantity == i.quantity
    ensures it.unitPrice == i.unitPrice && it.total == i.total
    ensures i.unit.Set? ==> it.unit == i.unit.value
    ensures i.unit.Unset? ==> it.unit == "adet"
    ensures i.specifications.Set? ==> it.specifications == i.specifications.value
    ensures i.specifications.Unset? ==> it.specifications.None?
  {
    QuotationItem(i.productName, i.specifications.Or(None), i.quantity, i.unit.Or("adet"), i.unitPrice, i.total)
  }

  /** The items of a body, each parsed, in order. */
  function ResolveItems(items: seq<ItemInput>): (its: seq<QuotationItem>)
    ensures |its| == |items|
    ensures forall k :: 0 <= k < |items| ==> its[k] == ResolveItem(items[k])
  {
    if items == [] then [] else [ResolveItem(items[0])] + ResolveItems(items[1..])
  }

  /** Pydantic's parse of the QuotationCreate body: a missing discount is 0,
      a missing tax rate 20 and missing notes None, whatever the caller's
      `default_tax_rate` or the stored quotation holds. */
  function ResolveQuotation(b: QuotationInput): (r: QuotationRequest)
    ensures r.customerId == b.customerId && r.items == ResolveItems(b.items)
    ensures b.discountAmount.Set? ==> r.discountAmount == b.discountAmount.value
    ensures b.discountAmount.Unset? ==> r.discountAmount == 0.0
    ensures b.taxRate.Set? ==> r.taxRate == b.taxRate.value
    ensures b.taxRate.Unset? ==> r.taxRate == 20
    ensures b.notes.Set? ==> r.notes == b.notes.value
    ensures b.notes.Unset? ==> r.notes.None?
  {
    QuotationRequest(b.customerId, ResolveItems(b.items), b.discountAmount.Or(0.0), b.taxRate.Or(20), b.notes.Or(None))
  }

  /** The stored amounts are the calculator's result for these items and the
      stored discount and rate. */
  predicate AmountsDerived(q: Quotation, items: seq<QuotationItem>) {
    var t := ComputeTotals(items, q.discountAmount, q.taxRate);
    q.subtotal == t.subtotal && q.taxAmount == t.taxAmount && q.total == t.total
  }

  /** create_quotation's header: computed amounts, the generated number,
      status "pending" and payment status "unpaid", no payment recorded. */
  function NewQuotation(r: QuotationRequest, number: string): (q: Quotation)
    ensures AmountsDerived(q, r.items)
    ensures q.discountAmount == r.discountAmount && q.taxRate == r.taxRate && q.notes == r.notes
    ensures q.status == "pending" && q.paymentStatus == "unpaid"
    ensures q.paymentDate.None? && q.paymentAmount.None? && q.paymentNotes.None?
    ensures q.quotationNumber == number && q.customerId == r.customerId
  {
    var t := ComputeTotals(r.items, r.discountAmount, r.taxRate);
    Quotation(r.customerId, number, t.subtotal, r.discountAmount, r.taxRate, t.taxAmount, t.total,
              r.notes, "pending", "unpaid", None, None, None)
  }

  /** update_quotation's header: the customer, discount, rate and notes are
      overwritten and the amounts recomputed from the new items; the number,
      the status and the payment columns are kept. */
  function ApplyQuotationRequest(q: Quotation, r: QuotationRequest): (q': Quotation)
    ensures AmountsDerived(q', r.items)
    ensures q'.discountAmount == r.discountAmount && q'.taxRate == r.taxRate
    ensures q'.customerId == r.customerId && q'.notes == r.notes
    ensures q'.quotationNumber == q.quotationNumber && q'.status == q.status
    ensures q'.paymentStatus == q.paymentStatus && q'.paymentDate == q.paymentDate
    ensures q'.paymentAmount == q.paymentAmount && q'.paymentNotes == q.paymentNotes
  {
    var t := ComputeTotals(r.items, r.discountAmount, r.taxRate);
    q.(customerId := r.customerId, subtotal := t.subtotal, discountAmount := r.discountAmount,
       taxRate := r.taxRate, taxAmount := t.taxAmount, total := t.total, notes := r.notes)
  }

  /** Create and update use one formula: for the same request, the header a
      create writes and the header an update writes carry the same amounts,
      whatever the updated row held before. */
  lemma CreateAndUpdateAgree(r: QuotationRequest, number: string, q: Quotation)
    ensures var c, u := NewQuotation(r, number), ApplyQuotationRequest(q, r);
            c.subtotal == u.subtotal && c.discountAmount == u.discountAmount && c.taxRate == u.taxRate
            && c.taxAmount == u.taxAmount && c.total == u.total
  {
  }

  /** update_quotation writes the whole header, not only the fields sent:
      a body that leaves out the tax rate, the discount or the notes resets
      them to 20, 0 and None, whatever the row held. A create from such a
      body stores the same values. */
  lemma OmittedFieldsReset(q: Quotation, b: QuotationInput, number: string)
    requires b.taxRate.Unset? || b.discountAmount.Unset? || b.notes.Unset?
    ensures var u, c := ApplyQuotationRequest(q, ResolveQuotation(b)), NewQuotation(ResolveQuotation(b), number);
      && (b.taxRate.Unset? ==> u.taxRate == 20 && c.taxRate == 20)
      && (b.discountAmount.Unset? ==> u.discountAmount == 0.0 && c.discountAmount == 0.0)
      && (b.notes.Unset? ==> u.notes.None? && c.notes.None?)
      && (q.taxRate != 20 && b.taxRate.Unset? ==> u != q)
  {
  }

  function QuotationPatch(r: QuotationRequest): Quotation -> Quotation {
    q => ApplyQuotationRequest(q, r)
  }

  /** The PaymentUpdate body: `payment_status` is required, the rest are
      written only when sent. */
  datatype PaymentUpdate = PaymentUpdate(
    paymentStatus: string,
    paymentDate: Field<Option<DateTime>>,
    paymentAmount: Field<Option<real>>,
    paymentNotes: Field<Option<string>>)

  /** update_payment_status' row: the payment columns sent, and nothing else;
      no check that the amount matches the total, and any status is taken. */
  function ApplyPayment(q: Quotation, p: PaymentUpdate): (q': Quotation)
    ensures q'.paymentStatus == p.paymentStatus
    ensures p.paymentDate.Set? ==> q'.paymentDate == p.paymentDate.value
    ensures p.paymentAmount.Set? ==> q'.paymentAmount == p.paymentAmount.value
    ensures p.paymentNotes.Set? ==> q'.paymentNotes == p.paymentNotes.value
    ensures p.paymentDate.Unset? ==> q'.paymentDate == q.paymentDate
    ensures p.paymentAmount.Unset? ==> q'.paymentAmount == q.paymentAmount
    ensures p.paymentNotes.Unset? ==> q'.paymentNotes == q.paymentNotes
    ensures q'.(paymentStatus := q.paymentStatus, paymentDate := q.paymentDate,
                paymentAmount := q.paymentAmount, paymentNotes := q.paymentNotes) == q
  {
    q.(paymentStatus := p.paymentStatus,
       paymentDate := p.paymentDate.Or(q.paymentDate),
       paymentAmount := p.paymentAmount.Or(q.paymentAmount),
       paymentNotes := p.paymentNotes.Or(q.paymentNotes))
  }

  function PaymentPatch(p: PaymentUpdate): Quotation -> Quotation {
    q => ApplyPayment(q, p)
  }

  /** A payment update keeps the header's amounts derived from its items. */
  lemma PaymentKeepsAmountsDerived(q: Quotation, p: PaymentUpdate, items: seq<QuotationItem>)
    requires AmountsDerived(q, items)
    ensures AmountsDerived(ApplyPayment(q, p), items)
  {
  }

  // ------------------------------------------------------------ reminders

  /** The data columns of a `reminders` row. */
  datatype Reminder = Reminder(quotationId: Id, reminderDate: DateTime, message: string, sent: bool)

  /** The ReminderCreate body. */
  datatype ReminderInput = ReminderInput(quotationId: Id, reminderDate: DateTime, message: string)

  /** create_reminder's row; `sent` starts false. */
  function NewReminder(i: ReminderInput): (r: Reminder)
    ensures r.quotationId == i.quotationId && r.reminderDate == i.reminderDate
    ensures r.message == i.message
    ensures !r.sent
  {
    Reminder(i.quotationId, i.reminderDate, i.message, false)
  }

  /** send_reminder's only effect on the row: `sent` becomes true and every
      other column keeps its value. */
  function MarkSent(r: Reminder): (r': Reminder)
    ensures r'.sent
    ensures r'.quotationId == r.quotationId && r'.reminderDate == r.reminderDate
    ensures r'.message == r.message
  {
    r.(sent := true)
  }

  /** MarkSent as the patch send_reminder hands to the filtered update. */
  function SendPatch(): Reminder -> Reminder {
    r => MarkSent(r)
  }

  /** Sending a reminder twice leaves it as sending it once; a new reminder
      and its sent form differ in the `sent` column alone. */
  lemma MarkSentIdempotent(r: Reminder, i: ReminderInput)
    ensures MarkSent(MarkSent(r)) == MarkSent(r)
    ensures MarkSent(NewReminder(i)) != NewReminder(i)
    ensures MarkSent(NewReminder(i)).(sent := false) == NewReminder(i)
  {
  }
}
