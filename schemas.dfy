/**
  The entity schemas of the catalogue and order service: Product, Project,
  OrderItem, CustomerInfo, Order and User, each with the constraints and
  defaults its fields declare.

  An incoming record gives each field a value or leaves it out (`Field`).
  For each entity there is
    - a predicate `Valid<Entity>Input` saying when a record is accepted,
    - a function `<Entity>Violations` listing every field that breaks a rule,
      each with its location and the kind of rule broken, in field order,
    - a function `Validate<Entity>` that yields the validated entity, with
      every omitted field set to its default, or the list of violations.
 */
module Schemas {
  import opened Wrappers

  /** A field of an incoming record: left out by the sender, or given a value. */
  datatype Field<T> = Omitted | Given(value: T)

  /** The given value, or the field's default when it was left out. */
  function OrDefault<T>(f: Field<T>, default: T): T {
    if f.Given? then f.value else default
  }

  // ---------------------------------------------------------------------
  // Validation errors
  // ---------------------------------------------------------------------

  /** One step of the path to an offending field: a field name or a list position. */
  datatype PathPart = Key(name: string) | Index(position: nat)

  /** The rule a field breaks. */
  datatype ErrorKind =
    | Missing                          // a required field was left out
    | GreaterThanEqual(bound: real)    // a number below its lower bound
    | LiteralError(expected: seq<string>)  // a text outside its closed set of values
    | InvalidEmail                     // an email address that is not well-formed

  datatype Violation = Violation(loc: seq<PathPart>, kind: ErrorKind)

  /** Some violation is reported at the top-level field `name`. */
  predicate Reports(errs: seq<Violation>, name: string) {
    exists v :: v in errs && v.loc == [Key(name)]
  }

  /** Every violation of `errs` is located at the top-level field `name`. */
  predicate AllAt(errs: seq<Violation>, name: string) {
    forall v :: v in errs ==> v.loc == [Key(name)]
  }

  /** Violations that all lie at one field report that field, when there are any, and no other. */
  lemma ReportsAllAt(errs: seq<Violation>, name: string, field: string)
    requires AllAt(errs, name)
    ensures Reports(errs, field) <==> field == name && errs != []
  {
    if errs != [] {
      assert errs[0] in errs;
    }
  }

  lemma ReportsAppend(a: seq<Violation>, b: seq<Violation>, name: string)
    ensures Reports(a + b, name) <==> Reports(a, name) || Reports(b, name)
  {
    if Reports(a + b, name) {
      var v :| v in a + b && v.loc == [Key(name)];
      assert v in a || v in b;
    }
    if Reports(a, name) {
      var v :| v in a && v.loc == [Key(name)];
      assert v in a + b;
    }
    if Reports(b, name) {
      var v :| v in b && v.loc == [Key(name)];
      assert v in a + b;
    }
  }

  /** A required field that was left out. */
  function RequiredCheck<T>(name: string, f: Field<T>): (r: seq<Violation>)
    ensures AllAt(r, name) && (r == [] <==> f.Given?)
    ensures f.Omitted? ==> |r| == 1 && r[0].kind == Missing
  {
    if f.Omitted? then [Violation([Key(name)], Missing)] else []
  }

  /** A number field with a lower bound `ge`; `required` says whether it may be left out. */
  function LowerBoundCheck(name: string, f: Field<real>, ge: real, required: bool): (r: seq<Violation>)
    ensures AllAt(r, name) && (r == [] <==> (f.Given? ==> f.value >= ge) && (required ==> f.Given?))
  {
    if f.Omitted? then (if required then [Violation([Key(name)], Missing)] else [])
    else if f.value >= ge then []
    else [Violation([Key(name)], GreaterThanEqual(ge))]
  }

  /** A text field restricted to the values `allowed`; `required` says whether it may be left out. */
  function LiteralCheck(name: string, f: Field<string>, allowed: seq<string>, required: bool): (r: seq<Violation>)
    ensures AllAt(r, name) && (r == [] <==> (f.Given? ==> f.value in allowed) && (required ==> f.Given?))
  {
    if f.Omitted? then (if required then [Violation([Key(name)], Missing)] else [])
    else if f.value in allowed then []
    else [Violation([Key(name)], LiteralError(allowed))]
  }

  /** A required email field; `emailOk` is the address syntax check. */
  function EmailCheck(name: string, f: Field<string>, emailOk: string -> bool): (r: seq<Violation>)
    ensures AllAt(r, name) && (r == [] <==> f.Given? && emailOk(f.value))
  {
    if f.Omitted? then [Violation([Key(name)], Missing)]
    else if emailOk(f.value) then []
    else [Violation([Key(name)], InvalidEmail)]
  }

  /** The violations of a nested record, relocated under `prefix`. */
  function Nested(prefix: seq<PathPart>, errs: seq<Violation>): (r: seq<Violation>)
    ensures |r| == |errs|
    ensures forall i :: 0 <= i < |r| ==> r[i].loc == prefix + errs[i].loc && r[i].kind == errs[i].kind
  {
    seq(|errs|, i requires 0 <= i < |errs| => Violation(prefix + errs[i].loc, errs[i].kind))
  }

  // ---------------------------------------------------------------------
  // Category: the closed set of product categories and project services
  // ---------------------------------------------------------------------

  datatype Category = Clothing | Vehicle | Gadgets

  const CategoryNames: seq<string> := ["clothing", "vehicle", "gadgets"]

  function CategoryName(c: Category): (s: string)
    ensures s in CategoryNames
    ensures ParseCategory(s) == Some(c)
  {
    match c
    case Clothing => "clothing"
    case Vehicle => "vehicle"
    case Gadgets => "gadgets"
  }

  /** The category a text names; only the three exact names are categories. */
  function ParseCategory(s: string): (r: Option<Category>)
    ensures r.Some? <==> s in CategoryNames
  {
    if s == "clothing" then Some(Clothing)
    else if s == "vehicle" then Some(Vehicle)
    else if s == "gadgets" then Some(Gadgets)
    else None
  }

  /** A text that names a category is that category's name: parsing loses nothing. */
  lemma ParseCategoryName(s: string)
    requires ParseCategory(s).Some?
    ensures CategoryName(ParseCategory(s).value) == s
  {
  }

  // ---------------------------------------------------------------------
  // Product
  // ---------------------------------------------------------------------

  datatype ProductInput = ProductInput(
    title: Field<string>,
    description: Field<Option<string>>,
    price: Field<real>,
    category: Field<string>,
    imageUrl: Field<Option<string>>,
    tags: Field<Option<seq<string>>>,
    inStock: Field<bool>)

  datatype Product = Product(
    title: string,
    description: Option<string>,
    price: real,
    category: Category,
    imageUrl: Option<string>,
    tags: Option<seq<string>>,
    inStock: bool)

  /** A validated product never has a negative price. */
  predicate ValidProduct(p: Product) {
    p.price >= 0.0
  }

  /** A product record is accepted when it has a title, a non-negative price and one of the three categories. */
  predicate ValidProductInput(raw: ProductInput) {
    && raw.title.Given?
    && raw.price.Given? && raw.price.value >= 0.0
    && raw.category.Given? && raw.category.value in CategoryNames
  }

  function ProductViolations(raw: ProductInput): (r: seq<Violation>)
    ensures r == [] <==> ValidProductInput(raw)
  {
    RequiredCheck("title", raw.title)
    + LowerBoundCheck("price", raw.price, 0.0, true)
    + LiteralCheck("category", raw.category, CategoryNames, true)
  }

  /** The violations of a product record name exactly its offending fields: a missing title, a missing or
      negative price, a missing category or one outside the three. */
  lemma ProductViolationsLocate(raw: ProductInput, field: string)
    ensures Reports(ProductViolations(raw), field) <==>
      || (field == "title" && raw.title.Omitted?)
      || (field == "price" && !(raw.price.Given? && raw.price.value >= 0.0))
      || (field == "category" && !(raw.category.Given? && raw.category.value in CategoryNames))
  {
    var a := RequiredCheck("title", raw.title);
    var b := LowerBoundCheck("price", raw.price, 0.0, true);
    var c := LiteralCheck("category", raw.category, CategoryNames, true);
    ReportsAppend(a + b, c, field);
    ReportsAppend(a, b, field);
    ReportsAllAt(a, "title", field);
    ReportsAllAt(b, "price", field);
    ReportsAllAt(c, "category", field);
  }

  function ValidateProduct(raw: ProductInput): (r: Result<Product, seq<Violation>>)
    ensures r.Success? <==> ValidProductInput(raw)
    ensures r.Failure? ==> r.error != [] && r.error == ProductViolations(raw)
    ensures r.Success? ==> ValidProduct(r.value)
    ensures r.Success? ==>
      && r.value.title == raw.title.value
      && r.value.price == raw.price.value
      && CategoryName(r.value.category) == raw.category.value
  {
    var errs := ProductViolations(raw);
    if errs != [] then Failure(errs)
    else Success(Product(
      raw.title.value,
      OrDefault(raw.description, None),
      raw.price.value,
      ParseCategory(raw.category.value).value,
      OrDefault(raw.imageUrl, None),
      OrDefault(raw.tags, Some([])),
      OrDefault(raw.inStock, true)))
  }

  /** Omitted product fields take their defaults; given ones are kept as given. */
  lemma ProductDefaults(raw: ProductInput)
    requires ValidProductInput(raw)
    ensures var p := ValidateProduct(raw).value;
      && (raw.description.Omitted? ==> p.description == None)
      && (raw.description.Given? ==> p.description == raw.description.value)
      && (raw.imageUrl.Omitted? ==> p.imageUrl == None)
      && (raw.imageUrl.Given? ==> p.imageUrl == raw.imageUrl.value)
      && (raw.tags.Omitted? ==> p.tags == Some([]))
      && (raw.tags.Given? ==> p.tags == raw.tags.value)
      && (raw.inStock.Omitted? ==> p.inStock)
      && (raw.inStock.Given? ==> p.inStock == raw.inStock.value)
  {
  }

  /** The record that gives every field of `p` explicitly. */
  function ProductInputOf(p: Product): ProductInput {
    ProductInput(Given(p.title), Given(p.description), Given(p.price), Given(CategoryName(p.category)),
                 Given(p.imageUrl), Given(p.tags), Given(p.inStock))
  }

  /** Validating a valid product's own fields gives back that product. */
  lemma RevalidateProduct(p: Product)
    requires ValidProduct(p)
    ensures ValidateProduct(ProductInputOf(p)) == Success(p)
  {
  }

  // ---------------------------------------------------------------------
  // Project
  // ---------------------------------------------------------------------

  datatype ProjectInput = ProjectInput(
    title: Field<string>,
    summary: Field<Option<string>>,
    service: Field<string>,
    heroImage: Field<Option<string>>,
    gallery: Field<Option<seq<string>>>,
    client: Field<Option<string>>)

  datatype Project = Project(
    title: string,
    summary: Option<string>,
    service: Category,
    heroImage: Option<string>,
    gallery: Option<seq<string>>,
    client: Option<string>)

  /** A project record is accepted when it has a title and one of the three services. */
  predicate ValidProjectInput(raw: ProjectInput) {
    raw.title.Given? && raw.service.Given? && raw.service.value in CategoryNames
  }

  function ProjectViolations(raw: ProjectInput): (r: seq<Violation>)
    ensures r == [] <==> ValidProjectInput(raw)
  {
    RequiredCheck("title", raw.title) + LiteralCheck("service", raw.service, CategoryNames, true)
  }

  /** The violations of a project record name exactly its offending fields. */
  lemma ProjectViolationsLocate(raw: ProjectInput, field: string)
    ensures Reports(ProjectViolations(raw), field) <==>
      || (field == "title" && raw.title.Omitted?)
      || (field == "service" && !(raw.service.Given? && raw.service.value in CategoryNames))
  {
    var a := RequiredCheck("title", raw.title);
    var b := LiteralCheck("service", raw.service, CategoryNames, true);
    ReportsAppend(a, b, field);
    ReportsAllAt(a, "title", field);
    ReportsAllAt(b, "service", field);
  }

  function ValidateProject(raw: ProjectInput): (r: Result<Project, seq<Violation>>)
    ensures r.Success? <==> ValidProjectInput(raw)
    ensures r.Failure? ==> r.error != [] && r.error == ProjectViolations(raw)
    ensures r.Success? ==>
      r.value.title == raw.title.value && CategoryName(r.value.service) == raw.service.value
  {
    var errs := ProjectViolations(raw);
    if errs != [] then Failure(errs)
    else Success(Project(
      raw.title.value,
      OrDefault(raw.summary, None),
      ParseCategory(raw.service.value).value,
      OrDefault(raw.heroImage, None),
      OrDefault(raw.gallery, Some([])),
      OrDefault(raw.client, None)))
  }

  /** Omitted project fields take their defaults; given ones are kept as given. */
  lemma ProjectDefaults(raw: ProjectInput)
    requires ValidProjectInput(raw)
    ensures var p := ValidateProject(raw).value;
      && (raw.summary.Omitted? ==> p.summary == None)
      && (raw.summary.Given? ==> p.summary == raw.summary.value)
      && (raw.heroImage.Omitted? ==> p.heroImage == None)
      && (raw.heroImage.Given? ==> p.heroImage == raw.heroImage.value)
      && (raw.gallery.Omitted? ==> p.gallery == Some([]))
      && (raw.gallery.Given? ==> p.gallery == raw.gallery.value)
      && (raw.client.Omitted? ==> p.client == None)
      && (raw.client.Given? ==> p.client == raw.client.value)
  {
  }

  // ---------------------------------------------------------------------
  // OrderItem
  // ---------------------------------------------------------------------

  datatype OrderItemInput = OrderItemInput(productId: Field<string>, quantity: Field<int>)

  datatype OrderItem = OrderItem(productId: string, quantity: int)

  const DefaultQuantity: int := 1

  /** An order item is accepted when it names a product and, if a quantity is given, it is at least 1. */
  predicate ValidOrderItemInput(raw: OrderItemInput) {
    raw.productId.Given? && (raw.quantity.Given? ==> raw.quantity.value >= 1)
  }

  /** The quantity field as a number, for the lower-bound check. */
  function QuantityAsNumber(f: Field<int>): Field<real> {
    if f.Given? then Given(f.value as real) else Omitted
  }

  function OrderItemViolations(raw: OrderItemInput): (r: seq<Violation>)
    ensures r == [] <==> ValidOrderItemInput(raw)
    ensures forall v :: v in r ==> |v.loc| == 1
  {
    RequiredCheck("product_id", raw.productId) + LowerBoundCheck("quantity", QuantityAsNumber(raw.quantity), 1.0, false)
  }

  /** The violations of an order item name exactly its offending fields. */
  lemma OrderItemViolationsLocate(raw: OrderItemInput, field: string)
    ensures Reports(OrderItemViolations(raw), field) <==>
      || (field == "product_id" && raw.productId.Omitted?)
      || (field == "quantity" && raw.quantity.Given? && raw.quantity.value < 1)
  {
    var a := RequiredCheck("product_id", raw.productId);
    var b := LowerBoundCheck("quantity", QuantityAsNumber(raw.quantity), 1.0, false);
    ReportsAppend(a, b, field);
    ReportsAllAt(a, "product_id", field);
    ReportsAllAt(b, "quantity", field);
  }

  function ValidateOrderItem(raw: OrderItemInput): (r: Result<OrderItem, seq<Violation>>)
    ensures r.Success? <==> ValidOrderItemInput(raw)
    ensures r.Failure? ==> r.error != [] && r.error == OrderItemViolations(raw)
    ensures r.Success? ==> r.value.productId == raw.productId.value && r.value.quantity >= 1
    ensures r.Success? ==> r.value.quantity == (if raw.quantity.Given? then raw.quantity.value else 1)
  {
    var errs := OrderItemViolations(raw);
    if errs != [] then Failure(errs)
    else Success(OrderItem(raw.productId.value, OrDefault(raw.quantity, DefaultQuantity)))
  }

  // ---------------------------------------------------------------------
  // CustomerInfo
  // ---------------------------------------------------------------------

  datatype CustomerInput = CustomerInput(
    name: Field<string>,
    email: Field<string>,
    phone: Field<Option<string>>,
    address: Field<Option<string>>)

  datatype CustomerInfo = CustomerInfo(name: string, email: string, phone: Option<string>, address: Option<string>)

  /** A customer record is accepted when it has a name and a well-formed email address. */
  predicate ValidCustomerInput(raw: CustomerInput, emailOk: string -> bool) {
    raw.name.Given? && raw.email.Given? && emailOk(raw.email.value)
  }

  function CustomerViolations(raw: CustomerInput, emailOk: string -> bool): (r: seq<Violation>)
    ensures r == [] <==> ValidCustomerInput(raw, emailOk)
    ensures forall v :: v in r ==> |v.loc| == 1
  {
    RequiredCheck("name", raw.name) + EmailCheck("email", raw.email, emailOk)
  }

  /** The violations of a customer record name exactly its offending fields. */
  lemma CustomerViolationsLocate(raw: CustomerInput, emailOk: string -> bool, field: string)
    ensures Reports(CustomerViolations(raw, emailOk), field) <==>
      || (field == "name" && raw.name.Omitted?)
      || (field == "email" && !(raw.email.Given? && emailOk(raw.email.value)))
  {
    var a := RequiredCheck("name", raw.name);
    var b := EmailCheck("email", raw.email, emailOk);
    ReportsAppend(a, b, field);
    ReportsAllAt(a, "name", field);
    ReportsAllAt(b, "email", field);
  }

  function ValidateCustomer(raw: CustomerInput, emailOk: string -> bool): (r: Result<CustomerInfo, seq<Violation>>)
    ensures r.Success? <==> ValidCustomerInput(raw, emailOk)
    ensures r.Failure? ==> r.error != [] && r.error == CustomerViolations(raw, emailOk)
    ensures r.Success? ==> r.value.name == raw.name.value && r.value.email == raw.email.value
    ensures r.Success? ==> r.value.phone == OrDefault(raw.phone, None) && r.value.address == OrDefault(raw.address, None)
  {
    var errs := CustomerViolations(raw, emailOk);
    if errs != [] then Failure(errs)
    else Success(CustomerInfo(raw.name.value, raw.email.value, OrDefault(raw.phone, None), OrDefault(raw.address, None)))
  }

  // ---------------------------------------------------------------------
  // Order
  // ---------------------------------------------------------------------

  datatype OrderStatus = Pending | Confirmed | InProgress | Completed | Cancelled

  const StatusNames: seq<string> := ["pending", "confirmed", "in_progress", "completed", "cancelled"]

  function StatusName(st: OrderStatus): (s: string)
    ensures s in StatusNames
    ensures ParseStatus(s) == Some(st)
  {
    match st
    case Pending => "pending"
    case Confirmed => "confirmed"
    case InProgress => "in_progress"
    case Completed => "completed"
    case Cancelled => "cancelled"
  }

  /** The status a text names; only the five exact names are statuses. */
  function ParseStatus(s: string): (r: Option<OrderStatus>)
    ensures r.Some? <==> s in StatusNames
  {
    if s == "pending" then Some(Pending)
    else if s == "confirmed" then Some(Confirmed)
    else if s == "in_progress" then Some(InProgress)
    else if s == "completed" then Some(Completed)
    else if s == "cancelled" then Some(Cancelled)
    else None
  }

  /** A text that names a status is that status's name: parsing loses nothing. */
  lemma ParseStatusName(s: string)
    requires ParseStatus(s).Some?
    ensures StatusName(ParseStatus(s).value) == s
  {
  }

  datatype OrderInput = OrderInput(
    items: Field<seq<OrderItemInput>>,
    customer: Field<CustomerInput>,
    notes: Field<Option<string>>,
    status: Field<string>)

  datatype Order = Order(items: seq<OrderItem>, customer: CustomerInfo, notes: Option<string>, status: OrderStatus)

  /** An order record is accepted when it has a list of items, each of them valid (the list may be empty),
      a valid customer, and, if a status is given, one of the five statuses. */
  predicate ValidOrderInput(raw: OrderInput, emailOk: string -> bool) {
    && raw.items.Given? && (forall i :: 0 <= i < |raw.items.value| ==> ValidOrderItemInput(raw.items.value[i]))
    && raw.customer.Given? && ValidCustomerInput(raw.customer.value, emailOk)
    && (raw.status.Given? ==> raw.status.value in StatusNames)
  }

  /** The violation lies inside the item at position `pos` of the order's items. */
  predicate ItemAt(v: Violation, pos: nat) {
    |v.loc| == 3 && v.loc[0] == Key("items") && v.loc[1] == Index(pos)
  }

  /** The violations of the items from position `start` on, each located at ("items", its position, its field). */
  function ItemsViolations(items: seq<OrderItemInput>, start: nat): (r: seq<Violation>)
    ensures r == [] <==> forall i :: 0 <= i < |items| ==> ValidOrderItemInput(items[i])
    decreases |items|
  {
    if items == [] then []
    else Nested([Key("items"), Index(start)], OrderItemViolations(items[0])) + ItemsViolations(items[1..], start + 1)
  }

  /** Every violation among the items lies inside one of them, and that item is invalid. */
  lemma {:induction false} ItemsViolationsWithin(items: seq<OrderItemInput>, start: nat)
    ensures forall v :: v in ItemsViolations(items, start) ==>
      exists k :: 0 <= k < |items| && ItemAt(v, start + k) && !ValidOrderItemInput(items[k])
    decreases |items|
  {
    if items != [] {
      ItemsViolationsWithin(items[1..], start + 1);
      var errs := OrderItemViolations(items[0]);
      var head := Nested([Key("items"), Index(start)], errs);
      var tail := ItemsViolations(items[1..], start + 1);
      forall v | v in head + tail
        ensures exists k :: 0 <= k < |items| && ItemAt(v, start + k) && !ValidOrderItemInput(items[k])
      {
        if v in head {
          NestedItemAt(items[0], start, v);
          assert ItemAt(v, start + 0) && !ValidOrderItemInput(items[0]);
        } else {
          var k :| 0 <= k < |items[1..]| && ItemAt(v, start + 1 + k) && !ValidOrderItemInput(items[1..][k]);
          assert ItemAt(v, start + (k + 1)) && !ValidOrderItemInput(items[k + 1]);
        }
      }
    }
  }

  /** A violation reported for one item sits at that item's position, and the item is invalid. */
  lemma NestedItemAt(item: OrderItemInput, pos: nat, v: Violation)
    requires v in Nested([Key("items"), Index(pos)], OrderItemViolations(item))
    ensures ItemAt(v, pos) && !ValidOrderItemInput(item)
  {
    var errs := OrderItemViolations(item);
    var i :| 0 <= i < |errs| && Nested([Key("items"), Index(pos)], errs)[i] == v;
    assert errs[i] in errs;
  }

  /** The violations of the items field: missing, or those of its items. */
  function ItemsFieldViolations(raw: OrderInput): seq<Violation> {
    if raw.items.Omitted? then [Violation([Key("items")], Missing)] else ItemsViolations(raw.items.value, 0)
  }

  /** The violations of the customer field: missing, or those of the customer record, under "customer". */
  function CustomerFieldViolations(raw: OrderInput, emailOk: string -> bool): seq<Violation> {
    if raw.customer.Omitted? then [Violation([Key("customer")], Missing)]
    else Nested([Key("customer")], CustomerViolations(raw.customer.value, emailOk))
  }

  function OrderViolations(raw: OrderInput, emailOk: string -> bool): (r: seq<Violation>)
    ensures r == [] <==> ValidOrderInput(raw, emailOk)
  {
    ItemsFieldViolations(raw) + CustomerFieldViolations(raw, emailOk) + LiteralCheck("status", raw.status, StatusNames, false)
  }

  /** Violations located deeper than the top level report no top-level field. */
  lemma NoTopLevelReports(errs: seq<Violation>, name: string)
    requires forall v :: v in errs ==> |v.loc| != 1
    ensures !Reports(errs, name)
  {
  }

  lemma ItemsReportNoTopLevel(items: seq<OrderItemInput>, name: string)
    ensures !Reports(ItemsViolations(items, 0), name)
  {
    var errs := ItemsViolations(items, 0);
    ItemsViolationsWithin(items, 0);
    forall v | v in errs ensures |v.loc| != 1 {
      var k :| 0 <= k < |items| && ItemAt(v, k) && !ValidOrderItemInput(items[k]);
    }
    NoTopLevelReports(errs, name);
  }

  lemma CustomerReportsNoTopLevel(raw: CustomerInput, emailOk: string -> bool, name: string)
    ensures !Reports(Nested([Key("customer")], CustomerViolations(raw, emailOk)), name)
  {
    var errs := CustomerViolations(raw, emailOk);
    var b := Nested([Key("customer")], errs);
    forall v | v in b ensures |v.loc| != 1 {
      var i :| 0 <= i < |b| && b[i] == v;
      assert errs[i] in errs;
    }
    NoTopLevelReports(b, name);
  }

  /** An order's violations report a top-level field exactly when that field is left out
      (items, customer) or holds a value outside its closed set (status). */
  lemma OrderViolationsLocate(raw: OrderInput, emailOk: string -> bool, name: string)
    requires name in {"items", "customer", "status"}
    ensures Reports(OrderViolations(raw, emailOk), name) <==>
      || (name == "items" && raw.items.Omitted?)
      || (name == "customer" && raw.customer.Omitted?)
      || (name == "status" && raw.status.Given? && raw.status.value !in StatusNames)
  {
    var a := ItemsFieldViolations(raw);
    var b := CustomerFieldViolations(raw, emailOk);
    var c := LiteralCheck("status", raw.status, StatusNames, false);
    ReportsAppend(a + b, c, name);
    ReportsAppend(a, b, name);
    assert Reports(a, name) <==> name == "items" && raw.items.Omitted? by {
      if raw.items.Given? {
        ItemsReportNoTopLevel(raw.items.value, name);
      } else {
        ReportsAllAt(a, "items", name);
      }
    }
    assert Reports(b, name) <==> name == "customer" && raw.customer.Omitted? by {
      if raw.customer.Given? {
        CustomerReportsNoTopLevel(raw.customer.value, emailOk, name);
      } else {
        ReportsAllAt(b, "customer", name);
      }
    }
    assert Reports(c, name) <==> name == "status" && raw.status.Given? && raw.status.value !in StatusNames by {
      ReportsAllAt(c, "status", name);
    }
  }

  /** No top-level field other than items, customer and status is ever blamed for an order. */
  lemma OrderViolationsNoOther(raw: OrderInput, emailOk: string -> bool, name: string)
    requires name !in {"items", "customer", "status"}
    ensures !Reports(OrderViolations(raw, emailOk), name)
  {
    var a := ItemsFieldViolations(raw);
    var b := CustomerFieldViolations(raw, emailOk);
    var c := LiteralCheck("status", raw.status, StatusNames, false);
    ReportsAppend(a + b, c, name);
    ReportsAppend(a, b, name);
    if raw.items.Given? {
      ItemsReportNoTopLevel(raw.items.value, name);
    } else {
      ReportsAllAt(a, "items", name);
    }
    if raw.customer.Given? {
      CustomerReportsNoTopLevel(raw.customer.value, emailOk, name);
    } else {
      ReportsAllAt(b, "customer", name);
    }
    ReportsAllAt(c, "status", name);
  }

  /** The validated items, in order. */
  function ValidatedItems(items: seq<OrderItemInput>): (r: seq<OrderItem>)
    requires forall i :: 0 <= i < |items| ==> ValidOrderItemInput(items[i])
    ensures |r| == |items|
    ensures forall i :: 0 <= i < |items| ==> Success(r[i]) == ValidateOrderItem(items[i])
  {
    seq(|items|, i requires 0 <= i < |items| => ValidateOrderItem(items[i]).value)
  }

  function ValidateOrder(raw: OrderInput, emailOk: string -> bool): (r: Result<Order, seq<Violation>>)
    ensures r.Success? <==> ValidOrderInput(raw, emailOk)
    ensures r.Failure? ==> r.error != [] && r.error == OrderViolations(raw, emailOk)
    ensures r.Success? ==>
      && |r.value.items| == |raw.items.value|
      && (forall i :: 0 <= i < |r.value.items| ==> Success(r.value.items[i]) == ValidateOrderItem(raw.items.value[i]))
      && Success(r.value.customer) == ValidateCustomer(raw.customer.value, emailOk)
      && r.value.notes == OrDefault(raw.notes, None)
      && (raw.status.Omitted? ==> r.value.status == Pending)
      && (raw.status.Given? ==> StatusName(r.value.status) == raw.status.value)
  {
    var errs := OrderViolations(raw, emailOk);
    if errs != [] then Failure(errs) else Success(AcceptedOrder(raw, emailOk))
  }

  /** The validated order built from an accepted order record. */
  function AcceptedOrder(raw: OrderInput, emailOk: string -> bool): (o: Order)
    requires ValidOrderInput(raw, emailOk)
    ensures |o.items| == |raw.items.value|
    ensures forall i :: 0 <= i < |o.items| ==> Success(o.items[i]) == ValidateOrderItem(raw.items.value[i])
    ensures Success(o.customer) == ValidateCustomer(raw.customer.value, emailOk)
    ensures raw.status.Given? ==> StatusName(o.status) == raw.status.value
  {
    var st := if raw.status.Given? then ParseStatus(raw.status.value).value else Pending;
    Order(ValidatedItems(raw.items.value), ValidateCustomer(raw.customer.value, emailOk).value, OrDefault(raw.notes, None), st)
  }

  /** An order with an empty list of items is accepted: nothing requires an order to have an item. */
  lemma OrderWithoutItemsAccepted(customer: CustomerInput, emailOk: string -> bool)
    requires ValidCustomerInput(customer, emailOk)
    ensures var r := ValidateOrder(OrderInput(Given([]), Given(customer), Omitted, Omitted), emailOk);
      r.Success? && r.value.items == [] && r.value.status == Pending && r.value.notes == None
  {
  }

  /** One invalid item makes the whole order invalid, and it is reported at its position. */
  lemma InvalidItemRejectsOrder(raw: OrderInput, emailOk: string -> bool, k: nat)
    requires raw.items.Given? && k < |raw.items.value| && !ValidOrderItemInput(raw.items.value[k])
    ensures ValidateOrder(raw, emailOk).Failure?
    ensures exists v :: v in OrderViolations(raw, emailOk) && ItemAt(v, k)
  {
    var items := ItemsFieldViolations(raw);
    ItemsAt(raw.items.value, 0, k);
    var v :| v in items && ItemAt(v, k);
    var rest := CustomerFieldViolations(raw, emailOk);
    assert v in items + rest + LiteralCheck("status", raw.status, StatusNames, false);
  }

  /** An invalid item contributes a violation at its own position. */
  lemma NestedItemFirst(item: OrderItemInput, pos: nat) returns (v: Violation)
    requires !ValidOrderItemInput(item)
    ensures v in Nested([Key("items"), Index(pos)], OrderItemViolations(item)) && ItemAt(v, pos)
  {
    var errs := OrderItemViolations(item);
    assert errs[0] in errs;
    v := Nested([Key("items"), Index(pos)], errs)[0];
  }

  /** The violations of the item at position `k` appear among the items' violations, located at that position. */
  lemma {:induction false} ItemsAt(items: seq<OrderItemInput>, start: nat, k: nat)
    requires k < |items| && !ValidOrderItemInput(items[k])
    ensures exists v :: v in ItemsViolations(items, start) && ItemAt(v, start + k)
    decreases |items|
  {
    var head := Nested([Key("items"), Index(start)], OrderItemViolations(items[0]));
    assert ItemsViolations(items, start) == head + ItemsViolations(items[1..], start + 1);
    if k == 0 {
      var v := NestedItemFirst(items[0], start);
      assert v in ItemsViolations(items, start);
    } else {
      ItemsAt(items[1..], start + 1, k - 1);
      var v :| v in ItemsViolations(items[1..], start + 1) && ItemAt(v, start + 1 + (k - 1));
      assert v in ItemsViolations(items, start);
    }
  }

  /** A one-item order from a named customer with an accepted address validates, keeping the item's quantity
      and taking the default status. */
  lemma SampleOrderAccepted(emailOk: string -> bool)
    requires emailOk("jane@example.com")
    ensures var r := ValidateOrder(OrderInput(
        Given([OrderItemInput(Given("abc123"), Given(2))]),
        Given(CustomerInput(Given("Jane"), Given("jane@example.com"), Omitted, Omitted)),
        Omitted, Omitted), emailOk);
      && r.Success?
      && r.value.items == [OrderItem("abc123", 2)]
      && r.value.customer == CustomerInfo("Jane", "jane@example.com", None, None)
      && r.value.status == Pending
  {
  }

  // ---------------------------------------------------------------------
  // User
  // ---------------------------------------------------------------------

  datatype UserInput = UserInput(
    name: Field<string>,
    email: Field<string>,
    address: Field<Option<string>>,
    age: Field<Option<int>>,
    isActive: Field<bool>)

  datatype User = User(name: string, email: string, address: Option<string>, age: Option<int>, isActive: bool)

  predicate ValidUserInput(raw: UserInput, emailOk: string -> bool) {
    raw.name.Given? && raw.email.Given? && emailOk(raw.email.value)
  }

  function ValidateUser(raw: UserInput, emailOk: string -> bool): (r: Result<User, seq<Violation>>)
    ensures r.Success? <==> ValidUserInput(raw, emailOk)
    ensures r.Failure? ==> r.error != [] && forall v :: v in r.error ==> v.loc in {[Key("name")], [Key("email")]}
    ensures r.Success? ==>
      && r.value.name == raw.name.value && r.value.email == raw.email.value
      && (raw.isActive.Omitted? ==> r.value.isActive)
      && (raw.address.Omitted? ==> r.value.address == None)
      && (raw.age.Omitted? ==> r.value.age == None)
  {
    var errs := RequiredCheck("name", raw.name) + EmailCheck("email", raw.email, emailOk);
    if errs != [] then Failure(errs)
    else Success(User(raw.name.value, raw.email.value, OrDefault(raw.address, None), OrDefault(raw.age, None),
                      OrDefault(raw.isActive, true)))
  }
}
