/**
  The service's handlers over the document store: seeding the catalogue with
  demo records, listing products and projects by an optional exact-match
  filter with identifiers turned into text, and accepting an order.
 */
module Api {
  import opened Wrappers
  import opened Schemas
  import opened DocumentStore

  const ProductCollection: string := "product"
  const ProjectCollection: string := "project"
  const OrderCollection: string := "order"

  /** The errors a handler reports: an HTTP error with its status code and detail, a request body
      that fails its schema (answered with status 422 and the list of violations), or an
      unreachable store. */
  datatype ApiError =
    | HttpError(status: int, detail: string)
    | RequestInvalid(status: int, errors: seq<Violation>)
    | StoreUnavailable

  /** The status of a reply to a request body that fails validation. */
  const UnprocessableStatus: int := 422

  /** The reply of the seeding endpoint: the number of products and projects after seeding. */
  datatype SeedResponse = SeedResponse(products: nat, projects: nat)

  /** The reply to a new order: its identifier as text and the fixed status "received". */
  datatype OrderReceipt = OrderReceipt(id: string, status: string)

  const ReceivedStatus: string := "received"

  // ---------------------------------------------------------------------
  // Entities as stored documents (the field names are the schema's own)
  // ---------------------------------------------------------------------

  function OptText(o: Option<string>): Value {
    if o.Some? then Str(o.value) else Null
  }

  function TextList(xs: seq<string>): Value {
    Arr(seq(|xs|, i requires 0 <= i < |xs| => Str(xs[i])))
  }

  function OptTextList(o: Option<seq<string>>): Value {
    if o.Some? then TextList(o.value) else Null
  }

  /** The field names of a stored product, as the schema declares them. */
  const ProductFields: set<string> := {"title", "description", "price", "category", "image_url", "tags", "in_stock"}

  /** The field names of a stored project. */
  const ProjectFields: set<string> := {"title", "summary", "service", "hero_image", "gallery", "client"}

  /** The field names of a stored order. */
  const OrderFields: set<string> := {"items", "customer", "notes", "status"}

  /** A product as `create_document` stores it: one field per schema field, under the schema's name,
      with no identifier yet. */
  function ProductDocument(p: Product): Document {
    map[
      "title" := Str(p.title),
      "description" := OptText(p.description),
      "price" := Num(p.price),
      "category" := Str(CategoryName(p.category)),
      "image_url" := OptText(p.imageUrl),
      "tags" := OptTextList(p.tags),
      "in_stock" := Bool(p.inStock)]
  }

  /** A project as `create_document` stores it. */
  function ProjectDocument(p: Project): Document {
    map[
      "title" := Str(p.title),
      "summary" := OptText(p.summary),
      "service" := Str(CategoryName(p.service)),
      "hero_image" := OptText(p.heroImage),
      "gallery" := OptTextList(p.gallery),
      "client" := OptText(p.client)]
  }

  function OrderItemValue(it: OrderItem): Value {
    Obj(map["product_id" := Str(it.productId), "quantity" := Int(it.quantity)])
  }

  function CustomerValue(c: CustomerInfo): Value {
    Obj(map["name" := Str(c.name), "email" := Str(c.email), "phone" := OptText(c.phone), "address" := OptText(c.address)])
  }

  /** An order as `create_document` stores it, items in order and the customer as a nested object. */
  function OrderDocument(o: Order): Document {
    map[
      "items" := Arr(seq(|o.items|, i requires 0 <= i < |o.items| => OrderItemValue(o.items[i]))),
      "customer" := CustomerValue(o.customer),
      "notes" := OptText(o.notes),
      "status" := Str(StatusName(o.status))]
  }

  /** A stored product has exactly the schema's fields and no identifier yet; its title, price and
      category read back as the product's own. */
  lemma ProductDocumentFields(p: Product)
    ensures var d := ProductDocument(p);
      && d.Keys == ProductFields && IdField !in d
      && d["title"] == Str(p.title) && d["price"] == Num(p.price)
      && d["category"].Str? && ParseCategory(d["category"].s) == Some(p.category)
  {
  }

  /** A stored project has exactly the schema's fields and no identifier yet; its service reads back. */
  lemma ProjectDocumentFields(p: Project)
    ensures var d := ProjectDocument(p);
      && d.Keys == ProjectFields && IdField !in d
      && d["title"] == Str(p.title)
      && d["service"].Str? && ParseCategory(d["service"].s) == Some(p.service)
  {
  }

  /** A stored order has exactly the schema's fields and no identifier yet; its items keep their order
      and its status reads back. */
  lemma OrderDocumentFields(o: Order)
    ensures var d := OrderDocument(o);
      && d.Keys == OrderFields && IdField !in d
      && d["items"].Arr? && |d["items"].elems| == |o.items|
      && (forall i :: 0 <= i < |o.items| ==> d["items"].elems[i] == OrderItemValue(o.items[i]))
      && d["status"].Str? && ParseStatus(d["status"].s) == Some(o.status)
  {
  }

  /** A stored product matches the exact-match filter on its category just when it is of that category. */
  lemma ProductMatchesCategory(p: Product, id: nat, name: string)
    ensures Matches(Stamp(ProductDocument(p), id), map["category" := Str(name)]) <==> CategoryName(p.category) == name
  {
    var d := Stamp(ProductDocument(p), id);
    assert d["category"] == Str(CategoryName(p.category));
  }

  // ---------------------------------------------------------------------
  // Demo records
  // ---------------------------------------------------------------------

  /** The three demo products as the seeding routine writes them, with the fields they leave out omitted. */
  const DemoProductInputs: seq<ProductInput> := [
    ProductInput(Given("Custom Performance Hoodie"), Given(Some("Breathable fabric, embroidered logos")), Given(79.0),
                 Given("clothing"), Given(Some("/images/hoodie.jpg")), Given(Some(["hoodie", "embroidery"])), Omitted),
    ProductInput(Given("Carbon Fiber Wrap Kit"), Given(Some("Premium vehicle vinyl wrap kit")), Given(499.0),
                 Given("vehicle"), Given(Some("/images/wrap.jpg")), Given(Some(["wrap", "vehicle"])), Omitted),
    ProductInput(Given("Laser-Engraved Power Bank"), Given(Some("10,000mAh with custom engraving")), Given(39.0),
                 Given("gadgets"), Given(Some("/images/powerbank.jpg")), Given(Some(["engraving", "gift"])), Omitted)
  ]

  const DemoProducts: seq<Product> := [
    Product("Custom Performance Hoodie", Some("Breathable fabric, embroidered logos"), 79.0,
            Clothing, Some("/images/hoodie.jpg"), Some(["hoodie", "embroidery"]), true),
    Product("Carbon Fiber Wrap Kit", Some("Premium vehicle vinyl wrap kit"), 499.0,
            Vehicle, Some("/images/wrap.jpg"), Some(["wrap", "vehicle"]), true),
    Product("Laser-Engraved Power Bank", Some("10,000mAh with custom engraving"), 39.0,
            Gadgets, Some("/images/powerbank.jpg"), Some(["engraving", "gift"]), true)
  ]

  const DemoProjectInputs: seq<ProjectInput> := [
    ProjectInput(Given("Track-Ready Mustang Wrap"), Given(Some("Matte black with neon accents")), Given("vehicle"),
                 Given(Some("/images/mustang.jpg")), Given(Some(["/images/mustang1.jpg", "/images/mustang2.jpg"])),
                 Given(Some("Northshore Racing"))),
    ProjectInput(Given("Startup Team Jerseys"), Given(Some("Custom jerseys with heat-press numbers")), Given("clothing"),
                 Given(Some("/images/jerseys.jpg")), Given(Some(["/images/jersey1.jpg"])), Given(Some("Team Nova"))),
    ProjectInput(Given("Corporate Gift Set"), Given(Some("Branded gadgets pack for conference")), Given("gadgets"),
                 Given(Some("/images/gifts.jpg")), Given(Some(["/images/gift1.jpg"])), Given(Some("Acme Corp")))
  ]

  const DemoProjects: seq<Project> := [
    Project("Track-Ready Mustang Wrap", Some("Matte black with neon accents"), Vehicle,
            Some("/images/mustang.jpg"), Some(["/images/mustang1.jpg", "/images/mustang2.jpg"]), Some("Northshore Racing")),
    Project("Startup Team Jerseys", Some("Custom jerseys with heat-press numbers"), Clothing,
            Some("/images/jerseys.jpg"), Some(["/images/jersey1.jpg"]), Some("Team Nova")),
    Project("Corporate Gift Set", Some("Branded gadgets pack for conference"), Gadgets,
            Some("/images/gifts.jpg"), Some(["/images/gift1.jpg"]), Some("Acme Corp"))
  ]

  /** Building the demo records passes validation, and yields the records seeding stores
      (the availability flag defaulted to true). */
  lemma DemoRecordsValidate()
    ensures |DemoProductInputs| == |DemoProducts| == 3 && |DemoProjectInputs| == |DemoProjects| == 3
    ensures forall i :: 0 <= i < 3 ==> ValidateProduct(DemoProductInputs[i]) == Success(DemoProducts[i])
    ensures forall i :: 0 <= i < 3 ==> ValidateProject(DemoProjectInputs[i]) == Success(DemoProjects[i])
  {
  }

  /** The demo records as the documents seeding inserts, in order. */
  const DemoProductDocuments: seq<Document> :=
    [ProductDocument(DemoProducts[0]), ProductDocument(DemoProducts[1]), ProductDocument(DemoProducts[2])]

  const DemoProjectDocuments: seq<Document> :=
    [ProjectDocument(DemoProjects[0]), ProjectDocument(DemoProjects[1]), ProjectDocument(DemoProjects[2])]

  // ---------------------------------------------------------------------
  // Seeding
  // ---------------------------------------------------------------------

  /** The state after seeding: each of the two collections that is empty at the start receives
      its demo records in order; both counts are taken before anything is inserted. */
  function SeedState(s: StoreState): (r: StoreState)
    ensures r.nextId == s.nextId + (if |Docs(s, ProductCollection)| == 0 then 3 else 0)
                                 + (if |Docs(s, ProjectCollection)| == 0 then 3 else 0)
  {
    var productsCount := |Docs(s, ProductCollection)|;
    var projectsCount := |Docs(s, ProjectCollection)|;
    var afterProducts := if productsCount == 0 then InsertAll(s, ProductCollection, DemoProductDocuments) else s;
    if projectsCount == 0 then InsertAll(afterProducts, ProjectCollection, DemoProjectDocuments) else afterProducts
  }

  /** The reply of seeding: the counts of the two collections afterwards. */
  function SeedCounts(s: StoreState): (r: SeedResponse)
    ensures r.products == if |Docs(s, ProductCollection)| == 0 then 3 else |Docs(s, ProductCollection)|
    ensures r.projects == if |Docs(s, ProjectCollection)| == 0 then 3 else |Docs(s, ProjectCollection)|
  {
    SeedProducts(s);
    SeedProjects(s);
    var t := SeedState(s);
    SeedResponse(|Docs(t, ProductCollection)|, |Docs(t, ProjectCollection)|)
  }

  /** The documents without their identifier fields. */
  function StripIds(ds: seq<Document>): (r: seq<Document>)
    ensures |r| == |ds|
  {
    seq(|ds|, i requires 0 <= i < |ds| => ds[i] - {IdField})
  }

  lemma StripStampAll(ds: seq<Document>, first: nat)
    requires forall i :: 0 <= i < |ds| ==> IdField !in ds[i]
    ensures StripIds(StampAll(ds, first)) == ds
  {
    forall i | 0 <= i < |ds| ensures StripIds(StampAll(ds, first))[i] == ds[i] {
      assert StampAll(ds, first)[i] == Stamp(ds[i], first + i);
    }
  }

  lemma DemoDocumentsUnstamped()
    ensures forall i :: 0 <= i < |DemoProductDocuments| ==> IdField !in DemoProductDocuments[i]
    ensures forall i :: 0 <= i < |DemoProjectDocuments| ==> IdField !in DemoProjectDocuments[i]
  {
  }

  /** The product collection after seeding: the demo products with fresh identifiers when it was empty,
      as it was otherwise. */
  lemma SeedProducts(s: StoreState)
    ensures Docs(SeedState(s), ProductCollection) ==
      if |Docs(s, ProductCollection)| == 0 then StampAll(DemoProductDocuments, s.nextId)
      else Docs(s, ProductCollection)
  {
    var s1 := if |Docs(s, ProductCollection)| == 0 then InsertAll(s, ProductCollection, DemoProductDocuments) else s;
    if |Docs(s, ProductCollection)| == 0 {
      InsertAllEffect(s, ProductCollection, DemoProductDocuments);
    }
    if |Docs(s, ProjectCollection)| == 0 {
      InsertAllOther(s1, ProjectCollection, DemoProjectDocuments, ProductCollection);
    }
  }

  /** The project collection after seeding: the demo projects with fresh identifiers when it was empty,
      as it was otherwise. */
  lemma SeedProjects(s: StoreState)
    ensures Docs(SeedState(s), ProjectCollection) ==
      if |Docs(s, ProjectCollection)| == 0
      then StampAll(DemoProjectDocuments, s.nextId + (if |Docs(s, ProductCollection)| == 0 then |DemoProductDocuments| else 0))
      else Docs(s, ProjectCollection)
  {
    ProjectsAfterSeeding(s, DemoProductDocuments, DemoProjectDocuments);
  }

  /** The shape of `SeedState` with the records to insert left open, so that the proof about the
      project collection does not depend on what the demo records hold. */
  lemma ProjectsAfterSeeding(s: StoreState, productDocs: seq<Document>, projectDocs: seq<Document>)
    ensures var s1 := if |Docs(s, ProductCollection)| == 0 then InsertAll(s, ProductCollection, productDocs) else s;
      var t := if |Docs(s, ProjectCollection)| == 0 then InsertAll(s1, ProjectCollection, projectDocs) else s1;
      Docs(t, ProjectCollection) ==
        if |Docs(s, ProjectCollection)| == 0
        then StampAll(projectDocs, s.nextId + (if |Docs(s, ProductCollection)| == 0 then |productDocs| else 0))
        else Docs(s, ProjectCollection)
  {
    var s1 := if |Docs(s, ProductCollection)| == 0 then InsertAll(s, ProductCollection, productDocs) else s;
    if |Docs(s, ProductCollection)| == 0 {
      InsertAllOther(s, ProductCollection, productDocs, ProjectCollection);
    }
    if |Docs(s, ProjectCollection)| == 0 {
      InsertAllEffect(s1, ProjectCollection, projectDocs);
    }
  }

  /** Seeding decides each collection on that collection's own count: apart from identifiers,
      the products afterwards depend only on the products before, and the projects only on the projects. */
  lemma SeedIndependent(s: StoreState)
    ensures StripIds(Docs(SeedState(s), ProductCollection)) ==
      if |Docs(s, ProductCollection)| == 0 then DemoProductDocuments else StripIds(Docs(s, ProductCollection))
    ensures StripIds(Docs(SeedState(s), ProjectCollection)) ==
      if |Docs(s, ProjectCollection)| == 0 then DemoProjectDocuments else StripIds(Docs(s, ProjectCollection))
  {
    DemoDocumentsUnstamped();
    assert StripIds(Docs(SeedState(s), ProductCollection)) ==
      if |Docs(s, ProductCollection)| == 0 then DemoProductDocuments else StripIds(Docs(s, ProductCollection))
    by {
      SeedProducts(s);
      StripStampAll(DemoProductDocuments, s.nextId);
    }
    assert StripIds(Docs(SeedState(s), ProjectCollection)) ==
      if |Docs(s, ProjectCollection)| == 0 then DemoProjectDocuments else StripIds(Docs(s, ProjectCollection))
    by {
      SeedProjects(s);
      StripStampAll(DemoProjectDocuments, s.nextId + (if |Docs(s, ProductCollection)| == 0 then |DemoProductDocuments| else 0));
    }
  }

  /** Seeding changes no collection other than the product and project collections. */
  lemma SeedFrame(s: StoreState)
    ensures SeedState(s).collections - {ProductCollection, ProjectCollection} ==
            s.collections - {ProductCollection, ProjectCollection}
  {
    var s1 := if |Docs(s, ProductCollection)| == 0 then InsertAll(s, ProductCollection, DemoProductDocuments) else s;
    if |Docs(s, ProductCollection)| == 0 {
      InsertAllEffect(s, ProductCollection, DemoProductDocuments);
    }
    if |Docs(s, ProjectCollection)| == 0 {
      InsertAllEffect(s1, ProjectCollection, DemoProjectDocuments);
    }
    MinusBoth(s1.collections, s.collections, ProductCollection, ProjectCollection);
    MinusBoth(SeedState(s).collections, s1.collections, ProjectCollection, ProductCollection);
    assert {ProjectCollection, ProductCollection} == {ProductCollection, ProjectCollection};
  }

  lemma MinusBoth<K, V>(m: map<K, V>, n: map<K, V>, a: K, b: K)
    requires m - {a} == n - {a}
    ensures m - {a, b} == n - {a, b}
  {
    assert m - {a, b} == (m - {a}) - {b};
    assert n - {a, b} == (n - {a}) - {b};
  }

  /** The counts seeding reports: three for a collection that was empty, the old count otherwise;
      so after seeding neither collection is empty. */
  lemma SeedCountsValue(s: StoreState)
    ensures SeedCounts(s).products >= 1 && SeedCounts(s).projects >= 1
    ensures SeedCounts(s) == SeedResponse(|Docs(SeedState(s), ProductCollection)|, |Docs(SeedState(s), ProjectCollection)|)
  {
  }

  /** Seeding twice is seeding once: the second call changes nothing and reports the same counts. */
  lemma SeedIdempotent(s: StoreState)
    ensures SeedState(SeedState(s)) == SeedState(s)
    ensures SeedCounts(SeedState(s)) == SeedCounts(s)
  {
    SeedCountsValue(s);
    var t := SeedState(s);
    assert |Docs(t, ProductCollection)| != 0 && |Docs(t, ProjectCollection)| != 0;
  }

  /** Seeding keeps identifiers store-generated and unique. */
  lemma SeedWellformed(s: StoreState)
    requires Wellformed(s)
    ensures Wellformed(SeedState(s))
  {
    var s1 := if |Docs(s, ProductCollection)| == 0 then InsertAll(s, ProductCollection, DemoProductDocuments) else s;
    if |Docs(s, ProductCollection)| == 0 {
      InsertAllWellformed(s, ProductCollection, DemoProductDocuments);
    }
    if |Docs(s, ProjectCollection)| == 0 {
      InsertAllWellformed(s1, ProjectCollection, DemoProjectDocuments);
    }
  }

  /** The insertion loops of seeding: `create_document(name, d)` for each document, in order. */
  method CreateDocuments(db: Database, name: string, docs: seq<Document>)
    requires db.Valid()
    modifies db
    ensures db.Valid() && db.State() == InsertAll(old(db.State()), name, docs)
  {
    for i := 0 to |docs|
      invariant db.Valid() && db.State() == InsertAll(old(db.State()), name, docs[..i])
    {
      assert docs[..i + 1][..i] == docs[..i];
      var id := db.CreateDocument(name, docs[i]);
    }
    assert docs[..|docs|] == docs;
  }

  /** `seed_data`: fails when no store is configured; otherwise fills each empty collection with its
      demo records and reports the final counts. */
  method SeedData(db: Database?) returns (r: Result<SeedResponse, ApiError>)
    requires db != null ==> db.Valid()
    modifies db
    ensures db == null ==> r == Failure(HttpError(500, "Database not configured"))
    ensures db != null ==> db.Valid() && db.State() == SeedState(old(db.State()))
    ensures db != null ==> r == Success(SeedCounts(old(db.State())))
    ensures db != null ==>
      r.value == SeedResponse(|Docs(db.State(), ProductCollection)|, |Docs(db.State(), ProjectCollection)|)
  {
    if db == null {
      return Failure(HttpError(500, "Database not configured"));
    }
    var productsCount := db.CountDocuments(ProductCollection);
    var projectsCount := db.CountDocuments(ProjectCollection);

    if productsCount == 0 {
      CreateDocuments(db, ProductCollection, DemoProductDocuments);
    }
    if projectsCount == 0 {
      CreateDocuments(db, ProjectCollection, DemoProjectDocuments);
    }

    var products := db.CountDocuments(ProductCollection);
    var projects := db.CountDocuments(ProjectCollection);
    r := Success(SeedResponse(products, projects));
  }

  // ---------------------------------------------------------------------
  // Queries
  // ---------------------------------------------------------------------

  /** The filter of a listing: `{field: value}` for a non-empty value, the empty filter for none or "". */
  function QueryFilter(field: string, arg: Option<string>): (r: Document)
    ensures r == map[] <==> arg.None? || arg.value == ""
    ensures forall k :: k in r ==> k == field && r[k] == Str(arg.value)
  {
    if arg.Some? && arg.value != "" then
      var m := map[field := Str(arg.value)];
      assert field in m;
      m
    else map[]
  }

  /** A listing with no value, or the empty value, returns every document in order; one with a value returns
      exactly the documents whose field holds that value. */
  lemma QueryFilterSelects(docs: seq<Document>, field: string, arg: Option<string>)
    ensures arg.None? || arg.value == "" ==> Select(docs, QueryFilter(field, arg)) == docs
    ensures arg.Some? && arg.value != "" ==>
      forall d :: d in Select(docs, QueryFilter(field, arg)) <==> d in docs && field in d && d[field] == Str(arg.value)
  {
    if arg.None? || arg.value == "" {
      SelectEmptyFilter(docs);
    }
  }

  /** The document handed to callers: its identifier replaced by the identifier's text form. */
  function WithTextId(d: Document): (r: Document)
    requires HasObjectId(d)
    ensures r.Keys == d.Keys
    ensures forall k :: k in d && k != IdField ==> r[k] == d[k]
    ensures r[IdField].Str? && ParseIdText(r[IdField].s) == Some(IdOf(d))
  {
    d[IdField := Str(IdText(IdOf(d)))]
  }

  /** The text form of the identifier loses nothing: the stored document can be recovered. */
  lemma WithTextIdRoundTrip(d: Document)
    requires HasObjectId(d)
    ensures var r := WithTextId(d);
      ParseIdText(r[IdField].s).Some? && r[IdField := Oid(ParseIdText(r[IdField].s).value)] == d
  {
    var r := WithTextId(d);
    assert r[IdField := Oid(IdOf(d))] == d;
  }

  predicate AllHaveIds(docs: seq<Document>) {
    forall i :: 0 <= i < |docs| ==> HasObjectId(docs[i])
  }

  function TextIds(docs: seq<Document>): (r: seq<Document>)
    requires AllHaveIds(docs)
    ensures |r| == |docs|
    ensures forall i :: 0 <= i < |docs| ==> r[i] == WithTextId(docs[i])
  {
    seq(|docs|, i requires 0 <= i < |docs| => WithTextId(docs[i]))
  }

  /** Documents read from a well-formed store carry identifiers. */
  lemma StoredDocsHaveIds(s: StoreState, name: string, filter: Document)
    requires Wellformed(s)
    ensures AllHaveIds(Select(Docs(s, name), filter))
  {
    var found := Select(Docs(s, name), filter);
    forall i | 0 <= i < |found| ensures HasObjectId(found[i]) {
      assert found[i] in found;
      var j :| 0 <= j < |Docs(s, name)| && Docs(s, name)[j] == found[i];
      assert name in s.collections;
    }
  }

  /** The loop of the listing handlers: each document's identifier replaced by its text form, in place. */
  method StringifyIds(found: seq<Document>) returns (docs: seq<Document>)
    requires AllHaveIds(found)
    ensures docs == TextIds(found)
  {
    docs := found;
    var i := 0;
    while i < |docs|
      invariant 0 <= i <= |docs| == |found|
      invariant forall j :: 0 <= j < i ==> docs[j] == WithTextId(found[j])
      invariant forall j :: i <= j < |docs| ==> docs[j] == found[j]
    {
      var d := docs[i];
      docs := docs[i := d[IdField := Str(IdText(d[IdField].id))]];
      i := i + 1;
    }
  }

  /** `list_products`: the products of the given category (all of them for none or ""), in stored order,
      with identifiers as text. */
  method ListProducts(db: Database?, category: Option<string>) returns (r: Result<seq<Document>, ApiError>)
    requires db != null ==> db.Valid()
    ensures db == null ==> r == Failure(StoreUnavailable)
    ensures db != null ==> AllHaveIds(Select(Docs(db.State(), ProductCollection), QueryFilter("category", category)))
    ensures db != null ==>
      r == Success(TextIds(Select(Docs(db.State(), ProductCollection), QueryFilter("category", category))))
  {
    if db == null {
      return Failure(StoreUnavailable);
    }
    var filter := QueryFilter("category", category);
    var found := db.GetDocuments(ProductCollection, filter);
    StoredDocsHaveIds(db.State(), ProductCollection, filter);
    var docs := StringifyIds(found);
    r := Success(docs);
  }

  /** `list_projects`: the projects of the given service (all of them for none or ""), in stored order,
      with identifiers as text. */
  method ListProjects(db: Database?, service: Option<string>) returns (r: Result<seq<Document>, ApiError>)
    requires db != null ==> db.Valid()
    ensures db == null ==> r == Failure(StoreUnavailable)
    ensures db != null ==> AllHaveIds(Select(Docs(db.State(), ProjectCollection), QueryFilter("service", service)))
    ensures db != null ==>
      r == Success(TextIds(Select(Docs(db.State(), ProjectCollection), QueryFilter("service", service))))
  {
    if db == null {
      return Failure(StoreUnavailable);
    }
    var filter := QueryFilter("service", service);
    var found := db.GetDocuments(ProjectCollection, filter);
    StoredDocsHaveIds(db.State(), ProjectCollection, filter);
    var docs := StringifyIds(found);
    r := Success(docs);
  }

  /** After seeding a store without products, listing the category "vehicle" yields exactly one product,
      the "Carbon Fiber Wrap Kit". */
  lemma SeededVehicleListing(s: StoreState)
    requires Docs(s, ProductCollection) == []
    ensures var found := Select(Docs(SeedState(s), ProductCollection), QueryFilter("category", Some("vehicle")));
      |found| == 1 && "title" in found[0] && found[0]["title"] == Str("Carbon Fiber Wrap Kit")
  {
    SeedProducts(s);
    DemoVehicleSelection(s.nextId);
  }

  /** Of the three demo products, stamped from identifier `n` on, the category "vehicle" selects the second. */
  lemma DemoVehicleSelection(n: nat)
    ensures Select(StampAll(DemoProductDocuments, n), map["category" := Str("vehicle")]) == [Stamp(DemoProductDocuments[1], n + 1)]
    ensures Stamp(DemoProductDocuments[1], n + 1)["title"] == Str("Carbon Fiber Wrap Kit")
  {
    var p0, p1, p2 := DemoProducts[0], DemoProducts[1], DemoProducts[2];
    assert DemoProductDocuments == [ProductDocument(p0), ProductDocument(p1), ProductDocument(p2)];
    assert CategoryName(p0.category) != "vehicle" && CategoryName(p1.category) == "vehicle" && CategoryName(p2.category) != "vehicle";
    SelectSecondOfThree(p0, p1, p2, n, "vehicle");
  }

  /** Of three stamped products of which only the second has the category, the category filter selects the second. */
  lemma SelectSecondOfThree(p0: Product, p1: Product, p2: Product, n: nat, name: string)
    requires CategoryName(p0.category) != name && CategoryName(p1.category) == name && CategoryName(p2.category) != name
    ensures Select(StampAll([ProductDocument(p0), ProductDocument(p1), ProductDocument(p2)], n), map["category" := Str(name)])
      == [Stamp(ProductDocument(p1), n + 1)]
  {
    var f := map["category" := Str(name)];
    var d0, d1, d2 := Stamp(ProductDocument(p0), n), Stamp(ProductDocument(p1), n + 1), Stamp(ProductDocument(p2), n + 2);
    StampThree(ProductDocument(p0), ProductDocument(p1), ProductDocument(p2), n);
    ProductMatchesCategory(p0, n, name);
    ProductMatchesCategory(p1, n + 1, name);
    ProductMatchesCategory(p2, n + 2, name);
    SelectThree(d0, d1, d2, f);
  }

  lemma StampThree(a: Document, b: Document, c: Document, n: nat)
    ensures StampAll([a, b, c], n) == [Stamp(a, n), Stamp(b, n + 1), Stamp(c, n + 2)]
  {
  }

  lemma SelectThree(d0: Document, d1: Document, d2: Document, f: Document)
    ensures Select([d0, d1, d2], f) ==
      (if Matches(d0, f) then [d0] else []) + (if Matches(d1, f) then [d1] else []) + (if Matches(d2, f) then [d2] else [])
  {
    assert [d0, d1, d2] == [d0] + [d1] + [d2];
    SelectSingle(d0, f);
    SelectSingle(d1, f);
    SelectSingle(d2, f);
    SelectAppend([d0] + [d1], [d2], f);
    SelectAppend([d0], [d1], f);
  }

  lemma SelectSingle(d: Document, f: Document)
    ensures Select([d], f) == if Matches(d, f) then [d] else []
  {
    assert [d][1..] == [];
  }

  /** A product created and then listed with no filter is among the listing: equal to the product's document
      except for its identifier, which is non-empty text. */
  lemma CreatedProductListed(s: StoreState, p: Product)
    requires Wellformed(s)
    ensures var t := Insert(s, ProductCollection, ProductDocument(p));
      var found := Select(Docs(t, ProductCollection), QueryFilter("category", None));
      AllHaveIds(found) &&
      var listed := TextIds(found);
      |listed| > 0 && listed[|listed| - 1] - {IdField} == ProductDocument(p) &&
      listed[|listed| - 1][IdField].Str? && |listed[|listed| - 1][IdField].s| >= IdTextWidth
  {
    var t := Insert(s, ProductCollection, ProductDocument(p));
    var found := Select(Docs(t, ProductCollection), QueryFilter("category", None));
    assert found == Docs(t, ProductCollection) by {
      QueryFilterSelects(Docs(t, ProductCollection), "category", None);
    }
    assert AllHaveIds(found) by {
      InsertWellformed(s, ProductCollection, ProductDocument(p));
      StoredDocsHaveIds(t, ProductCollection, QueryFilter("category", None));
    }
    assert found[|found| - 1] == Stamp(ProductDocument(p), s.nextId);
    ProductDocumentFields(p);
    LastListed(found, ProductDocument(p), s.nextId);
  }

  /** The last of the listed documents, when it is `data` stamped with an identifier, lists as `data`
      together with the identifier's text. */
  lemma LastListed(found: seq<Document>, data: Document, n: nat)
    requires AllHaveIds(found) && |found| > 0 && found[|found| - 1] == Stamp(data, n) && IdField !in data
    ensures var listed := TextIds(found);
      listed[|listed| - 1] - {IdField} == data &&
      listed[|listed| - 1][IdField].Str? && |listed[|listed| - 1][IdField].s| >= IdTextWidth
  {
    var last := Stamp(data, n);
    assert TextIds(found)[|found| - 1] == WithTextId(last);
    assert WithTextId(last) - {IdField} == last - {IdField};
    assert last - {IdField} == data;
  }

  // ---------------------------------------------------------------------
  // Orders
  // ---------------------------------------------------------------------

  /** `create_order`: the request body is validated against the order schema first; a body that fails
      is answered with 422 and its violations and stores nothing.  A valid order is stored and the reply
      holds its identifier and the status "received", whatever the order's own status. */
  method CreateOrder(db: Database?, raw: OrderInput, emailOk: string -> bool) returns (r: Result<OrderReceipt, ApiError>)
    requires db != null ==> db.Valid()
    modifies db
    ensures !ValidOrderInput(raw, emailOk) ==>
      r == Failure(RequestInvalid(UnprocessableStatus, OrderViolations(raw, emailOk)))
    ensures !ValidOrderInput(raw, emailOk) && db != null ==> db.Valid() && db.State() == old(db.State())
    ensures ValidOrderInput(raw, emailOk) && db == null ==> r == Failure(StoreUnavailable)
    ensures ValidOrderInput(raw, emailOk) && db != null ==>
      && db.Valid()
      && db.State() == Insert(old(db.State()), OrderCollection, OrderDocument(ValidateOrder(raw, emailOk).value))
      && r == Success(OrderReceipt(IdText(ObjectId(old(db.nextId))), ReceivedStatus))
      && ParseIdText(r.value.id) == Some(ObjectId(old(db.nextId)))
  {
    var validated := ValidateOrder(raw, emailOk);
    if validated.Failure? {
      return Failure(RequestInvalid(UnprocessableStatus, validated.error));
    }
    if db == null {
      return Failure(StoreUnavailable);
    }
    var orderId := db.CreateDocument(OrderCollection, OrderDocument(validated.value));
    r := Success(OrderReceipt(orderId, ReceivedStatus));
  }

  /** Every order that reaches the store has quantities of at least 1 and a customer whose address
      the checker accepts. */
  lemma StoredOrderValid(raw: OrderInput, emailOk: string -> bool)
    requires ValidOrderInput(raw, emailOk)
    ensures var o := ValidateOrder(raw, emailOk).value;
      (forall i :: 0 <= i < |o.items| ==> o.items[i].quantity >= 1) && emailOk(o.customer.email)
  {
    var o := ValidateOrder(raw, emailOk).value;
    forall i | 0 <= i < |o.items| ensures o.items[i].quantity >= 1 {
      assert Success(o.items[i]) == ValidateOrderItem(raw.items.value[i]);
    }
  }

  /** The receipt's status is never one of the order statuses, so it cannot be mistaken for the stored one. */
  lemma ReceiptStatusIsNotOrderStatus(o: Order)
    ensures OrderDocument(o)["status"] != Str(ReceivedStatus)
    ensures ReceivedStatus !in StatusNames
  {
  }
}
