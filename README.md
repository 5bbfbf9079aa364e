# Custom Creations Co. API — a Dafny model

The Custom Creations Co. backend is a small web service over a document store. It keeps a
catalogue of **products** and showcase **projects**, each in one of three categories
(`clothing`, `vehicle`, `gadgets`), and it accepts customer **orders**. This project models:

- **the record schemas** (`schemas.py`): which fields each record requires, the defaults
  it fills in, the bounds and literal sets it enforces, and the errors it reports for a
  record it rejects;
- **the handlers** (`main.py`):
  - seeding the catalogue with three demo products and three demo projects, each
    collection only when it is empty;
  - listing products by category and projects by service, with each stored identifier
    turned into text;
  - storing an order and replying with its identifier and the status `received`.

Files:

- `wrappers.dfy`: `Option` and `Result`.
- `schemas.dfy` (module `Schemas`): each record is a datatype. Its raw input marks every field
  `Omitted` or `Given(value)`. Each record has four parts:
  - `Valid…Input`, a predicate that says when the record is accepted;
  - `…Violations`, the list of errors, each with its location and kind;
  - `Validate…`, which returns either the record with its defaults filled in or the errors;
  - a `…Locate` lemma, which shows the errors name exactly the offending fields.
- `document_store.dfy` (module `DocumentStore`): the store, which `main.py` reaches through
  `create_document`, `get_documents` and `count_documents`. It has two forms:
  - a value `StoreState` (named collections of documents and an identifier counter), with
    `Insert`, `InsertAll` and exact-match `Select` as functions;
  - a `Database` class whose methods perform those operations in place.

  An identifier's text form is lower-case hexadecimal, at least 24 digits, and it parses back.
- `api.dfy` (module `Api`): the handlers as methods on a `Database?`, where `null` stands for
  "no database configured". Each handler is proved against a function on the store state
  (`SeedState`, `Select`, `TextIds`, `Insert`), and the lemmas state the properties of those
  functions.

The code is looser than one might expect, and the model follows it:

- `Order.items` may be an empty list (`List[OrderItem]` has no minimum length);
  `Schemas.OrderWithoutItemsAccepted` states this.
- `Product.title` and `Project.title` may be the empty string.
- A listing with `category=""` (or `service=""`) returns every document, because `if category`
  treats the empty string as absent; `Api.QueryFilterSelects` states this.

## Model

| member | source | states |
|---|---|---|
| Schemas.RequiredCheck | schemas.py:18 | a required field reports exactly one error, of kind missing and located at that field, when it is omitted, and none when it is given |
| Schemas.LowerBoundCheck | schemas.py:20 | a `ge` bound reports an error at the field exactly when a given value is below the bound, or when a required value is missing |
| Schemas.LiteralCheck | schemas.py:21 | a literal-typed field reports an error at the field exactly when a given value is outside the allowed names, or when a required value is missing |
| Schemas.EmailCheck | schemas.py:40 | an email field is accepted exactly when it is given and the address checker accepts it; otherwise the error sits at that field |
| Schemas.Nested | schemas.py:45-46 | errors of a nested record keep their kinds and order, with the enclosing field's path put in front of their locations |
| Schemas.CategoryName | schemas.py:15 | each category has a name among "clothing", "vehicle" and "gadgets", and parsing that name gives back the category |
| Schemas.ParseCategory | schemas.py:15 | a string names a category exactly when it is one of the three allowed names |
| Schemas.ParseCategoryName | schemas.py:15 | a string that parses as a category is that category's name, so the names and the categories correspond one to one |
| Schemas.ProductViolations | schemas.py:17-24 | a product record has no errors exactly when title, price and category are present, price >= 0 and the category is allowed |
| Schemas.ProductViolationsLocate | schemas.py:17-24 | an error is reported at a field of a product exactly when that field breaks its rule; no other field is blamed |
| Schemas.ValidateProduct | schemas.py:17-24 | a product is accepted exactly when it is valid; a rejection lists all its errors (never none); an accepted product keeps its title, price and category and has price >= 0 |
| Schemas.ProductDefaults | schemas.py:19-24 | omitted fields default as declared: no description or image, an empty tag list, in stock; a tag list given as None stays None |
| Schemas.RevalidateProduct | schemas.py:17-24 | validating the fields of an already valid product gives back that product unchanged |
| Schemas.ProjectViolations | schemas.py:26-32 | a project record has no errors exactly when title and service are present and the service is an allowed category |
| Schemas.ProjectViolationsLocate | schemas.py:26-32 | an error is reported at a field of a project exactly when that field breaks its rule |
| Schemas.ValidateProject | schemas.py:26-32 | a project is accepted exactly when it is valid; a rejection lists all its errors; an accepted project keeps its title and service |
| Schemas.ProjectDefaults | schemas.py:28-32 | omitted summary, hero image and client default to None and an omitted gallery to the empty list |
| Schemas.OrderItemViolations | schemas.py:34-36 | an order item has no errors exactly when the product id is present and a given quantity is at least 1; every error sits at a field of the item |
| Schemas.OrderItemViolationsLocate | schemas.py:34-36 | an error is reported at a field of an item exactly when that field breaks its rule |
| Schemas.ValidateOrderItem | schemas.py:34-36 | an item is accepted exactly when it is valid; an accepted item keeps its product id and has the given quantity, or 1 when it was omitted, always at least 1 |
| Schemas.CustomerViolations | schemas.py:38-42 | a customer record has no errors exactly when the name is present and the email is present and accepted |
| Schemas.CustomerViolationsLocate | schemas.py:38-42 | an error is reported at a field of a customer exactly when that field breaks its rule |
| Schemas.ValidateCustomer | schemas.py:38-42 | a customer is accepted exactly when it is valid; an accepted one keeps name and email, and phone and address default to None |
| Schemas.StatusName | schemas.py:48 | each order status has one of the five allowed names, and parsing that name gives back the status |
| Schemas.ParseStatus | schemas.py:48 | a string names an order status exactly when it is one of the five allowed names |
| Schemas.ParseStatusName | schemas.py:48 | a string that parses as a status is that status's name |
| Schemas.ItemsViolations | schemas.py:45 | a list of items has no errors exactly when every item in it is valid |
| Schemas.ItemsViolationsWithin | schemas.py:45 | every error of the items is located at a position of the list whose item is invalid |
| Schemas.ItemsAt | schemas.py:45 | every invalid item contributes an error located at its own position |
| Schemas.OrderViolations | schemas.py:44-48 | an order has no errors exactly when items and customer are present, every item and the customer are valid, and a given status is allowed |
| Schemas.OrderViolationsLocate | schemas.py:44-48 | an error is reported directly at items, customer or status exactly when that field is missing or, for status, not an allowed name; nested errors never count as those fields' own |
| Schemas.OrderViolationsNoOther | schemas.py:44-48 | no top-level field other than items, customer and status (notes included) is ever blamed for an order |
| Schemas.ValidatedItems | schemas.py:45 | each validated item is the validation of the raw item at the same position |
| Schemas.ValidateOrder | schemas.py:44-48 | an order is accepted exactly when it is valid; a rejection lists all its errors; an accepted order keeps the items in order, the customer, and a given status (default "pending") |
| Schemas.AcceptedOrder | schemas.py:44-48 | the accepted order's items and customer are the validated raw ones, and a given status has the given name |
| Schemas.OrderWithoutItemsAccepted | schemas.py:45 | an order with an empty item list and a valid customer is accepted, with no items and status "pending" |
| Schemas.InvalidItemRejectsOrder | schemas.py:45 | one invalid item rejects the whole order, with an error located at that item's position |
| Schemas.SampleOrderAccepted | schemas.py:44-48 | the order of one item "abc123" × 2 for customer Jane is accepted as given, with status "pending" |
| Schemas.ValidateUser | schemas.py:51-56 | a user is accepted exactly when name and an accepted email are present; errors sit only at name or email; an accepted user is active unless told otherwise |
| DocumentStore.FromHexToHex | main.py:100 | reading back the hexadecimal text of a number gives that number |
| DocumentStore.IdText | main.py:100 | an identifier's text is at least 24 characters long and parses back to that identifier |
| DocumentStore.IdTextInjective | main.py:100 | two identifiers with the same text are the same identifier |
| DocumentStore.Select | main.py:97 | a query returns exactly the stored documents that match the filter, never more than the collection holds |
| DocumentStore.SelectEmptyFilter | main.py:96 | the empty filter returns the whole collection in order |
| DocumentStore.SelectAppend | main.py:97 | querying two runs of documents one after the other gives the two results one after the other, so stored order is kept |
| DocumentStore.StampFields | main.py:115 | a stored document has the data's fields plus `_id`, holding the given identifier; every other field keeps its value |
| DocumentStore.Insert | main.py:115 | `create_document` on the state: the named collection gains the stamped document at its end, and the identifier counter advances by one |
| DocumentStore.InsertAll | main.py:78-79 | inserting a run of documents advances the counter by the run's length and lengthens the named collection by as much |
| DocumentStore.EmptyStoreWellformed | main.py:8 | a store with no documents meets the identifier invariant |
| DocumentStore.InsertEffect | main.py:115 | inserting appends exactly one document (the data with a fresh identifier) to the named collection and changes no other collection |
| DocumentStore.InsertWellformed | main.py:115 | inserting keeps every stored identifier store-issued and distinct from every other |
| DocumentStore.InsertAllEffect | main.py:78-79 | inserting a run of documents appends them in order, with consecutive fresh identifiers, and changes no other collection |
| DocumentStore.InsertAllOther | main.py:87-88 | inserting into one collection leaves every other collection as it was |
| DocumentStore.InsertAllWellformed | main.py:87-88 | inserting a run of documents keeps identifiers issued and distinct |
| DocumentStore.Database.constructor | main.py:8 | a new store is empty and meets the invariant |
| DocumentStore.Database.CreateDocument | main.py:115 | the store becomes the old store with the document inserted, and the returned id is the canonical text of the fresh identifier, which parses back to it |
| DocumentStore.Database.CountDocuments | main.py:69 | the count is the number of documents in the named collection (0 for a missing one) |
| DocumentStore.Database.GetDocuments | main.py:97 | the result is exactly the query of the named collection with the filter |
| Api.ProductDocumentFields | main.py:78-79 | a stored product has exactly the schema's seven fields under their schema names and no `_id` yet; title and price are the product's, and the category text parses back to its category |
| Api.ProjectDocumentFields | main.py:87-88 | a stored project has exactly the schema's six fields and no `_id` yet; its service text parses back to its category |
| Api.OrderDocumentFields | main.py:115 | a stored order has exactly the fields items, customer, notes and status and no `_id` yet; the items keep their order and the status text parses back to the status |
| Api.ProductMatchesCategory | main.py:96 | a stored product matches the category filter exactly when its category has that name |
| Api.DemoRecordsValidate | main.py:73-86 | the three demo products and three demo projects pass validation and yield the records seeding stores (in stock by default) |
| Api.SeedState | main.py:68-88 | the store after seeding: both counts are read first, and each collection that was empty receives its three demo records; three identifiers are issued per collection seeded |
| Api.SeedCounts | main.py:90 | the reply of seeding: 3 for a collection that was empty, its old count otherwise |
| Api.SeedProducts | main.py:72-79 | after seeding, an empty product collection holds the three demo products with fresh identifiers, in order; a non-empty one is unchanged |
| Api.SeedProjects | main.py:81-88 | after seeding, an empty project collection holds the three demo projects with fresh identifiers after the products'; a non-empty one is unchanged |
| Api.SeedIndependent | main.py:69-88 | each collection is seeded on its own count alone: apart from identifiers, products afterwards depend only on products before, projects only on projects |
| Api.SeedFrame | main.py:63-90 | seeding changes no collection other than the product and project collections |
| Api.SeedCountsValue | main.py:90 | the reply counts are the lengths of the two collections after seeding, and both are at least 1 |
| Api.SeedIdempotent | main.py:68-90 | seeding a second time changes nothing and reports the same counts |
| Api.SeedWellformed | main.py:63-90 | seeding keeps identifiers store-issued and distinct |
| Api.CreateDocuments | main.py:78-79 | the loop inserts the documents one by one, in order: the new store is the old one with the whole run inserted |
| Api.SeedData | main.py:63-90 | without a database the reply is error 500 "Database not configured"; otherwise the new store is the seeded store and the reply holds the lengths of its product and project collections |
| Api.QueryFilter | main.py:96 | the filter is empty exactly when no value or the empty string is given; otherwise its only field is the named one, holding the given text |
| Api.QueryFilterSelects | main.py:96 | without a value, or with the empty string, a listing returns every document in order; with a value it returns exactly the documents whose field holds that value |
| Api.WithTextId | main.py:100 | the identifier field is replaced by text that parses back to the identifier; every other field and the set of fields are unchanged |
| Api.WithTextIdRoundTrip | main.py:100 | turning the text back into an identifier gives back the stored document |
| Api.TextIds | main.py:99-100 | the listing has one document per document found, and each is the found document at the same position with its `_id` turned into text |
| Api.StoredDocsHaveIds | main.py:97-100 | every document read from a store meeting the invariant carries an identifier |
| Api.StringifyIds | main.py:99-100 | the loop replaces each document's identifier by its text, position by position, leaving the list's order and length unchanged |
| Api.ListProducts | main.py:94-101 | without a database the reply is an error; otherwise the reply is the products matching the category filter, in stored order, with text identifiers |
| Api.ListProjects | main.py:103-109 | without a database the reply is an error; otherwise the reply is the projects matching the service filter, in stored order, with text identifiers |
| Api.DemoVehicleSelection | main.py:73-77 | of the three demo products, the category "vehicle" selects the second |
| Api.SeededVehicleListing | main.py:75 | after seeding a store with no products, listing "vehicle" gives exactly one product, the "Carbon Fiber Wrap Kit" |
| Api.CreatedProductListed | main.py:94-101 | a product just stored is the last one in the unfiltered listing, equal to its document apart from an identifier that is text of at least 24 characters |
| Api.CreateOrder | main.py:113-116 | the body is validated against the order schema first: an invalid one is answered with 422 and exactly its violations, and nothing is stored; for a valid one without a database the reply is an error; otherwise the validated order is stored under a fresh identifier and the reply is that identifier's canonical text, with status "received" |
| Api.StoredOrderValid | main.py:114 | every order that reaches the store has item quantities of at least 1 and a customer email the address checker accepts |
| Api.ReceiptStatusIsNotOrderStatus | main.py:116 | the receipt's "received" is not one of the order statuses, so it is never the stored order's status |

## Left out

- The `/test` diagnostics handler (main.py:29-56): it reads environment variables and reports
  on the connection and collection names. That is I/O and carries no logic to prove.
- The root and hello handlers (main.py:21-27), the FastAPI application, the CORS middleware and
  the uvicorn start-up (main.py:11-19, 119-122): framework wiring with constant replies.
- `database.py` is not part of this model. The store is modelled as a value with a counter, so
  these are not modelled:
  - the timestamps it may add;
  - the network connection to MongoDB;
  - the identifiers a MongoDB client generates from a clock, a machine id and a random part.

  An identifier is a counter value whose text is hexadecimal, at least 24 digits wide.
  `count_documents` is modelled only with the empty filter, the one main.py uses.
- A missing database is an error: HTTP 500 for seeding, as in the code. For listing and for
  orders it is a `StoreUnavailable` error, because what `get_documents` and `create_document`
  do without a database is defined in database.py.
- Email syntax: `EmailStr`'s address checker is a parameter `emailOk`. Email normalisation
  (lower-casing the domain) is not modelled.
- Floating point: prices are `real`, so NaN, infinities and rounding are not modelled.
- Type coercion and type errors: raw inputs are already typed, so a string where a number
  belongs, or an integer given as `2.0`, is not modelled. The error kinds are modelled but not
  pydantic's message texts.
- Concurrency: two seed requests racing between count and insert may both seed; the model runs
  one handler at a time.
- Aliasing: the listing loop updates the dictionaries it was handed. The model works on
  document values, so it does not capture that those dictionaries are shared with the caller.
- Query parameters are any string; FastAPI's own parsing of them is not modelled.
- Api.WithTextId: requires the document to carry an identifier. `str(d.get("_id"))` would
  give "None" for a document without one, and Api.StoredDocsHaveIds shows that stored
  documents always have one.
- Schemas.ValidateUser: states only where its errors sit and what an accepted user holds. It
  does not state that exactly the offending fields are blamed, because `User` is an unused
  template record.
