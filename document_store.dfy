/**
  The document store behind the service: named collections of JSON-like
  documents, each stamped with a store-generated identifier when it is
  inserted.  The module gives the store's state as a value (`StoreState`)
  with the operations as functions on it, and a `Database` class whose
  methods perform those operations in place.
 */
module DocumentStore {
  import opened Wrappers

  /** A store-generated identifier.  Identifiers are handed out from a counter, so
      each one is fresh and distinct from every earlier one. */
  datatype ObjectId = ObjectId(counter: nat)

  /** A field value of a stored document. */
  datatype Value =
    | Null
    | Bool(b: bool)
    | Int(i: int)
    | Num(r: real)
    | Str(s: string)
    | Arr(elems: seq<Value>)
    | Obj(fields: map<string, Value>)
    | Oid(id: ObjectId)

  /** A document: field names mapped to values. */
  type Document = map<string, Value>

  /** The name of the identifier field every stored document carries. */
  const IdField: string := "_id"

  // ---------------------------------------------------------------------
  // The text form of an identifier: lower-case hexadecimal, 24 digits wide
  // ---------------------------------------------------------------------

  predicate IsHexDigit(c: char) {
    '0' <= c <= '9' || 'a' <= c <= 'f'
  }

  function HexDigit(d: nat): (c: char)
    requires d < 16
    ensures IsHexDigit(c) && HexValue(c) == d
  {
    if d < 10 then ('0' as int + d) as char else ('a' as int + d - 10) as char
  }

  function HexValue(c: char): nat {
    if '0' <= c <= '9' then c as int - '0' as int
    else if 'a' <= c <= 'f' then c as int - 'a' as int + 10
    else 0
  }

  /** The hexadecimal digits of `n`, most significant first, padded with zeros to at least `width` digits. */
  function ToHex(n: nat, width: nat): (s: string)
    ensures |s| >= width
    ensures forall i :: 0 <= i < |s| ==> IsHexDigit(s[i])
    decreases n + width
  {
    if n == 0 && width == 0 then []
    else ToHex(n / 16, if width == 0 then 0 else width - 1) + [HexDigit(n % 16)]
  }

  /** The number a string of hexadecimal digits denotes. */
  function FromHex(s: string): nat {
    if s == [] then 0 else FromHex(s[..|s| - 1]) * 16 + HexValue(s[|s| - 1])
  }

  /** Reading back the digits `ToHex` writes gives the number written, whatever the padding. */
  lemma {:induction false} FromHexToHex(n: nat, width: nat)
    ensures FromHex(ToHex(n, width)) == n
    decreases n + width
  {
    if !(n == 0 && width == 0) {
      var w := if width == 0 then 0 else width - 1;
      var prefix := ToHex(n / 16, w);
      var s := prefix + [HexDigit(n % 16)];
      assert s[..|s| - 1] == prefix;
      FromHexToHex(n / 16, w);
    }
  }

  /** The width of an identifier's text form: twelve bytes, two digits each. */
  const IdTextWidth: nat := 24

  /** `str(ObjectId)`: the identifier in hexadecimal, 24 digits wide. */
  function IdText(id: ObjectId): (s: string)
    ensures |s| >= IdTextWidth
    ensures ParseIdText(s) == Some(id)
  {
    FromHexToHex(id.counter, IdTextWidth);
    ToHex(id.counter, IdTextWidth)
  }

  /** The identifier a text form denotes, if it is one. */
  function ParseIdText(s: string): Option<ObjectId> {
    if |s| >= IdTextWidth && forall i :: 0 <= i < |s| ==> IsHexDigit(s[i])
    then Some(ObjectId(FromHex(s)))
    else None
  }

  /** Distinct identifiers have distinct text forms. */
  lemma IdTextInjective(a: ObjectId, b: ObjectId)
    requires IdText(a) == IdText(b)
    ensures a == b
  {
    assert Some(a) == ParseIdText(IdText(a)) == ParseIdText(IdText(b)) == Some(b);
  }

  // ---------------------------------------------------------------------
  // Exact-match filters
  // ---------------------------------------------------------------------

  /** A document matches a filter when it has every field of the filter, with the filter's value. */
  predicate Matches(d: Document, filter: Document) {
    forall k :: k in filter ==> k in d && d[k] == filter[k]
  }

  /** The documents of `docs` that match `filter`, in their stored order. */
  function Select(docs: seq<Document>, filter: Document): (r: seq<Document>)
    ensures |r| <= |docs|
    ensures forall d :: d in r <==> d in docs && Matches(d, filter)
  {
    if docs == [] then []
    else (if Matches(docs[0], filter) then [docs[0]] else []) + Select(docs[1..], filter)
  }

  /** The empty filter selects every document, in order. */
  lemma {:induction false} SelectEmptyFilter(docs: seq<Document>)
    ensures Select(docs, map[]) == docs
  {
    if docs != [] {
      SelectEmptyFilter(docs[1..]);
    }
  }

  /** Selecting from two runs of documents selects from each run in turn. */
  lemma {:induction false} SelectAppend(a: seq<Document>, b: seq<Document>, filter: Document)
    ensures Select(a + b, filter) == Select(a, filter) + Select(b, filter)
  {
    if a == [] {
      assert a + b == b;
    } else {
      assert (a + b)[1..] == a[1..] + b;
      SelectAppend(a[1..], b, filter);
    }
  }

  // ---------------------------------------------------------------------
  // The store's state
  // ---------------------------------------------------------------------

  /** All collections of the store, and the counter that the next identifier is taken from. */
  datatype StoreState = StoreState(collections: map<string, seq<Document>>, nextId: nat)

  const EmptyStore: StoreState := StoreState(map[], 0)

  /** The documents of a collection; a collection never written to holds none. */
  function Docs(s: StoreState, name: string): seq<Document> {
    if name in s.collections then s.collections[name] else []
  }

  /** The document carries an identifier in its identifier field. */
  predicate HasObjectId(d: Document) {
    IdField in d && d[IdField].Oid?
  }

  /** The identifier of a stored document. */
  function IdOf(d: Document): ObjectId
    requires HasObjectId(d)
  {
    d[IdField].id
  }

  /** Every stored document carries an identifier taken before the counter's value. */
  ghost predicate IdsIssued(s: StoreState) {
    forall c, i :: c in s.collections && 0 <= i < |s.collections[c]| ==>
      HasObjectId(s.collections[c][i]) && IdOf(s.collections[c][i]).counter < s.nextId
  }

  /** No two stored documents, in one collection or in two, share an identifier. */
  ghost predicate IdsDistinct(s: StoreState)
    requires IdsIssued(s)
  {
    forall c, i, c', i' ::
      (c in s.collections && 0 <= i < |s.collections[c]| &&
       c' in s.collections && 0 <= i' < |s.collections[c']| &&
       IdOf(s.collections[c][i]) == IdOf(s.collections[c'][i'])) ==> c == c' && i == i'
  }

  /** The store's invariant: identifiers are store-generated and unique. */
  ghost predicate Wellformed(s: StoreState) {
    IdsIssued(s) && IdsDistinct(s)
  }

  lemma EmptyStoreWellformed()
    ensures Wellformed(EmptyStore)
  {
  }

  /** The document as stored: the given fields plus a fresh identifier. */
  function Stamp(data: Document, id: nat): Document {
    data[IdField := Oid(ObjectId(id))]
  }

  /** A stamped document has the data's fields plus the identifier field, holding the given identifier;
      every other field keeps its value. */
  lemma StampFields(data: Document, id: nat)
    ensures var d := Stamp(data, id);
      && d.Keys == data.Keys + {IdField}
      && HasObjectId(d) && IdOf(d) == ObjectId(id)
      && (forall k :: k in data && k != IdField ==> d[k] == data[k])
  {
  }

  /** `create_document` on the state: append the stamped document to the named collection. */
  function Insert(s: StoreState, name: string, data: Document): (r: StoreState)
    ensures r.nextId == s.nextId + 1
    ensures Docs(r, name) == Docs(s, name) + [Stamp(data, s.nextId)]
  {
    StoreState(s.collections[name := Docs(s, name) + [Stamp(data, s.nextId)]], s.nextId + 1)
  }

  /** Inserting appends exactly one fresh document to the named collection and touches no other. */
  lemma InsertEffect(s: StoreState, name: string, data: Document)
    requires IdField !in data
    ensures Docs(Insert(s, name, data), name) == Docs(s, name) + [Stamp(data, s.nextId)]
    ensures forall c :: c != name ==> Docs(Insert(s, name, data), c) == Docs(s, c)
    ensures Stamp(data, s.nextId) - {IdField} == data
  {
    assert forall c :: c != name ==> Docs(Insert(s, name, data), c) == Docs(s, c);
  }

  /** Inserting keeps identifiers store-generated and unique. */
  lemma InsertWellformed(s: StoreState, name: string, data: Document)
    requires Wellformed(s)
    ensures Wellformed(Insert(s, name, data))
  {
    var t := Insert(s, name, data);
    var newDoc := Stamp(data, s.nextId);
    assert HasObjectId(newDoc) && IdOf(newDoc).counter == s.nextId;
    forall c, i | c in t.collections && 0 <= i < |t.collections[c]|
      ensures HasObjectId(t.collections[c][i]) && IdOf(t.collections[c][i]).counter < t.nextId
      ensures t.collections[c][i] == newDoc || (c in s.collections && i < |s.collections[c]| && t.collections[c][i] == s.collections[c][i])
      ensures t.collections[c][i] == newDoc ==> c == name && i == |Docs(s, name)|
    {
      if c == name {
        if i < |Docs(s, name)| {
          assert t.collections[c][i] == Docs(s, name)[i];
        }
      }
    }
    assert IdsIssued(t);
  }

  /** `create_document` applied to each document of `ds` in order. */
  function InsertAll(s: StoreState, name: string, ds: seq<Document>): (r: StoreState)
    ensures r.nextId == s.nextId + |ds|
    ensures |Docs(r, name)| == |Docs(s, name)| + |ds|
    decreases |ds|
  {
    if ds == [] then s else Insert(InsertAll(s, name, ds[..|ds| - 1]), name, ds[|ds| - 1])
  }

  /** The documents `ds`, stamped with consecutive identifiers from `first` on. */
  function StampAll(ds: seq<Document>, first: nat): (r: seq<Document>)
    ensures |r| == |ds|
  {
    seq(|ds|, i requires 0 <= i < |ds| => Stamp(ds[i], first + i))
  }

  /** Inserting a run of documents appends them, in order and with consecutive fresh identifiers,
      to the named collection; no other collection changes. */
  lemma {:induction false} InsertAllEffect(s: StoreState, name: string, ds: seq<Document>)
    ensures Docs(InsertAll(s, name, ds), name) == Docs(s, name) + StampAll(ds, s.nextId)
    ensures InsertAll(s, name, ds).nextId == s.nextId + |ds|
    ensures InsertAll(s, name, ds).collections - {name} == s.collections - {name}
    decreases |ds|
  {
    if ds != [] {
      var init := ds[..|ds| - 1];
      InsertAllEffect(s, name, init);
      var t := InsertAll(s, name, init);
      var u := Insert(t, name, ds[|ds| - 1]);
      assert InsertAll(s, name, ds) == u;
      assert Docs(u, name) == Docs(t, name) + [Stamp(ds[|ds| - 1], t.nextId)];
      assert u.collections - {name} == t.collections - {name};
      assert StampAll(ds, s.nextId) == StampAll(init, s.nextId) + [Stamp(ds[|ds| - 1], t.nextId)];
    }
  }

  /** Inserting into one collection leaves every other collection as it was. */
  lemma InsertAllOther(s: StoreState, name: string, ds: seq<Document>, other: string)
    requires other != name
    ensures Docs(InsertAll(s, name, ds), other) == Docs(s, other)
  {
    InsertAllEffect(s, name, ds);
    var t := InsertAll(s, name, ds);
    assert other in t.collections <==> other in t.collections - {name};
    assert other in s.collections <==> other in s.collections - {name};
    if other in s.collections {
      assert (s.collections - {name})[other] == s.collections[other];
      assert (t.collections - {name})[other] == t.collections[other];
    }
  }

  lemma {:induction false} InsertAllWellformed(s: StoreState, name: string, ds: seq<Document>)
    requires Wellformed(s)
    ensures Wellformed(InsertAll(s, name, ds))
    decreases |ds|
  {
    if ds != [] {
      InsertAllWellformed(s, name, ds[..|ds| - 1]);
      InsertWellformed(InsertAll(s, name, ds[..|ds| - 1]), name, ds[|ds| - 1]);
    }
  }

  /** The store: the database handle together with the generic create/count/query helpers. */
  class Database {
    var collections: map<string, seq<Document>>
    var nextId: nat

    function State(): StoreState
      reads this
    {
      StoreState(collections, nextId)
    }

    ghost predicate Valid()
      reads this
    {
      Wellformed(State())
    }

    /** A store with no documents. */
    constructor ()
      ensures Valid() && State() == EmptyStore
    {
      collections := map[];
      nextId := 0;
    }

    /** `create_document(name, data)`: insert the document under a fresh identifier and
        return that identifier's text form. */
    method CreateDocument(name: string, data: Document) returns (id: string)
      requires Valid()
      modifies this
      ensures Valid() && State() == Insert(old(State()), name, data)
      ensures id == IdText(ObjectId(old(nextId)))
      ensures ParseIdText(id) == Some(ObjectId(old(nextId)))
    {
      InsertWellformed(State(), name, data);
      id := IdText(ObjectId(nextId));
      collections := collections[name := Docs(State(), name) + [Stamp(data, nextId)]];
      nextId := nextId + 1;
    }

    /** `count_documents({})` on the named collection. */
    method CountDocuments(name: string) returns (n: nat)
      ensures n == |Docs(State(), name)|
    {
      n := if name in collections then |collections[name]| else 0;
    }

    /** `get_documents(name, filter)`: the documents of the collection that match the filter. */
    method GetDocuments(name: string, filter: Document) returns (docs: seq<Document>)
      ensures docs == Select(Docs(State(), name), filter)
    {
      docs := Select(Docs(State(), name), filter);
    }
  }
}
