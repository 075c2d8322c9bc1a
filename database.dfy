/** The document store client (backend/database.py): a lazily created
    database handle, inserts that stamp timestamps and report a string
    identifier, and limited queries that stringify identifiers.

    The store itself is MongoDB. Here it is the field `collections` of
    `DocumentStore`, and the part of MongoDB's query language that the
    catalog uses is stated by `Matches`, an assumption about the store rather
    than code of this repository. */
module Database {
  import opened Values
  import ObjectIds

  const DefaultUrl := "mongodb://localhost:27017"
  const DefaultName := "appdb"

  /** `os.getenv(key, default)`: a variable that is set wins, even when it is
      the empty string. */
  function GetEnv(env: map<string, string>, key: string, default: string): (v: string)
    ensures key in env ==> v == env[key]
    ensures key !in env ==> v == default
  {
    match EnvValue(env, key)
    case None => default
    case Some(v) => v
  }

  // ------------------------------------------- the query language (assumed)

  /** A sub-document whose keys are all `$`-operators, such as
      `{"$gte": 10.0, "$lte": 20.0}`. */
  predicate IsOperatorDocument(ops: map<string, Value>)
  {
    ops != map[] && forall k | k in ops :: |k| > 0 && k[0] == '$'
  }

  /** The value of a top-level field, if the document has it. */
  function FieldOf(doc: Document, key: string): Option<Value>
  {
    if key in doc then Some(doc[key]) else None
  }

  /** `$gte` and `$lte` between numbers (an `int` and a `float` compare by
      value). A missing or non-numeric field fails the comparison; operators
      other than these two are outside the modelled fragment and match
      nothing. */
  predicate OperatorHolds(field: Option<Value>, op: string, arg: Value)
  {
    && field.Some?
    && NumberOf(field.value).Some?
    && NumberOf(arg).Some?
    && (|| (op == "$gte" && NumberOf(field.value).value >= NumberOf(arg).value)
        || (op == "$lte" && NumberOf(field.value).value <= NumberOf(arg).value))
  }

  /** One entry of a filter: an operator document constrains the field by
      every operator in it; any other value asks for equality. */
  predicate ConditionHolds(field: Option<Value>, cond: Value)
  {
    if cond.VObj? && IsOperatorDocument(cond.fields) then
      forall op | op in cond.fields :: OperatorHolds(field, op, cond.fields[op])
    else
      field == Some(cond)
  }

  /** A document matches a filter when it meets every entry of it; the empty
      filter matches every document. */
  predicate Matches(doc: Document, filter: Document)
  {
    forall key | key in filter :: ConditionHolds(FieldOf(doc, key), filter[key])
  }

  /** The matching documents, in the store's order. */
  function Select(docs: seq<Document>, filter: Document): (r: seq<Document>)
    ensures |r| <= |docs|
    ensures forall d | d in r :: d in docs && Matches(d, filter)
  {
    if docs == [] then []
    else (if Matches(docs[0], filter) then [docs[0]] else []) + Select(docs[1..], filter)
  }

  /** No matching document is left out. */
  lemma {:induction false} SelectComplete(docs: seq<Document>, filter: Document, d: Document)
    requires d in docs && Matches(d, filter)
    ensures d in Select(docs, filter)
  {
    if docs[0] != d {
      SelectComplete(docs[1..], filter, d);
    }
  }

  /** Selecting from a collection that grew by one document. */
  lemma {:induction false} SelectAppend(docs: seq<Document>, x: Document, filter: Document)
    ensures Select(docs + [x], filter) == Select(docs, filter) + (if Matches(x, filter) then [x] else [])
  {
    if docs != [] {
      assert (docs + [x])[1..] == docs[1..] + [x];
      SelectAppend(docs[1..], x, filter);
    }
  }

  /** The empty filter selects the whole collection, in order. */
  lemma {:induction false} SelectEverything(docs: seq<Document>)
    ensures Select(docs, map[]) == docs
  {
    if docs != [] {
      SelectEverything(docs[1..]);
    }
  }

  // ------------------------------------------------------------- queries

  /** `filter_dict or {}`: no filter and an empty filter are the same. */
  function EffectiveFilter(filter: Option<Document>): Document
  {
    match filter
    case None => map[]
    case Some(f) => f
  }

  /** How many of `available` matches a cursor with `.limit(limit)` yields:
      for the driver, 0 means no limit and a negative limit -n means at most
      n documents. */
  function CursorLength(available: nat, limit: int): (k: nat)
  {
    if limit == 0 then available
    else if limit > 0 then (if available <= limit then available else limit)
    else (if available <= -limit then available else -limit)
  }

  /** `find(filter_dict or {}).limit(limit)` on the documents of one
      collection. */
  function Cursor(docs: seq<Document>, filter: Option<Document>, limit: int): (r: seq<Document>)
    ensures forall d | d in r :: d in docs
  {
    var matches := Select(docs, EffectiveFilter(filter));
    matches[..CursorLength(|matches|, limit)]
  }

  /** A stored document carries the identifier the store gave it. */
  predicate StoredDoc(d: Document)
  {
    "_id" in d && d["_id"].VOid?
  }

  predicate AllStored(docs: seq<Document>)
  {
    forall d | d in docs :: StoredDoc(d)
  }

  /** `d["_id"] = str(d["_id"])`: the identifier becomes its string form and
      nothing else changes. */
  function StringifyId(d: Document): (r: Document)
    requires StoredDoc(d)
    ensures r.Keys == d.Keys
    ensures r["_id"] == VStr(ObjectIds.Text(d["_id"].id))
    ensures forall k | k in d && k != "_id" :: r[k] == d[k]
  {
    d["_id" := VStr(ObjectIds.Text(d["_id"].id))]
  }

  /** What `get_documents` returns for the documents of a collection. */
  function Found(docs: seq<Document>, filter: Option<Document>, limit: int): (r: seq<Document>)
    requires AllStored(docs)
    ensures |r| == CursorLength(|Select(docs, EffectiveFilter(filter))|, limit)
    ensures |r| <= |Select(docs, EffectiveFilter(filter))|
    ensures limit > 0 ==> |r| <= limit
    ensures limit < 0 ==> |r| <= -limit
    ensures limit == 0 ==> |r| == |Select(docs, EffectiveFilter(filter))|
    ensures forall i | 0 <= i < |r| ::
              StoredDoc(Select(docs, EffectiveFilter(filter))[i])
              && r[i] == StringifyId(Select(docs, EffectiveFilter(filter))[i])
    ensures forall d: Document | d in r :: "_id" in d && d["_id"].VStr?
  {
    Stringified(Cursor(docs, filter, limit))
  }

  /** Every document of a cursor with its identifier as a string. */
  function Stringified(c: seq<Document>): (r: seq<Document>)
    requires AllStored(c)
    ensures |r| == |c|
    ensures forall i | 0 <= i < |c| :: r[i] == StringifyId(c[i])
  {
    seq(|c|, i requires 0 <= i < |c| => StringifyId(c[i]))
  }

  /** Leaving the filter out is the same as passing `{}`: the first `limit`
      documents of the collection come back, in order. */
  lemma NoFilterFindsFirst(docs: seq<Document>, limit: int)
    requires AllStored(docs)
    ensures Found(docs, None, limit) == Found(docs, Some(map[]), limit)
    ensures |Found(docs, None, limit)| == CursorLength(|docs|, limit)
    ensures forall i | 0 <= i < |Found(docs, None, limit)| :: Found(docs, None, limit)[i] == StringifyId(docs[i])
  {
    SelectEverything(docs);
  }

  // ------------------------------------------------------- the client

  /** A connection to the database server (`AsyncIOMotorClient`). */
  class Client {
    const url: string

    constructor (url: string)
      ensures this.url == url
    {
      this.url := url;
    }
  }

  /** A database of a client (`client[DB_NAME]`). */
  class DbHandle {
    const client: Client
    const name: string

    constructor (client: Client, name: string)
      ensures this.client == client && this.name == name
    {
      this.client := client;
      this.name := name;
    }
  }

  /** No two documents of a collection share an identifier, and every
      identifier is below `next`. */
  predicate IdsBelow(docs: seq<Document>, next: nat)
  {
    && AllStored(docs)
    && (forall i | 0 <= i < |docs| :: StoredDoc(docs[i]) && docs[i]["_id"].id < next)
    && (forall i, j | 0 <= i < j < |docs| ::
          StoredDoc(docs[i]) && StoredDoc(docs[j]) && docs[i]["_id"] != docs[j]["_id"])
  }

  /** Raising the bound keeps identifiers below it. */
  lemma IdsBelowGrow(docs: seq<Document>, next: nat)
    requires IdsBelow(docs, next)
    ensures IdsBelow(docs, next + 1)
  {
  }

  /** Appending a document with the next identifier keeps identifiers
      distinct and below the raised bound. */
  lemma IdsBelowAppend(docs: seq<Document>, next: nat, d: Document)
    requires IdsBelow(docs, next) && StoredDoc(d) && d["_id"] == VOid(next)
    ensures IdsBelow(docs + [d], next + 1)
  {
    var all := docs + [d];
    forall i, j | 0 <= i < j < |all|
      ensures StoredDoc(all[i]) && StoredDoc(all[j]) && all[i]["_id"] != all[j]["_id"]
    {
      if j == |docs| {
        assert all[i] == docs[i];
      }
    }
  }

  /** Appending a document with the next identifier to one collection keeps
      every collection's identifiers distinct and below the raised bound. */
  lemma StoreGrows(collections: map<string, seq<Document>>, name: string, next: nat, d: Document,
                   grown: map<string, seq<Document>>)
    requires forall c | c in collections :: IdsBelow(collections[c], next)
    requires StoredDoc(d) && d["_id"] == VOid(next)
    requires grown == collections[name := (if name in collections then collections[name] else []) + [d]]
    ensures forall c | c in grown :: IdsBelow(grown[c], next + 1)
  {
    IdsBelowAppend(if name in collections then collections[name] else [], next, d);
    forall c | c in collections
      ensures IdsBelow(collections[c], next + 1)
    {
      IdsBelowGrow(collections[c], next);
    }
  }

  /** The stored form of an insert: the stamped payload with a new identifier. */
  function Inserted(data: Document, now: string, id: nat): (r: Document)
    ensures StoredDoc(r) && r["_id"] == VOid(id)
  {
    Stamped(data, now)["_id" := VOid(id)]
  }

  /** `{**data, "created_at": now, "updated_at": now}`: every field of the
      input, the two timestamps equal, and an input timestamp overwritten. */
  function Stamped(data: Document, now: string): (r: Document)
    ensures r.Keys == data.Keys + {"created_at", "updated_at"}
    ensures r["created_at"] == r["updated_at"] == VStr(now)
    ensures forall k | k in data && k != "created_at" && k != "updated_at" :: r[k] == data[k]
  {
    data["created_at" := VStr(now)]["updated_at" := VStr(now)]
  }

  /** The record `create_document` returns is exactly what a later query
      returns for the stored document. */
  lemma InsertedReadsBack(data: Document, now: string, id: nat)
    ensures StringifyId(Inserted(data, now, id)) == Stamped(data, now)["_id" := VStr(ObjectIds.Text(id))]
  {
  }

  /** A stored record keeps every input field other than the three the store
      writes itself. */
  lemma InsertedKeeps(data: Document, now: string, id: nat)
    ensures forall k | k in data && k != "_id" && k != "created_at" && k != "updated_at" ::
              k in StringifyId(Inserted(data, now, id)) && StringifyId(Inserted(data, now, id))[k] == data[k]
  {
  }

  /** The module state of backend/database.py (`_client`, `_db`, and the
      settings read at import) together with the contents of the server the
      handle reaches. */
  class DocumentStore {
    const url: string
    const name: string
    var client: Client?
    var db: DbHandle?
    /** How many clients `get_db` has created. */
    ghost var clientsCreated: nat
    var collections: map<string, seq<Document>>
    /** The identifier the store gives the next inserted document. */
    var nextId: nat

    ghost predicate Valid()
      reads this
    {
      && (db == null ==> client == null && clientsCreated == 0)
      && (db != null ==> client != null && db.client == client && client.url == url
                         && db.name == name && clientsCreated == 1)
      && forall c | c in collections :: IdsBelow(collections[c], nextId)
    }

    /** Importing the module: `MONGO_URL` and `DB_NAME` come from the
        environment or their defaults, and no connection is made yet. */
    constructor (env: map<string, string>, existing: map<string, seq<Document>>, firstId: nat)
      requires forall c | c in existing :: IdsBelow(existing[c], firstId)
      ensures Valid()
      ensures url == GetEnv(env, "DATABASE_URL", DefaultUrl)
      ensures name == GetEnv(env, "DATABASE_NAME", DefaultName)
      ensures db == null && client == null
      ensures collections == existing && nextId == firstId
    {
      url := GetEnv(env, "DATABASE_URL", DefaultUrl);
      name := GetEnv(env, "DATABASE_NAME", DefaultName);
      client, db := null, null;
      clientsCreated := 0;
      collections := existing;
      nextId := firstId;
    }

    /** The documents of a collection; one never written to is empty. */
    function Docs(collection: string): (docs: seq<Document>)
      reads this
      requires Valid()
      ensures AllStored(docs)
    {
      if collection in collections then collections[collection] else []
    }

    /** `get_db`: the first call creates the client and the handle, every
        later call returns that same handle. */
    method GetDb() returns (h: DbHandle)
      requires Valid()
      modifies this`client, this`db, this`clientsCreated
      ensures Valid() && db == h
      ensures h.client.url == url && h.name == name
      ensures old(db) != null ==> h == old(db) && client == old(client)
      ensures old(db) == null ==> fresh(h) && fresh(h.client)
    {
      if db == null {
        client := new Client(url);
        db := new DbHandle(client, name);
        clientsCreated := clientsCreated + 1;
      }
      h := db;
    }

    /** `create_document`: store the stamped payload under a new identifier
        and return it with that identifier as a string. */
    method CreateDocument(collection: string, data: Document, now: string) returns (record: Document)
      requires Valid()
      requires "_id" !in data
      modifies this
      ensures Valid() && db != null
      ensures old(db) != null ==> db == old(db)
      ensures nextId == old(nextId) + 1
      ensures collections == old(collections)[collection := old(Docs(collection)) + [Inserted(data, now, old(nextId))]]
      ensures record == Stamped(data, now)["_id" := VStr(ObjectIds.Text(old(nextId)))]
      ensures record == StringifyId(Inserted(data, now, old(nextId)))
    {
      var h := GetDb();
      var payload := data["created_at" := VStr(now)]["updated_at" := VStr(now)];
      var id := nextId;
      var stored := payload["_id" := VOid(id)];
      var before := Docs(collection);
      StoreGrows(collections, collection, id, stored, collections[collection := before + [stored]]);
      collections := collections[collection := before + [stored]];
      nextId := nextId + 1;
      payload := payload["_id" := VStr(ObjectIds.Text(id))];
      record := payload;
      InsertedReadsBack(data, now, id);
    }

    /** `get_documents`: the first `limit` matches in store order, each with
        its identifier as a string. The store itself is left as it was. */
    method GetDocuments(collection: string, filter: Option<Document>, limit: int) returns (docs: seq<Document>)
      requires Valid()
      modifies this`client, this`db, this`clientsCreated
      ensures Valid() && db != null
      ensures old(db) != null ==> db == old(db)
      ensures docs == Found(Docs(collection), filter, limit)
    {
      var h := GetDb();
      var cursor := Cursor(Docs(collection), filter, limit);
      assert AllStored(cursor);
      docs := [];
      var i := 0;
      while i < |cursor|
        invariant 0 <= i <= |cursor|
        invariant |docs| == i
        invariant forall j | 0 <= j < i :: StoredDoc(cursor[j]) && docs[j] == StringifyId(cursor[j])
      {
        var d := cursor[i];
        assert StoredDoc(d);
        d := d["_id" := VStr(ObjectIds.Text(d["_id"].id))];
        docs := docs + [d];
        i := i + 1;
      }
      assert docs == Stringified(cursor);
    }
  }

  /** Two calls of `get_db` give the same handle and create one client. */
  method GetDbTwice(store: DocumentStore) returns (first: DbHandle, second: DbHandle)
    requires store.Valid()
    modifies store`client, store`db, store`clientsCreated
    ensures store.Valid() && first == second && store.clientsCreated == 1
  {
    first := store.GetDb();
    second := store.GetDb();
  }
}
