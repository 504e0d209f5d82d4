/**
 * The document store behind `create_document`, `get_documents` and `db`
 * (imported at main.py:7; database.py is not part of this model). Each
 * collection is a sequence in insertion order; the connection is an
 * optional value, `None` being the process-wide uninitialised state.
 */
module Store {
  import opened Wrappers
  import opened Documents
  import opened Filters
  import opened Identifiers

  /** The collections, one per entity: "category", "vendor", "product", "review" and "order". */
  datatype Collection = CategoryColl | VendorColl | ProductColl | ReviewColl | OrderColl

  /** The stored collections, plus the next identifier the store will hand out. */
  datatype Db = Db(
    categories: seq<Doc>,
    vendors: seq<Doc>,
    products: seq<Doc>,
    reviews: seq<Doc>,
    orders: seq<Doc>,
    nextId: ObjectId)

  /** The `db` handle: `None` when the store was never initialised. */
  type Connection = Option<Db>

  datatype StoreError = StoreUnavailable

  function Docs(db: Db, c: Collection): seq<Doc> {
    match c
    case CategoryColl => db.categories
    case VendorColl => db.vendors
    case ProductColl => db.products
    case ReviewColl => db.reviews
    case OrderColl => db.orders
  }

  /** Replaces one collection and leaves the others and the identifier counter alone. */
  function WithDocs(db: Db, c: Collection, docs: seq<Doc>): (r: Db)
    ensures Docs(r, c) == docs
    ensures forall c' :: c' != c ==> Docs(r, c') == Docs(db, c')
    ensures r.nextId == db.nextId
  {
    match c
    case CategoryColl => db.(categories := docs)
    case VendorColl => db.(vendors := docs)
    case ProductColl => db.(products := docs)
    case ReviewColl => db.(reviews := docs)
    case OrderColl => db.(orders := docs)
  }

  /** The documents passing `f`, in store order. */
  function Select(docs: seq<Doc>, f: Filter): (r: seq<Doc>)
    ensures |r| <= |docs|
    ensures forall i :: 0 <= i < |r| ==> Eval(f, r[i])
    ensures forall d :: d in r <==> d in docs && Eval(f, d)
  {
    if docs == [] then []
    else (if Eval(f, docs[0]) then [docs[0]] else []) + Select(docs[1..], f)
  }

  /** Selection distributes over concatenation: it keeps the relative order of the store. */
  lemma {:induction false} SelectConcat(a: seq<Doc>, b: seq<Doc>, f: Filter)
    ensures Select(a + b, f) == Select(a, f) + Select(b, f)
    decreases |a|
  {
    if a == [] {
      assert a + b == b;
    } else {
      var t := a[1..];
      assert (a + b)[0] == a[0] && (a + b)[1..] == t + b;
      SelectConcat(t, b, f);
      var head := if Eval(f, a[0]) then [a[0]] else [];
      calc {
        Select(a + b, f);
        head + Select(t + b, f);
        head + (Select(t, f) + Select(b, f));
        { ConcatAssoc(head, Select(t, f), Select(b, f)); }
        Select(a, f) + Select(b, f);
      }
    }
  }

  /** Concatenation is associative; stated once so that proofs can name the step. */
  lemma ConcatAssoc<T>(a: seq<T>, b: seq<T>, c: seq<T>)
    ensures (a + b) + c == a + (b + c)
  {
  }

  /** The first `n` elements, or all of them when there are fewer. */
  function Take(s: seq<Doc>, n: nat): (r: seq<Doc>)
    ensures |r| <= n && |r| <= |s|
    ensures |s| <= n ==> r == s
    ensures r == s[..|r|]
  {
    if |s| <= n then s else s[..n]
  }

  /**
   * `get_documents(collection, filter, limit)`: the first `limit` documents
   * passing the filter, in store order.
   */
  function Find(docs: seq<Doc>, f: Filter, limit: nat): (r: seq<Doc>)
    ensures |r| <= limit
    ensures forall i :: 0 <= i < |r| ==> Eval(f, r[i]) && r[i] in docs
    ensures |r| <= |Select(docs, f)| && r == Select(docs, f)[..|r|]
    ensures |r| < limit ==> r == Select(docs, f)
  {
    Take(Select(docs, f), limit)
  }

  /** A cursor that scans the collection and stops as soon as `limit` documents passed. */
  method Scan(docs: seq<Doc>, f: Filter, limit: nat) returns (r: seq<Doc>)
    ensures r == Find(docs, f, limit)
  {
    r := [];
    var i := 0;
    while i < |docs| && |r| < limit
      invariant 0 <= i <= |docs|
      invariant r == Select(docs[..i], f)
      invariant |r| <= limit
    {
      SelectExtend(docs, i, f);
      if Eval(f, docs[i]) {
        r := r + [docs[i]];
      }
      i := i + 1;
    }
    ScanStopped(docs, i, f, limit);
  }

  lemma SelectExtend(docs: seq<Doc>, i: nat, f: Filter)
    requires i < |docs|
    ensures Select(docs[..i + 1], f) == Select(docs[..i], f) + (if Eval(f, docs[i]) then [docs[i]] else [])
  {
    assert docs[..i + 1] == docs[..i] + [docs[i]];
    SelectConcat(docs[..i], [docs[i]], f);
    assert Select([docs[i]], f) == (if Eval(f, docs[i]) then [docs[i]] else []) by {
      assert [docs[i]][1..] == [];
    }
  }

  /** Where the scan stops, what it has collected is the query's answer. */
  lemma ScanStopped(docs: seq<Doc>, i: nat, f: Filter, limit: nat)
    requires i <= |docs| && |Select(docs[..i], f)| <= limit
    requires i == |docs| || |Select(docs[..i], f)| == limit
    ensures Select(docs[..i], f) == Find(docs, f, limit)
  {
    SelectConcat(docs[..i], docs[i..], f);
    assert docs[..i] + docs[i..] == docs;
    if i < |docs| {
      var a := Select(docs[..i], f);
      assert (a + Select(docs[i..], f))[..limit] == a;
    }
  }

  /** Appends a document under a fresh identifier; the collection and counter are the only change. */
  function Insert(db: Db, c: Collection, doc: Doc): (r: Db)
    ensures Docs(r, c) == Docs(db, c) + [doc[InternalId := Oid(db.nextId)]]
    ensures forall c' :: c' != c ==> Docs(r, c') == Docs(db, c')
    ensures r.nextId == db.nextId + 1
  {
    WithDocs(db, c, Docs(db, c) + [doc[InternalId := Oid(db.nextId)]]).(nextId := db.nextId + 1)
  }

  /** `after` is `before` with `doc` appended to `c` under the next identifier, and nothing else changed. */
  predicate Appended(before: Db, after: Db, c: Collection, doc: Doc) {
    && Docs(after, c) == Docs(before, c) + [doc[InternalId := Oid(before.nextId)]]
    && (forall c' :: c' != c ==> Docs(after, c') == Docs(before, c'))
    && after.nextId == before.nextId + 1
  }

  /**
   * `create_document`: stores the document under a fresh identifier and
   * returns the identifier; an uninitialised store refuses every write.
   */
  function Create(conn: Connection, c: Collection, doc: Doc): (r: Result<(Db, ObjectId), StoreError>)
    ensures conn.None? <==> r == Failure(StoreUnavailable)
    ensures r.Success? ==> r.value.0 == Insert(conn.value, c, doc) && r.value.1 == conn.value.nextId
  {
    match conn
    case None => Failure(StoreUnavailable)
    case Some(db) => Success((Insert(db, c, doc), db.nextId))
  }

  /** Every stored document carries an ObjectId below the counter, distinct within its collection. */
  predicate WellFormed(db: Db) {
    forall c :: IdsBelow(Docs(db, c), db.nextId) && DistinctOids(Docs(db, c))
  }

  predicate IdsBelow(docs: seq<Doc>, n: ObjectId) {
    forall i :: 0 <= i < |docs| ==> HasOid(docs[i]) && docs[i][InternalId].oid < n
  }

  /** Inserting keeps identifiers fresh: the new one differs from every identifier already stored. */
  lemma InsertWellFormed(db: Db, c: Collection, doc: Doc)
    requires WellFormed(db)
    ensures WellFormed(Insert(db, c, doc))
  {
    var r := Insert(db, c, doc);
    forall c' ensures IdsBelow(Docs(r, c'), r.nextId) && DistinctOids(Docs(r, c')) {
      if c' != c {
        assert IdsBelow(Docs(db, c'), db.nextId) && DistinctOids(Docs(db, c'));
      } else {
        var before := Docs(db, c);
        assert IdsBelow(before, db.nextId) && DistinctOids(before);
        var docs := Docs(r, c);
        assert forall i :: 0 <= i < |before| ==> docs[i] == before[i];
      }
    }
  }

  /** A selection of documents with distinct identifiers has distinct identifiers. */
  lemma {:induction false} SelectKeepsDistinct(docs: seq<Doc>, f: Filter)
    requires DistinctOids(docs)
    ensures DistinctOids(Select(docs, f))
    decreases |docs|
  {
    if docs != [] {
      var tail := docs[1..];
      assert DistinctOids(tail) by {
        assert forall i :: 0 <= i < |tail| ==> tail[i] == docs[i + 1];
      }
      SelectKeepsDistinct(tail, f);
      var rest := Select(tail, f);
      forall d | d in rest ensures d[InternalId] != docs[0][InternalId] {
        var j :| 0 <= j < |tail| && tail[j] == d;
        assert docs[j + 1] == d;
      }
      var head := if Eval(f, docs[0]) then [docs[0]] else [];
      assert Select(docs, f) == head + rest;
      ConsKeepsDistinct(head, rest);
    }
  }

  /** Prefixing at most one document whose identifier is new keeps identifiers distinct. */
  lemma ConsKeepsDistinct(head: seq<Doc>, rest: seq<Doc>)
    requires |head| <= 1 && DistinctOids(head) && DistinctOids(rest)
    requires forall d :: d in head ==> forall e :: e in rest ==> d[InternalId] != e[InternalId]
    ensures DistinctOids(head + rest)
  {
    var s := head + rest;
    forall i, j | 0 <= i < j < |s| ensures s[i][InternalId] != s[j][InternalId] {
      if i < |head| {
        assert s[i] in head && s[j] == rest[j - |head|];
      } else {
        assert s[i] == rest[i - |head|] && s[j] == rest[j - |head|];
      }
    }
  }

  /** A query result never holds two documents with one identifier. */
  lemma FindKeepsDistinct(docs: seq<Doc>, f: Filter, limit: nat)
    requires DistinctOids(docs)
    ensures DistinctOids(Find(docs, f, limit))
  {
    SelectKeepsDistinct(docs, f);
  }
}
