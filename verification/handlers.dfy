/**
 * The request handlers of main.py over the abstract store: listings with a
 * validated `limit`, slug lookups that embed related documents, and the
 * create endpoints. Query parameters and request bodies are validated
 * before a handler runs, so a malformed request is refused with the
 * validation error even when the store is unavailable.
 */
module Handlers {
  import opened Wrappers
  import opened Documents
  import opened Identifiers
  import opened Schemas
  import opened Entities
  import opened Filters
  import opened Store

  /** The HTTP errors a handler produces. */
  datatype ApiError =
    | Unavailable                          // 503 "Database not available"
    | NotFound(resource: string)           // 404 "<resource> not found"
    | Invalid(errors: seq<FieldError>)     // 422, request validation

  /** Bounds and defaults of the `limit` query parameter. */
  const MaxLimit: nat := 100
  const ProductPageSize: nat := 24
  const PageSize: nat := 20
  /** How many related documents a slug lookup embeds. */
  const EmbedCap: nat := 50

  /** `limit: int = Query(default, ge=1, le=100)`. */
  function CheckLimit(limit: Option<int>, default: nat): (r: Result<nat, ApiError>)
    requires 1 <= default <= MaxLimit
    ensures r.Success? <==> limit.None? || 1 <= limit.value <= MaxLimit
    ensures r.Success? ==> 1 <= r.value <= MaxLimit && r.value == limit.GetOr(default)
    ensures limit.Some? && limit.value < 1 ==> r == Failure(Invalid([FieldError("limit", BelowMin(1))]))
    ensures limit.Some? && limit.value > MaxLimit ==> r == Failure(Invalid([FieldError("limit", AboveMax(MaxLimit))]))
  {
    match limit
    case None => Success(default)
    case Some(n) =>
      if n < 1 then Failure(Invalid([FieldError("limit", BelowMin(1))]))
      else if n > MaxLimit then Failure(Invalid([FieldError("limit", AboveMax(MaxLimit))]))
      else Success(n)
  }

  /** Field `k` of `d` holds the text `s`. */
  predicate FieldIs(d: Doc, k: string, s: string) {
    k in d && d[k] == Str(s)
  }

  /** `d` is the normalised form of a stored document of `docs` that passes `f`. */
  predicate FromStore(d: Doc, docs: seq<Doc>, f: Filter) {
    exists j :: 0 <= j < |docs| && Eval(f, docs[j]) && d == Normalise(docs[j])
  }

  /** Normalising the results of a query keeps each one traceable to the document it came from. */
  lemma NormalisedFromStore(docs: seq<Doc>, f: Filter, limit: nat)
    ensures forall i :: 0 <= i < |NormaliseAll(Find(docs, f, limit))| ==>
              FromStore(NormaliseAll(Find(docs, f, limit))[i], docs, f)
  {
    var found := Find(docs, f, limit);
    forall i | 0 <= i < |found| ensures FromStore(Normalise(found[i]), docs, f) {
      var j :| 0 <= j < |docs| && docs[j] == found[i];
      assert Eval(f, docs[j]);
    }
  }

  /**
   * `r` is a page of `docs` under `f`: the first `n` documents passing `f`
   * in store order (all of them when fewer pass), each normalised.
   */
  predicate IsPage(r: seq<Doc>, docs: seq<Doc>, f: Filter, n: nat) {
    var all := Select(docs, f);
    && |r| == (if |all| <= n then |all| else n)
    && r == NormaliseAll(all[..|r|])
  }

  /**
   * The shared shape of every listing endpoint: validate `limit`, answer
   * with an empty list when the store is unavailable, otherwise return the
   * first `limit` documents passing `f`, normalised.
   */
  function ListDocs(conn: Connection, c: Collection, f: Filter, limit: Option<int>, default: nat)
    : (r: Result<seq<Doc>, ApiError>)
    requires 1 <= default <= MaxLimit
    ensures r.Success? <==> CheckLimit(limit, default).Success?
    ensures r.Failure? ==> r.error == CheckLimit(limit, default).error
    ensures r.Success? && conn.None? ==> r.value == []
    ensures r.Success? ==> |r.value| <= limit.GetOr(default) <= MaxLimit
    ensures r.Success? ==> forall i :: 0 <= i < |r.value| ==> InternalId !in r.value[i]
    ensures r.Success? && conn.Some? ==>
              forall i :: 0 <= i < |r.value| ==> FromStore(r.value[i], Docs(conn.value, c), f)
    ensures r.Success? && conn.Some? ==> IsPage(r.value, Docs(conn.value, c), f, limit.GetOr(default))
  {
    var lim :- CheckLimit(limit, default);
    match conn
    case None => Success([])
    case Some(db) =>
      NormalisedFromStore(Docs(db, c), f, lim);
      Success(NormaliseAll(Find(Docs(db, c), f, lim)))
  }

  /** A filter that does not look at `_id` or `id` judges a document and its normalised form alike. */
  lemma NormalisePreservesEval(f: Filter, d: Doc)
    requires InternalId !in Mentions(f) && ExternalId !in Mentions(f)
    ensures Eval(f, Normalise(d)) <==> Eval(f, d)
  {
    EvalReadsOnlyMentions(f, d, Normalise(d));
  }

  /** `list_products`: the products matching the search parameters, at most `limit` (default 24). */
  function ListProducts(conn: Connection, p: SearchParams, limit: Option<int>): (r: Result<seq<Doc>, ApiError>)
    ensures r.Success? <==> limit.None? || 1 <= limit.value <= MaxLimit
    ensures r.Success? && conn.None? ==> r.value == []
    ensures r.Success? ==> |r.value| <= limit.GetOr(ProductPageSize)
    ensures r.Success? ==> forall i :: 0 <= i < |r.value| ==>
              InternalId !in r.value[i] && MatchesParams(p, r.value[i])
    ensures r.Success? && conn.Some? ==>
              IsPage(r.value, conn.value.products, BuildFilter(p), limit.GetOr(ProductPageSize))
  {
    var r := ListDocs(conn, ProductColl, BuildFilter(p), limit, ProductPageSize);
    ListingMatches(conn, p, r);
    r
  }

  lemma ListingMatches(conn: Connection, p: SearchParams, r: Result<seq<Doc>, ApiError>)
    requires r.Success? && conn.Some? ==>
               forall i :: 0 <= i < |r.value| ==> FromStore(r.value[i], conn.value.products, BuildFilter(p))
    requires r.Success? && conn.None? ==> r.value == []
    ensures r.Success? ==> forall i :: 0 <= i < |r.value| ==> MatchesParams(p, r.value[i])
  {
    if r.Success? && conn.Some? {
      BuildFilterMentions(p);
      forall i | 0 <= i < |r.value| ensures MatchesParams(p, r.value[i]) {
        var docs := conn.value.products;
        var j :| 0 <= j < |docs| && Eval(BuildFilter(p), docs[j]) && r.value[i] == Normalise(docs[j]);
        NormalisePreservesEval(BuildFilter(p), docs[j]);
        BuildFilterMeaning(p, r.value[i]);
      }
    }
  }

  /** `list_vendors`: the first `limit` vendors (default 20), unfiltered. */
  function ListVendors(conn: Connection, limit: Option<int>): (r: Result<seq<Doc>, ApiError>)
    ensures r.Success? <==> limit.None? || 1 <= limit.value <= MaxLimit
    ensures r.Success? && conn.None? ==> r.value == []
    ensures r.Success? ==> |r.value| <= limit.GetOr(PageSize)
    ensures r.Success? && conn.Some? ==> IsPage(r.value, conn.value.vendors, MatchAll, limit.GetOr(PageSize))
    ensures r.Success? && conn.Some? && |conn.value.vendors| <= limit.GetOr(PageSize) ==>
              r.value == NormaliseAll(conn.value.vendors)
  {
    var r := ListDocs(conn, VendorColl, MatchAll, limit, PageSize);
    if conn.Some? then SelectAll(conn.value.vendors); r else r
  }

  /** The empty conjunction lets every document through. */
  lemma SelectAll(docs: seq<Doc>)
    ensures Select(docs, MatchAll) == docs
  {
    if docs != [] {
      SelectAll(docs[1..]);
    }
  }

  /** `list_reviews`: the reviews of one product, at most `limit` (default 20). */
  function ListReviews(conn: Connection, productSlug: string, limit: Option<int>): (r: Result<seq<Doc>, ApiError>)
    ensures r.Success? <==> limit.None? || 1 <= limit.value <= MaxLimit
    ensures r.Success? && conn.None? ==> r.value == []
    ensures r.Success? ==> |r.value| <= limit.GetOr(PageSize)
    ensures r.Success? ==> forall i :: 0 <= i < |r.value| ==>
              InternalId !in r.value[i] && FieldIs(r.value[i], "product_slug", productSlug)
    ensures r.Success? && conn.Some? ==>
              IsPage(r.value, conn.value.reviews, Eq("product_slug", Str(productSlug)), limit.GetOr(PageSize))
  {
    var r := ListDocs(conn, ReviewColl, Eq("product_slug", Str(productSlug)), limit, PageSize);
    if r.Success? && conn.Some? then
      NormalisedKeepField(r.value, conn.value.reviews, "product_slug", productSlug);
      r
    else r
  }

  /** Documents drawn from the store through an equality on `k` still carry it after normalisation. */
  lemma NormalisedKeepField(rs: seq<Doc>, docs: seq<Doc>, k: string, s: string)
    requires k != InternalId && k != ExternalId
    requires forall i :: 0 <= i < |rs| ==> FromStore(rs[i], docs, Eq(k, Str(s)))
    ensures forall i :: 0 <= i < |rs| ==> FieldIs(rs[i], k, s)
  {
    forall i | 0 <= i < |rs| ensures FieldIs(rs[i], k, s) {
      var j :| 0 <= j < |docs| && Eval(Eq(k, Str(s)), docs[j]) && rs[i] == Normalise(docs[j]);
    }
  }

  /** The five categories `list_categories` offers when the store is unavailable; `seed_data` stores the same five. */
  const StarterCategories: seq<Doc> := [
    map["name" := Str("Banarasi"), "slug" := Str("banarasi")],
    map["name" := Str("Kanjivaram"), "slug" := Str("kanjivaram")],
    map["name" := Str("Cotton"), "slug" := Str("cotton")],
    map["name" := Str("Silk"), "slug" := Str("silk")],
    map["name" := Str("Organza"), "slug" := Str("organza")]
  ]

  /**
   * `list_categories`: the first `limit` stored categories, or the five
   * starter categories when the store is unavailable, whatever the limit.
   */
  function ListCategories(conn: Connection, limit: Option<int>): (r: Result<seq<Doc>, ApiError>)
    ensures r.Success? <==> limit.None? || 1 <= limit.value <= MaxLimit
    ensures r.Success? && conn.None? ==> r.value == StarterCategories
    ensures r.Success? && conn.Some? ==> |r.value| <= limit.GetOr(PageSize)
    ensures r.Success? && conn.Some? ==> IsPage(r.value, conn.value.categories, MatchAll, limit.GetOr(PageSize))
    ensures r.Success? && conn.Some? && |conn.value.categories| <= limit.GetOr(PageSize) ==>
              r.value == NormaliseAll(conn.value.categories)
  {
    var lim :- CheckLimit(limit, PageSize);
    match conn
    case None => Success(StarterCategories)
    case Some(db) =>
      SelectAll(db.categories);
      ListDocs(conn, CategoryColl, MatchAll, limit, PageSize)
  }

  /** `d` is the first document of `docs` whose field `k` holds `s`. */
  predicate FirstWith(docs: seq<Doc>, k: string, s: string, d: Doc) {
    exists i :: 0 <= i < |docs| && docs[i] == d && FieldIs(docs[i], k, s) &&
      forall j :: 0 <= j < i ==> !FieldIs(docs[j], k, s)
  }

  /** The head of a non-empty equality selection is the first matching document. */
  lemma {:induction false} SelectHeadIsFirst(docs: seq<Doc>, k: string, s: string)
    requires Select(docs, Eq(k, Str(s))) != []
    ensures FirstWith(docs, k, s, Select(docs, Eq(k, Str(s)))[0])
    decreases |docs|
  {
    var f := Eq(k, Str(s));
    if !Eval(f, docs[0]) {
      var tail := docs[1..];
      SelectHeadIsFirst(tail, k, s);
      var i :| 0 <= i < |tail| && tail[i] == Select(tail, f)[0] && FieldIs(tail[i], k, s) &&
        forall j :: 0 <= j < i ==> !FieldIs(tail[j], k, s);
      assert docs[i + 1] == tail[i];
      forall j | 0 <= j < i + 1 ensures !FieldIs(docs[j], k, s) {
        if j > 0 {
          assert docs[j] == tail[j - 1];
        }
      }
    } else {
      assert docs[0] == Select(docs, f)[0];
    }
  }

  /** Some document of `docs` has field `k` holding `s`. */
  predicate AnyWith(docs: seq<Doc>, k: string, s: string) {
    exists i :: 0 <= i < |docs| && FieldIs(docs[i], k, s)
  }

  /** An equality selection is empty exactly when no document has the field. */
  lemma NoneSelected(docs: seq<Doc>, k: string, s: string)
    ensures Select(docs, Eq(k, Str(s))) == [] <==> !AnyWith(docs, k, s)
  {
    if AnyWith(docs, k, s) {
      var i :| 0 <= i < |docs| && FieldIs(docs[i], k, s);
      assert docs[i] in Select(docs, Eq(k, Str(s)));
    }
  }

  /** The related documents a lookup embeds: those whose `key` is `slug`, normalised, at most `EmbedCap`. */
  function Embedded(docs: seq<Doc>, key: string, slug: string): seq<Doc> {
    NormaliseAll(Find(docs, Eq(key, Str(slug)), EmbedCap))
  }

  /**
   * `r` is the first document of `docs` with slug `slug`, normalised, with
   * `v` under `field`.
   */
  ghost predicate Found(docs: seq<Doc>, slug: string, r: Doc, field: string, v: Value) {
    exists d :: FirstWith(docs, "slug", slug, d) && r == Normalise(d)[field := v]
  }

  /**
   * The lookup shared by `get_product` and `get_vendor`: the first document
   * of `c` whose `slug` is `slug`, normalised, with the first `EmbedCap`
   * documents of `child` whose `key` is `slug` embedded under `field`.
   */
  function Lookup(conn: Connection, c: Collection, resource: string, slug: string,
                  child: Collection, key: string, field: string): (r: Result<Doc, ApiError>)
    ensures conn.None? ==> r == Failure(Unavailable)
    ensures conn.Some? ==> (r.Failure? <==> !AnyWith(Docs(conn.value, c), "slug", slug))
    ensures conn.Some? && r.Failure? ==> r.error == NotFound(resource)
    ensures r.Success? ==> Found(Docs(conn.value, c), slug, r.value, field, Embed(Embedded(Docs(conn.value, child), key, slug)))
  {
    match conn
    case None => Failure(Unavailable)
    case Some(db) =>
      var found := Find(Docs(db, c), Eq("slug", Str(slug)), 1);
      NoneSelected(Docs(db, c), "slug", slug);
      if found == [] then
        Failure(NotFound(resource))
      else
        SelectHeadIsFirst(Docs(db, c), "slug", slug);
        Success(Normalise(found[0])[field := Embed(Embedded(Docs(db, child), key, slug))])
  }

  /** `get_product`: a product with its reviews embedded under `reviews`. */
  function GetProduct(conn: Connection, slug: string): (r: Result<Doc, ApiError>)
    ensures conn.None? ==> r == Failure(Unavailable)
    ensures conn.Some? ==> (r.Failure? <==> !AnyWith(conn.value.products, "slug", slug))
    ensures conn.Some? && r.Failure? ==> r.error == NotFound("Product")
    ensures r.Success? ==> Found(conn.value.products, slug, r.value, "reviews", Embed(Embedded(conn.value.reviews, "product_slug", slug)))
  {
    var r := Lookup(conn, ProductColl, "Product", slug, ReviewColl, "product_slug", "reviews");
    assert conn.Some? ==> Docs(conn.value, ProductColl) == conn.value.products && Docs(conn.value, ReviewColl) == conn.value.reviews;
    r
  }

  /** `get_vendor`: a vendor with a preview of its products embedded under `products`. */
  function GetVendor(conn: Connection, slug: string): (r: Result<Doc, ApiError>)
    ensures conn.None? ==> r == Failure(Unavailable)
    ensures conn.Some? ==> (r.Failure? <==> !AnyWith(conn.value.vendors, "slug", slug))
    ensures conn.Some? && r.Failure? ==> r.error == NotFound("Vendor")
    ensures r.Success? ==> Found(conn.value.vendors, slug, r.value, "products", Embed(Embedded(conn.value.products, "vendor_slug", slug)))
  {
    var r := Lookup(conn, VendorColl, "Vendor", slug, ProductColl, "vendor_slug", "products");
    assert conn.Some? ==> Docs(conn.value, VendorColl) == conn.value.vendors && Docs(conn.value, ProductColl) == conn.value.products;
    r
  }

  /**
   * What gets embedded: at most 50 normalised documents, each with `key`
   * equal to `slug` and drawn from the store; if at most 50 qualify, every
   * one of them in store order; and none qualifying gives an empty list.
   */
  lemma EmbeddedMeaning(docs: seq<Doc>, key: string, slug: string)
    requires key != InternalId && key != ExternalId
    ensures var e := Embedded(docs, key, slug);
            && |e| <= EmbedCap
            && (forall i :: 0 <= i < |e| ==> InternalId !in e[i] && FieldIs(e[i], key, slug))
            && (forall i :: 0 <= i < |e| ==> exists j :: 0 <= j < |docs| && e[i] == Normalise(docs[j]))
            && (|Select(docs, Eq(key, Str(slug)))| <= EmbedCap ==> e == NormaliseAll(Select(docs, Eq(key, Str(slug)))))
            && (!AnyWith(docs, key, slug) ==> e == [])
  {
    var f := Eq(key, Str(slug));
    NoneSelected(docs, key, slug);
    var found := Find(docs, f, EmbedCap);
    forall i | 0 <= i < |found| ensures exists j :: 0 <= j < |docs| && Normalise(found[i]) == Normalise(docs[j]) {
      var j :| 0 <= j < |docs| && docs[j] == found[i];
    }
  }

  /** The collection each kind of entity is stored in. */
  function CollectionOf(kind: Kind): Collection {
    match kind
    case CategoryKind => CategoryColl
    case VendorKind => VendorColl
    case ProductKind => ProductColl
    case ReviewKind => ReviewColl
    case OrderKind => OrderColl
  }

  /** A successful write: the store afterwards and the response body. */
  datatype Created = Created(db: Db, body: Doc)

  /**
   * The create endpoints: the body is validated first (422), then an
   * unavailable store refuses the write (503), otherwise the validated
   * document is appended under a fresh identifier, whose text the response
   * carries under `id`.
   */
  function CreateEntity(conn: Connection, kind: Kind, payload: Doc): (r: Result<Created, ApiError>)
    ensures Validate(kind, payload).Failure? ==> r == Failure(Invalid(Validate(kind, payload).error.errors))
    ensures Validate(kind, payload).Success? && conn.None? ==> r == Failure(Unavailable)
    ensures r.Success? <==> Validate(kind, payload).Success? && conn.Some?
    ensures r.Success? ==>
              && Appended(conn.value, r.value.db, CollectionOf(kind), Validate(kind, payload).value)
              && r.value.body == map[ExternalId := Str(OidText(conn.value.nextId))]
  {
    match Parse(kind, payload)
    case Failure(e) => Failure(Invalid(e.errors))
    case Success(entity) =>
      match Create(conn, CollectionOf(kind), Dump(entity))
      case Failure(_) => Failure(Unavailable)
      case Success((db, id)) => Success(Created(db, map[ExternalId := Str(OidText(id))]))
  }

  /** A write keeps every collection's identifiers fresh and distinct. */
  lemma CreateWellFormed(conn: Connection, kind: Kind, payload: Doc)
    requires conn.Some? && WellFormed(conn.value)
    requires CreateEntity(conn, kind, payload).Success?
    ensures WellFormed(CreateEntity(conn, kind, payload).value.db)
  {
    InsertWellFormed(conn.value, CollectionOf(kind), Validate(kind, payload).value);
  }

  function CreateProduct(conn: Connection, payload: Doc): (r: Result<Created, ApiError>)
    ensures r.Success? <==> Validate(ProductKind, payload).Success? && conn.Some?
    ensures r.Success? ==> |r.value.db.products| == |conn.value.products| + 1
    ensures r.Success? ==> Appended(conn.value, r.value.db, ProductColl, Validate(ProductKind, payload).value)
    ensures r.Success? ==> r.value.body == map[ExternalId := Str(OidText(conn.value.nextId))]
  {
    CreateEntity(conn, ProductKind, payload)
  }

  function CreateVendor(conn: Connection, payload: Doc): (r: Result<Created, ApiError>)
    ensures r.Success? <==> Validate(VendorKind, payload).Success? && conn.Some?
    ensures r.Success? ==> |r.value.db.vendors| == |conn.value.vendors| + 1
    ensures r.Success? ==> Appended(conn.value, r.value.db, VendorColl, Validate(VendorKind, payload).value)
    ensures r.Success? ==> r.value.body == map[ExternalId := Str(OidText(conn.value.nextId))]
  {
    CreateEntity(conn, VendorKind, payload)
  }

  function CreateReview(conn: Connection, payload: Doc): (r: Result<Created, ApiError>)
    ensures r.Success? <==> Validate(ReviewKind, payload).Success? && conn.Some?
    ensures r.Success? ==> |r.value.db.reviews| == |conn.value.reviews| + 1
    ensures r.Success? ==> Appended(conn.value, r.value.db, ReviewColl, Validate(ReviewKind, payload).value)
    ensures r.Success? ==> r.value.body == map[ExternalId := Str(OidText(conn.value.nextId))]
  {
    CreateEntity(conn, ReviewKind, payload)
  }

  /**
   * `create_order`: a create whose response also echoes the order's
   * status, which is "pending" unless the body names another.
   */
  function CreateOrder(conn: Connection, payload: Doc): (r: Result<Created, ApiError>)
    ensures r.Success? <==> Validate(OrderKind, payload).Success? && conn.Some?
    ensures r.Success? ==> |r.value.db.orders| == |conn.value.orders| + 1
    ensures r.Success? ==> Appended(conn.value, r.value.db, OrderColl, Validate(OrderKind, payload).value)
    ensures r.Success? ==> r.value.body == map[ExternalId := Str(OidText(conn.value.nextId)), "status" := EchoedStatus(payload)]
  {
    match CreateEntity(conn, OrderKind, payload)
    case Failure(e) => Failure(e)
    case Success(created) =>
      var order := Parse(OrderKind, payload).value;
      OrderStatusEcho(payload);
      assert created.body == map[ExternalId := Str(OidText(conn.value.nextId))];
      assert created.db.orders == Docs(created.db, CollectionOf(OrderKind));
      Success(created.(body := created.body["status" := Str(StatusName(order.order.status))]))
  }

  /** The status a created order reports: the one the body gave, else "pending". */
  function EchoedStatus(payload: Doc): Value {
    if "status" in payload then payload["status"] else Str("pending")
  }

  /** The validated order's status is the body's, or "pending" when the body has none. */
  lemma OrderStatusEcho(payload: Doc)
    requires Validate(OrderKind, payload).Success?
    ensures var o := Parse(OrderKind, payload).value;
            && o.OrderEntity?
            && Str(StatusName(o.order.status)) == EchoedStatus(payload)
  {
    var d := Validate(OrderKind, payload).value;
    var f := OrderSchema[5];
    assert f == Field("status", LiteralType(OrderStatuses), Some(Str("pending")));
    assert Schema(OrderKind)[5] == f && Accepts(f, payload);
    var v := d["status"];
    assert v == Settled(f, payload) == EchoedStatus(payload);
    assert v.Str? && v.s in OrderStatuses;
    assert Parse(OrderKind, payload).value == FromDoc(OrderKind, d);
    StatusNamesRoundTrip(Pending, v.s);
  }
}
