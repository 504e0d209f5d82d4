/**
 * `seed_data` (main.py:64-165): fills each of the category, vendor,
 * product and review collections with fixed sample documents, but only a
 * collection that is empty, and reports how many documents it created in
 * each. Orders are never seeded.
 */
module Seeding {
  import opened Wrappers
  import opened Documents
  import opened Identifiers
  import opened Store
  import opened Handlers

  /** The `seeded` counters of the response. */
  datatype SeedCounts = SeedCounts(categories: nat, vendors: nat, products: nat, reviews: nat)

  const NothingSeeded := SeedCounts(0, 0, 0, 0)

  const SeedVendors: seq<Doc> := [
    map["store_name" := Str("Varanasi Weaves"), "slug" := Str("varanasi-weaves"),
        "about" := Str("Handwoven Banarasi sarees."), "verified" := Bool(true), "region" := Str("Varanasi")],
    map["store_name" := Str("Kanjivaram Katha"), "slug" := Str("kanjivaram-katha"),
        "about" := Str("Traditional Kanjivaram silk."), "verified" := Bool(true), "region" := Str("Kanchipuram")],
    map["store_name" := Str("Cotton Looms"), "slug" := Str("cotton-looms"),
        "about" := Str("Breathable cotton sarees."), "verified" := Bool(false), "region" := Str("Coimbatore")]
  ]

  const SeedProducts: seq<Doc> := [
    map["title" := Str("Royal Banarasi Brocade"), "slug" := Str("royal-banarasi-brocade"),
        "description" := Str("Rich zari work with traditional motifs."), "vendor_slug" := Str("varanasi-weaves"),
        "price_in_paise" := Int(899900), "saree_type" := Str("Banarasi"), "color" := Str("Maroon"),
        "material" := Str("Silk"), "occasion" := Str("Wedding"), "care" := Str("Dry clean only"),
        "images" := List([Str("https://images.unsplash.com/photo-1603575448894-0474f35f9f1b?q=80&w=1200&auto=format&fit=crop")]),
        "stock" := Int(8)],
    map["title" := Str("Classic Kanjivaram Gold"), "slug" := Str("classic-kanjivaram-gold"),
        "description" := Str("Pure silk with gold border."), "vendor_slug" := Str("kanjivaram-katha"),
        "price_in_paise" := Int(1299900), "saree_type" := Str("Kanjivaram"), "color" := Str("Indigo"),
        "material" := Str("Silk"), "occasion" := Str("Festive"), "care" := Str("Dry clean only"),
        "images" := List([Str("https://images.unsplash.com/photo-1610563166150-6ed79b3b6d62?q=80&w=1200&auto=format&fit=crop")]),
        "stock" := Int(5)],
    map["title" := Str("Summer Breeze Cotton"), "slug" := Str("summer-breeze-cotton"),
        "description" := Str("Lightweight cotton saree."), "vendor_slug" := Str("cotton-looms"),
        "price_in_paise" := Int(299900), "saree_type" := Str("Cotton"), "color" := Str("Saffron"),
        "material" := Str("Cotton"), "occasion" := Str("Casual"), "care" := Str("Machine wash gentle"),
        "images" := List([Str("https://images.unsplash.com/photo-1585487000160-6f1a5e60e1f9?q=80&w=1200&auto=format&fit=crop")]),
        "stock" := Int(20)]
  ]

  const SeedReviews: seq<Doc> := [
    map["product_slug" := Str("royal-banarasi-brocade"), "rating" := Int(5),
        "comment" := Str("Stunning craftsmanship!"), "author_name" := Str("Asha")],
    map["product_slug" := Str("classic-kanjivaram-gold"), "rating" := Int(4),
        "comment" := Str("Luxurious and elegant."), "author_name" := Str("Meera")]
  ]

  /** `docs` as stored from identifier `start` on: each gets the next identifier in turn. */
  function Stamped(docs: seq<Doc>, start: ObjectId): (r: seq<Doc>)
    ensures |r| == |docs|
    decreases |docs|
  {
    if docs == [] then [] else [docs[0][InternalId := Oid(start)]] + Stamped(docs[1..], start + 1)
  }

  /** The `i`-th stamped document is the `i`-th document under identifier `start + i`. */
  lemma {:induction false} StampedAt(docs: seq<Doc>, start: ObjectId, i: nat)
    requires i < |docs|
    ensures Stamped(docs, start)[i] == docs[i][InternalId := Oid(start + i)]
    decreases i
  {
    if i > 0 {
      StampedAt(docs[1..], start + 1, i - 1);
    }
  }

  /** One `create_document` per document, in order. */
  function InsertAll(db: Db, c: Collection, docs: seq<Doc>): (r: Db)
    ensures r.nextId == db.nextId + |docs|
    decreases |docs|
  {
    if docs == [] then db else InsertAll(Insert(db, c, docs[0]), c, docs[1..])
  }

  /** Inserting a sequence appends the documents in order under consecutive identifiers. */
  lemma {:induction false} InsertAllAppends(db: Db, c: Collection, docs: seq<Doc>)
    ensures Docs(InsertAll(db, c, docs), c) == Docs(db, c) + Stamped(docs, db.nextId)
    decreases |docs|
  {
    if docs == [] {
      assert Docs(db, c) + Stamped(docs, db.nextId) == Docs(db, c);
    } else {
      var db1 := Insert(db, c, docs[0]);
      var after := Docs(InsertAll(db1, c, docs[1..]), c);
      assert Docs(InsertAll(db, c, docs), c) == after;
      var a, first, rest := Docs(db, c), docs[0][InternalId := Oid(db.nextId)], Stamped(docs[1..], db.nextId + 1);
      InsertAllAppends(db1, c, docs[1..]);
      assert after == (a + [first]) + rest;
      ConcatAssoc(a, [first], rest);
    }
  }

  /** Inserting into one collection leaves the others alone. */
  lemma {:induction false} InsertAllFrames(db: Db, c: Collection, docs: seq<Doc>, c': Collection)
    requires c' != c
    ensures Docs(InsertAll(db, c, docs), c') == Docs(db, c')
    decreases |docs|
  {
    if docs != [] {
      InsertAllFrames(Insert(db, c, docs[0]), c, docs[1..], c');
    }
  }

  /** Repeated inserts keep every collection's identifiers fresh and distinct. */
  lemma {:induction false} InsertAllWellFormed(db: Db, c: Collection, docs: seq<Doc>)
    requires WellFormed(db)
    ensures WellFormed(InsertAll(db, c, docs))
    decreases |docs|
  {
    if docs != [] {
      InsertWellFormed(db, c, docs[0]);
      InsertAllWellFormed(Insert(db, c, docs[0]), c, docs[1..]);
    }
  }

  /** Seeds one collection, but only when it holds nothing yet; answers with the new store and the count. */
  function SeedInto(db: Db, c: Collection, docs: seq<Doc>): (Db, nat) {
    if Docs(db, c) == [] then (InsertAll(db, c, docs), |docs|) else (db, 0)
  }

  /**
   * Between `before` and `after`, collection `c` was seeded with `docs`
   * and `n` was reported: a non-empty collection is left exactly as it was
   * and counts zero; an empty one now holds `docs`, in order, each with an
   * identifier added, and counts them all.
   */
  predicate SeededFrom(before: Db, after: Db, c: Collection, docs: seq<Doc>, n: nat) {
    && (Docs(before, c) != [] ==> Docs(after, c) == Docs(before, c) && n == 0)
    && (Docs(before, c) == [] ==>
          && n == |docs| == |Docs(after, c)|
          && forall i :: 0 <= i < |docs| ==>
               HasOid(Docs(after, c)[i]) && Docs(after, c)[i] == docs[i][InternalId := Docs(after, c)[i][InternalId]])
  }

  lemma SeedIntoMeaning(db: Db, c: Collection, docs: seq<Doc>)
    ensures SeededFrom(db, SeedInto(db, c, docs).0, c, docs, SeedInto(db, c, docs).1)
    ensures forall c' :: c' != c ==> Docs(SeedInto(db, c, docs).0, c') == Docs(db, c')
  {
    if Docs(db, c) == [] {
      InsertAllAppends(db, c, docs);
      forall i | 0 <= i < |docs| {
        StampedAt(docs, db.nextId, i);
      }
      forall c' | c' != c ensures Docs(SeedInto(db, c, docs).0, c') == Docs(db, c') {
        InsertAllFrames(db, c, docs, c');
      }
    }
  }

  /** The sample documents for each seeded collection. */
  datatype SeedData = SeedData(categories: seq<Doc>, vendors: seq<Doc>, products: seq<Doc>, reviews: seq<Doc>)

  /** The samples `seed_data` stores; its categories are the starter categories `list_categories` falls back on. */
  const Samples := SeedData(StarterCategories, SeedVendors, SeedProducts, SeedReviews)

  /** Every sample list has at least one document. */
  predicate NonEmpty(data: SeedData) {
    data.categories != [] && data.vendors != [] && data.products != [] && data.reviews != []
  }

  lemma SamplesNonEmpty()
    ensures NonEmpty(Samples)
  {
    assert StarterCategories[0] in StarterCategories;
    assert SeedVendors[0] in SeedVendors;
    assert SeedProducts[0] in SeedProducts;
    assert SeedReviews[0] in SeedReviews;
  }

  /** Seeds the four collections in turn from `data`. */
  function SeedWith(conn: Connection, data: SeedData): (r: Result<(Db, SeedCounts), ApiError>)
    ensures conn.None? <==> r.Failure?
    ensures r.Failure? ==> r.error == Unavailable
  {
    match conn
    case None => Failure(Unavailable)
    case Some(db0) =>
      var (db1, nc) := SeedInto(db0, CategoryColl, data.categories);
      var (db2, nv) := SeedInto(db1, VendorColl, data.vendors);
      var (db3, np) := SeedInto(db2, ProductColl, data.products);
      var (db4, nr) := SeedInto(db3, ReviewColl, data.reviews);
      Success((db4, SeedCounts(nc, nv, np, nr)))
  }

  /** `seed_data`: refuses an unavailable store, otherwise seeds the four collections with the samples. */
  function Seed(conn: Connection): (r: Result<(Db, SeedCounts), ApiError>)
    ensures conn.None? <==> r.Failure?
    ensures r.Failure? ==> r.error == Unavailable
  {
    SeedWith(conn, Samples)
  }

  /**
   * Each of the four collections is seeded only if it was empty, with the
   * count reported accordingly; the orders are left alone.
   */
  lemma SeedWithMeaning(db0: Db, data: SeedData)
    ensures var (db, n) := SeedWith(Some(db0), data).value;
            && SeededFrom(db0, db, CategoryColl, data.categories, n.categories)
            && SeededFrom(db0, db, VendorColl, data.vendors, n.vendors)
            && SeededFrom(db0, db, ProductColl, data.products, n.products)
            && SeededFrom(db0, db, ReviewColl, data.reviews, n.reviews)
            && db.orders == db0.orders
  {
    var db1 := SeedInto(db0, CategoryColl, data.categories).0;
    var db2 := SeedInto(db1, VendorColl, data.vendors).0;
    var db3 := SeedInto(db2, ProductColl, data.products).0;
    SeedIntoMeaning(db0, CategoryColl, data.categories);
    SeedIntoMeaning(db1, VendorColl, data.vendors);
    SeedIntoMeaning(db2, ProductColl, data.products);
    SeedIntoMeaning(db3, ReviewColl, data.reviews);
    var db4 := SeedInto(db3, ReviewColl, data.reviews).0;
    assert Docs(db4, OrderColl) == Docs(db3, OrderColl) == Docs(db2, OrderColl) == Docs(db1, OrderColl) == Docs(db0, OrderColl);
  }

  /** `seed_data` on an available store: the samples go into the collections that were empty, and only those. */
  lemma SeedMeaning(db0: Db)
    ensures var (db, n) := Seed(Some(db0)).value;
            && SeededFrom(db0, db, CategoryColl, StarterCategories, n.categories)
            && SeededFrom(db0, db, VendorColl, SeedVendors, n.vendors)
            && SeededFrom(db0, db, ProductColl, SeedProducts, n.products)
            && SeededFrom(db0, db, ReviewColl, SeedReviews, n.reviews)
            && db.orders == db0.orders
  {
    assert Seed(Some(db0)) == SeedWith(Some(db0), Samples);
    SeedWithMeaning(db0, Samples);
  }

  /** After a seeding run with non-empty samples, every seeded collection is non-empty. */
  lemma SeedWithFills(db0: Db, data: SeedData)
    requires NonEmpty(data)
    ensures var db := SeedWith(Some(db0), data).value.0;
            db.categories != [] && db.vendors != [] && db.products != [] && db.reviews != []
  {
    SeedWithMeaning(db0, data);
    var db := SeedWith(Some(db0), data).value.0;
    assert Docs(db, CategoryColl) != [] by {
      if Docs(db0, CategoryColl) == [] { assert |data.categories| > 0; }
    }
    assert Docs(db, VendorColl) != [] by {
      if Docs(db0, VendorColl) == [] { assert |data.vendors| > 0; }
    }
    assert Docs(db, ProductColl) != [] by {
      if Docs(db0, ProductColl) == [] { assert |data.products| > 0; }
    }
    assert Docs(db, ReviewColl) != [] by {
      if Docs(db0, ReviewColl) == [] { assert |data.reviews| > 0; }
    }
  }

  /** Seeding a second time with non-empty samples creates nothing and leaves the store as it was. */
  lemma SeedWithTwice(db0: Db, data: SeedData)
    requires NonEmpty(data)
    ensures var db := SeedWith(Some(db0), data).value.0;
            SeedWith(Some(db), data) == Success((db, NothingSeeded))
  {
    SeedWithFills(db0, data);
  }

  /** Seeding a second time creates nothing, reports all-zero counts and leaves the store as it was. */
  lemma SeedTwice(conn: Connection)
    requires conn.Some?
    ensures Seed(Some(Seed(conn).value.0)) == Success((Seed(conn).value.0, NothingSeeded))
  {
    SamplesNonEmpty();
    SeedWithTwice(conn.value, Samples);
  }

  /** Seeding keeps identifiers fresh and distinct. */
  lemma SeedWellFormed(conn: Connection)
    requires conn.Some? && WellFormed(conn.value)
    ensures WellFormed(Seed(conn).value.0)
  {
    var data := Samples;
    var db0 := conn.value;
    var db1 := SeedInto(db0, CategoryColl, data.categories).0;
    var db2 := SeedInto(db1, VendorColl, data.vendors).0;
    var db3 := SeedInto(db2, ProductColl, data.products).0;
    SeedIntoWellFormed(db0, CategoryColl, data.categories);
    SeedIntoWellFormed(db1, VendorColl, data.vendors);
    SeedIntoWellFormed(db2, ProductColl, data.products);
    SeedIntoWellFormed(db3, ReviewColl, data.reviews);
  }

  lemma SeedIntoWellFormed(db: Db, c: Collection, docs: seq<Doc>)
    requires WellFormed(db)
    ensures WellFormed(SeedInto(db, c, docs).0)
  {
    if Docs(db, c) == [] {
      InsertAllWellFormed(db, c, docs);
    }
  }
}
