/**
 * Properties that span several handlers: a created product can be looked
 * up by its slug under the identifier the create returned, and the search
 * filter's case rules on a concrete catalogue entry.
 */
module Scenarios {
  import opened Wrappers
  import opened Text
  import opened Documents
  import opened Identifiers
  import opened Schemas
  import opened Filters
  import opened Store
  import opened Handlers

  /** The first match after appending to a collection with no match is the appended document. */
  lemma FirstMatchIsAppended(docs: seq<Doc>, d: Doc, k: string, s: string, found: Doc)
    requires !AnyWith(docs, k, s)
    requires FirstWith(docs + [d], k, s, found)
    ensures found == d
  {
    var all := docs + [d];
    var i :| 0 <= i < |all| && all[i] == found && FieldIs(all[i], k, s) &&
      forall j :: 0 <= j < i ==> !FieldIs(all[j], k, s);
  }

  /** Looking up a slug that only the last-appended product carries finds that product. */
  lemma GetAppendedProduct(before: seq<Doc>, db: Db, stored: Doc, slug: string)
    requires db.products == before + [stored]
    requires !AnyWith(before, "slug", slug) && FieldIs(stored, "slug", slug) && HasOid(stored)
    ensures var got := GetProduct(Some(db), slug);
            && got.Success?
            && ExternalId in got.value
            && got.value[ExternalId] == Str(OidText(stored[InternalId].oid))
  {
    assert db.products[|before|] == stored;
    var got := GetProduct(Some(db), slug);
    FoundAppended(before, stored, slug, got.value, "reviews", Embed(Embedded(db.reviews, "product_slug", slug)));
  }

  /** What a lookup finds, when only the appended document has the slug, carries that document's identifier. */
  lemma FoundAppended(before: seq<Doc>, stored: Doc, slug: string, r: Doc, field: string, v: Value)
    requires !AnyWith(before, "slug", slug) && HasOid(stored) && field != ExternalId
    requires Found(before + [stored], slug, r, field, v)
    ensures ExternalId in r && r[ExternalId] == Str(OidText(stored[InternalId].oid))
  {
    var d :| FirstWith(before + [stored], "slug", slug, d) && r == Normalise(d)[field := v];
    FirstMatchIsAppended(before, stored, "slug", slug, d);
  }

  /**
   * Read-your-writes: once `create_product` succeeds for a new slug,
   * `get_product` finds that product and reports it under the identifier
   * the create returned.
   */
  lemma CreateThenGetProduct(db: Db, payload: Doc, slug: string)
    requires CreateProduct(Some(db), payload).Success?
    requires FieldIs(payload, "slug", slug)
    requires !AnyWith(db.products, "slug", slug)
    ensures var created := CreateProduct(Some(db), payload).value;
            var got := GetProduct(Some(created.db), slug);
            && got.Success?
            && ExternalId in got.value
            && got.value[ExternalId] == created.body[ExternalId]
  {
    CreatedProduct(db, payload, slug);
    var created := CreateProduct(Some(db), payload).value;
    GetAppendedProduct(db.products, created.db, created.db.products[|db.products|], slug);
  }

  /** A created product is appended carrying its slug and the identifier the response reports. */
  lemma CreatedProduct(db: Db, payload: Doc, slug: string)
    requires CreateProduct(Some(db), payload).Success?
    requires FieldIs(payload, "slug", slug)
    ensures var created := CreateProduct(Some(db), payload).value;
            var stored := created.db.products[|db.products|];
            && created.db.products == db.products + [stored]
            && FieldIs(stored, "slug", slug) && HasOid(stored)
            && created.body[ExternalId] == Str(OidText(stored[InternalId].oid))
  {
    assert Schema(ProductKind)[1].name == "slug";
    CreatedEntity(db, ProductKind, payload, "slug");
  }

  /**
   * A created entity is appended to its collection under a store identifier
   * whose text is the response's `id`. A declared field the body supplied is
   * stored with the supplied value, and a key the schema does not declare is
   * dropped, as the models' default of ignoring extra keys does.
   */
  lemma CreatedEntity(db: Db, kind: Kind, payload: Doc, k: string)
    requires CreateEntity(Some(db), kind, payload).Success?
    requires k != InternalId
    ensures var created := CreateEntity(Some(db), kind, payload).value;
            var docs := Docs(created.db, CollectionOf(kind));
            var stored := docs[|Docs(db, CollectionOf(kind))|];
            && docs == Docs(db, CollectionOf(kind)) + [stored]
            && HasOid(stored)
            && created.body[ExternalId] == Str(OidText(stored[InternalId].oid))
            && (k in payload && k in Names(Schema(kind)) ==> k in stored && stored[k] == payload[k])
            && (k !in Names(Schema(kind)) ==> k !in stored)
  {
    var before := Docs(db, CollectionOf(kind));
    var validated := Validate(kind, payload).value;
    var stored := validated[InternalId := Oid(db.nextId)];
    assert Docs(CreateEntity(Some(db), kind, payload).value.db, CollectionOf(kind)) == before + [stored];
    assert (before + [stored])[|before|] == stored;
    if k in Names(Schema(kind)) {
      var i :| 0 <= i < |Schema(kind)| && Schema(kind)[i].name == k;
      assert validated[k] == Settled(Schema(kind)[i], payload);
    }
  }

  /** A catalogue entry as `seed_data` stores it, reduced to the searched fields. */
  const Brocade: Doc := map[
    "title" := Str("Royal Banarasi Brocade"),
    "description" := Str("Rich zari work with traditional motifs."),
    "saree_type" := Str("Banarasi")]

  /** The free-text parameter ignores case and matches inside the title: `q=banarasi` finds the entry. */
  lemma QueryIgnoresCase()
    ensures MatchesParams(SearchParams(Some("banarasi"), None, None, None, None), Brocade)
  {
    TitleMentionsBanarasi();
    assert FieldContains(Brocade, "title", "banarasi");
    BuildFilterMeaning(SearchParams(Some("banarasi"), None, None, None, None), Brocade);
  }

  lemma TitleMentionsBanarasi()
    ensures ContainsIgnoringCase("Royal Banarasi Brocade", "banarasi")
  {
    var raw := "Royal Banarasi Brocade";
    assert raw[6] == 'B' && raw[7] == 'a' && raw[8] == 'n' && raw[9] == 'a';
    assert raw[10] == 'r' && raw[11] == 'a' && raw[12] == 's' && raw[13] == 'i';
    var title := Lower(raw);
    assert title[6] == LowerChar(raw[6]) && title[7] == LowerChar(raw[7]);
    assert title[8] == LowerChar(raw[8]) && title[9] == LowerChar(raw[9]);
    assert title[10] == LowerChar(raw[10]) && title[11] == LowerChar(raw[11]);
    assert title[12] == LowerChar(raw[12]) && title[13] == LowerChar(raw[13]);
    assert title[6..14] == "banarasi";
    assert Lower("banarasi") == "banarasi";
    assert OccursAt(Lower("banarasi"), title, 6);
  }

  /** The exact-match parameters compare case-sensitively: `saree_type=banarasi` misses "Banarasi". */
  lemma ExactMatchHonoursCase()
    ensures !MatchesParams(SearchParams(None, Some("banarasi"), None, None, None), Brocade)
  {
    assert "Banarasi"[0] != "banarasi"[0];
  }

  /**
   * Clauses combine by AND, the text clause searches the description too,
   * and an empty parameter adds no clause.
   */
  lemma ClausesCombine()
    ensures Eval(BuildFilter(SearchParams(Some("ZARI"), Some("Banarasi"), None, None, Some(""))), Brocade)
  {
    DescriptionMentionsZari();
    assert FieldContains(Brocade, "description", "ZARI");
    BuildFilterMeaning(SearchParams(Some("ZARI"), Some("Banarasi"), None, None, Some("")), Brocade);
  }

  lemma DescriptionMentionsZari()
    ensures ContainsIgnoringCase("Rich zari work with traditional motifs.", "ZARI")
  {
    var raw := "Rich zari work with traditional motifs.";
    assert raw[5] == 'z' && raw[6] == 'a' && raw[7] == 'r' && raw[8] == 'i';
    var desc := Lower(raw);
    assert desc[5] == LowerChar(raw[5]) && desc[6] == LowerChar(raw[6]);
    assert desc[7] == LowerChar(raw[7]) && desc[8] == LowerChar(raw[8]);
    assert desc[5..9] == "zari";
    assert Lower("ZARI") == "zari";
    assert OccursAt(Lower("ZARI"), desc, 5);
  }
}
