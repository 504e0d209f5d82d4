# Saree Sanctuary API — a Dafny model

This project models the request-handling core of the Saree Sanctuary
marketplace backend, a FastAPI application over a MongoDB store
(`main.py` and `schemas.py`). It covers four parts.

- **Payload validation.** The five pydantic models `Category`, `Vendor`,
  `Product`, `Review` and `Order` become field tables (`Schemas`). A
  validator checks a payload against a table. It reports a missing required
  field, a value of the wrong type, an integer out of bounds and a string
  outside a `Literal` choice. It fills in defaults and collects the errors of
  every field. Each model also has a typed record (`Entities`). Reading a
  validated document into that record and writing it back gives the same
  document.
- **Product search.** The optional query parameters of `list_products`
  build a filter (`Filters`) with three constructors:
  - `Eq` is an exact match on one field;
  - `SubstrAnyCI` is a case-insensitive substring match on any of several
    fields;
  - `And` is a conjunction.

  An interpreter `Eval` gives the filter its meaning. A reference predicate,
  `MatchesParams`, states what the parameters ask for. The model proves that
  the two agree.
- **The store and the handlers.** Each collection is a sequence of documents
  in insertion order (`Store`). The connection is `Option<Db>`, and `None` is
  the uninitialised `db is None` state. A query is the order-preserving
  selection of a collection, cut to the limit.

  The handlers (`Handlers`, `Seeding`) cover listings, slug lookups and the
  create endpoints. A slug lookup embeds related documents: reviews in a
  product, products in a vendor, at most 50. The create endpoints validate,
  then append under a fresh identifier. Seeding fills only collections that
  are empty.
- **Identifier normalisation.** Every document that leaves the system has
  `_id` removed and its text put under `id` (`Identifiers`). An ObjectId is
  a natural number. Its text is its lower-case hexadecimal numeral, zero-padded to at least 24 digits. The model does not bound identifiers by the 96 bits of a real ObjectId. The model
  proves this text injective by parsing it back (`Text`, `Documents`).

Query parameters and request bodies are validated before a handler body
runs. So an invalid `limit` or body is refused with a validation error even
when the store is unavailable, and the model keeps that order. The seed data
is stored exactly as written in `main.py`, without validation: the sample
vendors lack `membership_status`, for example.

## Model

| member | source | states |
|---|---|---|
| Identifiers.Normalise | main.py:197-199 | The result has no `_id`. When the input had one, `id` holds its string form. Every other field is unchanged. No field appears except `id`. A document without `_id` is returned unchanged. |
| Identifiers.NormaliseAll | main.py:197-199 | Every document of a result list is normalised, with length and order kept. |
| Identifiers.NormalisedIdsDistinct | main.py:197-199 | Documents with distinct ObjectIds get distinct `id` texts after normalisation. |
| Identifiers.NormaliseIdempotent | main.py:197-199 | Normalising an already normalised document changes nothing. |
| Documents.OidTextDecodes | main.py:199 | The text of an ObjectId, zero-padded to at least 24 digits, parses back to the same ObjectId. |
| Documents.OidTextInjective | main.py:199 | Two ObjectIds with the same text are equal. |
| Text.ParseDigitsOfDigits | main.py:199 | Printing a number in base 2 to 16 and parsing the digits back gives the number. |
| Text.ParseDigitsOfPadZeros | main.py:199 | Left-padding a numeral with zeros does not change its value. |
| Schemas.CheckValue | schemas.py:36-48 | A value passes iff it conforms to the field's type: its bounds, its `Literal` choices, and the type of every list element. A passing value is returned unchanged. |
| Schemas.CheckField | schemas.py:21-28 | A field passes iff it is present and conforming, or absent with a default. A missing required field fails with `Missing` under its own name. Errors name the field. |
| Schemas.ValidateFields | schemas.py:15-59 | A field table accepts a payload iff every field accepts it. A rejection carries at least one error. |
| Schemas.ValidateFieldsReports | schemas.py:15-59 | An error is reported iff some field's own check fails with it, so every bad field is reported. |
| Schemas.ValidateFieldsSettles | schemas.py:15-59 | An accepted payload yields exactly the declared fields. Each holds the supplied value or the default, and extra keys are dropped. |
| Schemas.Validate | schemas.py:15-59 | The entry point: success iff every field accepts. The keys are exactly the schema's field names, and each value is the supplied value or its default. The errors are exactly the failing fields' errors. |
| Schemas.MissingRequiredFieldRejected | schemas.py:15-59 | A payload missing a field without a default fails, and the errors include `Missing` for that field. |
| Schemas.DefaultsConform | schemas.py:23-59 | Every declared default satisfies its own field's type. |
| Schemas.SchemasHaveDistinctNames | schemas.py:15-59 | No model declares the same field name twice. |
| Schemas.ValidatedIsShaped | schemas.py:15-59 | A validated document has exactly the schema's fields, each of the right type. |
| Schemas.ValidateShaped | schemas.py:15-59 | A document already of the schema's shape validates to itself. |
| Schemas.ValidateIdempotent | schemas.py:15-59 | Validating a validated document again gives it back unchanged. |
| Entities.Parse | schemas.py:15-59 | A body parses to a typed entity iff it validates. The entity is of the requested kind and within bounds, and its stored form is the validated document. A failure carries the same errors. |
| Entities.ParseDump | schemas.py:15-59 | The stored form of an in-bounds entity parses back to that entity. |
| Entities.FromDocDump | schemas.py:15-59 | A document of a schema's shape reads into an in-bounds entity of that kind, whose stored form is the document again. |
| Entities.DumpIsShaped | schemas.py:15-59 | The stored form of an in-bounds entity has its schema's shape. |
| Entities.StatusNamesRoundTrip | schemas.py:59 | The five order statuses and their names correspond one to one. |
| Entities.MembershipNamesRoundTrip | schemas.py:26 | The two membership states and their names correspond one to one. |
| SchemaRules.RequiredCategoryFields | schemas.py:16-17 | The fields of a category without defaults are exactly `name` and `slug`. |
| SchemaRules.RequiredVendorFields | schemas.py:21-28 | The vendor fields without defaults are exactly `store_name` and `slug`. |
| SchemaRules.RequiredProductFields | schemas.py:32-43 | The product fields without defaults are exactly `title`, `slug`, `vendor_slug`, `price_in_paise` and `saree_type`. |
| SchemaRules.RequiredReviewFields | schemas.py:47-50 | The review fields without defaults are exactly `product_slug` and `rating`. |
| SchemaRules.RequiredOrderFields | schemas.py:54-59 | The order fields without defaults are exactly `buyer_name`, `buyer_email`, `vendor_slug`, `items` and `total_in_paise`. |
| SchemaRules.MissingRequiredNamed | schemas.py:15-59 | A payload lacking any required field fails with `Missing` for that field. |
| SchemaRules.ReviewRatingBounds | schemas.py:48 | A review with an integer rating validates iff 1 <= rating <= 5. Below 1 it reports `BelowMin(1)` and above 5 `AboveMax(5)`. |
| SchemaRules.ReviewRatingEdges | schemas.py:48 | Ratings 0 and 6 are rejected and 1 and 5 are accepted. |
| SchemaRules.AcceptedReviewRatingInRange | schemas.py:48 | Every accepted review supplied an integer rating between 1 and 5. |
| SchemaRules.ProductRequiredOnly | schemas.py:31-43 | A product with only its required fields is accepted iff the price is >= 0. Optional fields become `None`, `images` becomes empty and `stock` becomes 10. A negative price reports `BelowMin(0)`. |
| SchemaRules.ProductNegativeStockRejected | schemas.py:43 | A negative `stock` is rejected with `BelowMin(0)`. |
| SchemaRules.AcceptedProductBounds | schemas.py:36-43 | Every accepted product supplied an integer price >= 0. A supplied stock is an integer >= 0. |
| SchemaRules.VendorRequiredOnly | schemas.py:20-28 | A vendor with only a name and a slug parses with `verified` false, membership active and the optional fields `None`. |
| SchemaRules.VendorMembershipChoices | schemas.py:26 | A supplied `membership_status` is accepted only if it is "active" or "expired". Any other value fails with `NotAllowed`. |
| SchemaRules.OrderRequiredOnly | schemas.py:53-59 | An order with its required fields is accepted iff the total is >= 0, whatever the item dictionaries hold. The status defaults to pending. |
| SchemaRules.OrderStatusChoices | schemas.py:59 | A supplied order status is accepted only if it is one of the five names. Any other value fails with `NotAllowed`. |
| Filters.EqClauseMeaning | main.py:187-194 | An exact-match parameter's clause holds iff the parameter is empty or absent, or the field equals it. |
| Filters.TextClauseMeaning | main.py:181-186 | The `q` clause holds iff `q` is empty or absent, or title or description contains `q` ignoring case. An absent or non-text field never matches. |
| Filters.BuildFilterMeaning | main.py:180-194 | The built filter accepts a document iff the document meets every truthy parameter: AND across parameters, OR across title and description. |
| Filters.NoParamsMatchAll | main.py:180-194 | With no truthy parameters the filter is the empty conjunction and accepts every document. |
| Filters.BuildFilterMentions | main.py:180-194 | The built filter reads only title, description, saree_type, color, material and occasion. |
| Filters.EvalReadsOnlyMentions | main.py:180-195 | A filter gives the same verdict on two documents that agree on the fields it mentions. |
| Filters.AndConcat | main.py:180-194 | A conjunction of two clause lists holds iff both hold. |
| Store.Select | main.py:195 | Selection keeps exactly the documents of the collection that pass the filter. |
| Store.SelectConcat | main.py:195 | Selection keeps the store order. |
| Store.Find | main.py:195 | A query returns at most `limit` documents, each passing the filter and stored. They are a prefix of the full selection, and all of it when fewer than `limit` match. |
| Store.Scan | main.py:195 | A cursor that stops after `limit` hits returns the query's answer. |
| Store.Insert | main.py:230 | A write appends the document under the next identifier and changes no other collection. |
| Store.Create | main.py:228-230 | A write fails iff the store is unavailable. Otherwise it returns the new identifier. |
| Store.InsertWellFormed | main.py:230 | After a write, every collection's identifiers remain distinct and below the counter. |
| Store.FindKeepsDistinct | main.py:195 | A query never returns two documents with the same identifier. |
| Store.SelectKeepsDistinct | main.py:195 | Filtering a collection whose identifiers are distinct gives documents with distinct identifiers. |
| Handlers.CheckLimit | main.py:176 | `limit` is accepted iff it is absent or within 1..100. An absent limit takes the default. A limit below 1 reports `BelowMin(1)` and one above 100 `AboveMax(100)`. |
| Handlers.ListDocs | main.py:235-243 | A listing fails only for a bad limit. With no store it is empty. Otherwise it is exactly the first min(number of matches, `limit`) documents that pass the filter, in store order, normalised; each is traceable to a stored document that passes the filter. |
| Handlers.ListProducts | main.py:169-200 | Success iff the limit is valid. It is empty with no store. Otherwise it is exactly the first min(number of matching products, `limit`) matching products (default 24), in store order, normalised; every result has no `_id` and meets the search parameters. |
| Handlers.ListingMatches | main.py:180-199 | Products drawn through the built filter still meet the search parameters after normalisation. |
| Handlers.NormalisePreservesEval | main.py:195-199 | Normalisation does not change the verdict of a filter that does not look at `_id` or `id`. |
| Handlers.ListVendors | main.py:235-243 | Empty with no store. Otherwise the first min(number of vendors, `limit`) vendors (default 20) in store order, normalised, so all of them when they fit. |
| Handlers.ListReviews | main.py:282-290 | Empty with no store. Otherwise the first min(number of matching reviews, `limit`) reviews whose `product_slug` is the requested slug, in store order, normalised; each carries that slug. |
| Handlers.NormalisedKeepField | main.py:285-289 | Documents drawn through an equality on a field other than `_id` and `id` still carry that field after normalisation. |
| Handlers.ListCategories | main.py:315-329 | With no store, the five starter categories, whatever valid limit is given; a `limit` outside 1..100 is rejected first. Otherwise the first min(number of categories, `limit`) stored categories in store order, normalised, so all of them when they fit. |
| Handlers.SelectHeadIsFirst | main.py:207-210 | The document a `limit=1` slug query returns is the first stored document with that slug. |
| Handlers.NoneSelected | main.py:207-209 | A slug query is empty iff no stored document has that slug. |
| Handlers.Lookup | main.py:203-219 | No store gives 503. No document with the slug gives 404. Otherwise the result is the first such document, normalised, with the related documents embedded. |
| Handlers.GetProduct | main.py:203-219 | 503 without a store. 404 iff no product has the slug. Otherwise the first product with the slug, normalised, with its reviews under `reviews`. |
| Handlers.GetVendor | main.py:246-262 | 503 without a store. 404 iff no vendor has the slug. Otherwise the first vendor with the slug, normalised, with its products under `products`. |
| Handlers.EmbeddedMeaning | main.py:214-218 | The embedded list holds at most 50 normalised documents, each stored and carrying the slug. If at most 50 qualify, it is all of them in store order. If none qualify, it is the empty list. |
| Handlers.CreateEntity | main.py:226-231 | An invalid body gives 422 even without a store. A valid body without a store gives 503. Otherwise the validated document is appended under a fresh identifier, other collections are untouched, and the response is `{"id": <text of the identifier>}`. |
| Handlers.CreateWellFormed | main.py:226-231 | A create keeps identifiers fresh and distinct. |
| Handlers.CreateProduct | main.py:226-231 | Success iff the product body validates and the store is available. The validated product is appended under the next identifier, no other collection changes, and the response is `{"id": <text of the identifier>}`. |
| Handlers.CreateVendor | main.py:269-274 | Success iff the vendor body validates and the store is available. The validated vendor is appended under the next identifier, no other collection changes, and the response is `{"id": <text of the identifier>}`. |
| Handlers.CreateReview | main.py:293-298 | Success iff the review body validates and the store is available. The validated review is appended under the next identifier, no other collection changes, and the response is `{"id": <text of the identifier>}`. |
| Handlers.CreateOrder | main.py:306-311 | Success iff the order body validates and the store is available. The validated order is appended under the next identifier and no other collection changes. The response is the new id plus the status the body gave, or "pending". |
| Handlers.OrderStatusEcho | main.py:311 | The validated order's status name is the body's status, or "pending" when the body has none. |
| Seeding.InsertAllAppends | main.py:81-83 | Creating a list of documents appends them in order under consecutive identifiers. |
| Seeding.StampedAt | main.py:81-83 | The i-th document of a create run is stored as given, plus the identifier `start + i`, where `start` is the counter before the run. |
| Seeding.InsertAllFrames | main.py:81-83 | Creating documents in one collection leaves every other collection unchanged. |
| Seeding.InsertAllWellFormed | main.py:81-83 | Repeated creates keep identifiers fresh and distinct. |
| Seeding.SeedIntoMeaning | main.py:72-83 | A non-empty collection is left exactly as it was and counts 0. An empty one receives the samples in order, each with an identifier added, and counts them. |
| Seeding.Seed | main.py:64-67 | Seeding fails, with 503, iff the store is unavailable. |
| Seeding.SeedWithMeaning | main.py:64-165 | Each of the four collections is seeded only if it was empty, with matching counts. Orders are untouched. |
| Seeding.SeedMeaning | main.py:64-165 | The same for the sample data `seed_data` uses. |
| Seeding.SeedWithFills | main.py:64-165 | After seeding with non-empty samples, all four collections are non-empty. |
| Seeding.SeedTwice | main.py:72-163 | A second seeding run creates nothing, reports all-zero counts and leaves the store unchanged. |
| Seeding.SeedWithTwice | main.py:72-163 | For any non-empty seed data, a second run creates nothing, reports all-zero counts and leaves the store unchanged. |
| Seeding.SeedWellFormed | main.py:64-165 | Seeding keeps identifiers fresh and distinct. |
| Scenarios.CreateThenGetProduct | main.py:203-231 | After a product with a new slug is created, looking up that slug succeeds and reports the `id` the create returned. |
| Scenarios.CreatedEntity | main.py:226-231 | A successful create appends one document to the entity's collection, under a store identifier whose text is the response's `id`. A declared field the body supplied is stored with the supplied value, whatever its type. A key the schema does not declare is not stored, because the models ignore extra keys. |
| Scenarios.GetAppendedProduct | main.py:203-210 | When only the last stored product has a slug, looking up that slug succeeds and reports that product's identifier as `id`. |
| Scenarios.QueryIgnoresCase | main.py:181-186 | `q=banarasi` matches the title "Royal Banarasi Brocade". |
| Scenarios.ExactMatchHonoursCase | main.py:187-188 | `saree_type=banarasi` does not match "Banarasi". |
| Scenarios.ClausesCombine | main.py:180-194 | `q=ZARI` (found in the description), `saree_type=Banarasi` and an empty occasion together accept the sample product. |

## Left out

- The `/`, `/schema` and `/test` endpoints, CORS, `uvicorn` start-up and FastAPI routing are transport glue and are not modelled (main.py:10-60, 332-335).
- database.py is not part of this model. `create_document` is modelled as an append under a fresh identifier from a counter, returning the identifier's text. Timestamps or other fields it may add are not modelled. `get_documents` is modelled as an order-preserving selection cut to the limit.
- Store.Insert: a document that already carries `_id` gets the fresh identifier in its place. No caller passes one.
- Concurrency and last-write-wins behaviour of the store are not modelled. Handlers run one at a time over an immutable store value.
- Pydantic's lax coercions are not modelled: a numeric string or a whole float is not accepted for an integer. Typing is strict.
- An initialised store never fails: driver exceptions, time-outs and duplicate-key errors of a real MongoDB are not modelled. Integers are unbounded, so the 8-byte limit BSON places on `price_in_paise`, `stock` and `total_in_paise` is not modelled either.
- `HttpUrl` parsing and normalisation (`logo_url`, `images`) are not modelled. URLs are opaque strings.
- Filters.TextClauseMeaning: `q` is matched as a literal ASCII case-insensitive substring, not as a MongoDB `$regex`. Regex metacharacters and non-ASCII case folding are not modelled.
- Filters.EqClauseMeaning: equality is plain value equality. MongoDB's rule that a scalar also matches an array field containing it is not modelled.
- Schemas.FirstBadElement: a list with several bad elements reports only the first bad index. Pydantic reports every one.
- Schemas.Validate: the contract states which errors are reported, not their order. The code reports them in field declaration order.
- Documents.OidText: identifiers are unbounded natural numbers, not 96-bit values, so the text has at least 24 digits rather than exactly 24. Injectivity holds for all of them.
- Documents.ValueText: the text of a list or dictionary is the empty string, not Python's `repr`. Only ObjectIds are ever converted.
- Pydantic error messages and the HTTP error detail strings are reduced to error constructors and a resource name.
- Stock is never adjusted by orders, and order totals are not related to items; the source does neither.
