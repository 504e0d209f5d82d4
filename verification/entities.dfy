/**
 * The five entities as typed records (schemas.py:15-59), their stored
 * document form, and the typed reading of a validated request body.
 */
module Entities {
  import opened Wrappers
  import opened Documents
  import opened Schemas

  datatype Category = Category(name: string, slug: string)

  datatype Membership = Active | Expired

  datatype Vendor = Vendor(
    storeName: string,
    slug: string,
    logoUrl: Option<string>,
    about: Option<string>,
    verified: bool,
    membership: Membership,
    renewalDate: Option<string>,
    region: Option<string>)

  /** A saree listing. Prices are integer paise; `vendorSlug` is not checked against any vendor. */
  datatype Product = Product(
    title: string,
    slug: string,
    description: Option<string>,
    vendorSlug: string,
    priceInPaise: int,
    sareeType: string,
    color: Option<string>,
    material: Option<string>,
    occasion: Option<string>,
    care: Option<string>,
    images: seq<string>,
    stock: int)

  datatype Review = Review(
    productSlug: string,
    rating: int,
    comment: Option<string>,
    authorName: Option<string>)

  datatype OrderStatus = Pending | Paid | Dispatched | Delivered | Refunded

  /** An order. The item dictionaries are kept as given; nothing relates them to the total. */
  datatype Order = Order(
    buyerName: string,
    buyerEmail: string,
    vendorSlug: string,
    items: seq<Doc>,
    totalInPaise: int,
    status: OrderStatus)

  datatype Entity =
    | CategoryEntity(category: Category)
    | VendorEntity(vendor: Vendor)
    | ProductEntity(product: Product)
    | ReviewEntity(review: Review)
    | OrderEntity(order: Order)

  function KindOf(e: Entity): Kind {
    match e
    case CategoryEntity(_) => CategoryKind
    case VendorEntity(_) => VendorKind
    case ProductEntity(_) => ProductKind
    case ReviewEntity(_) => ReviewKind
    case OrderEntity(_) => OrderKind
  }

  /** The numeric bounds the schemas declare: `ge=0` on money and stock, rating in 1..5. */
  predicate Valid(e: Entity) {
    match e
    case CategoryEntity(_) => true
    case VendorEntity(_) => true
    case ProductEntity(p) => p.priceInPaise >= 0 && p.stock >= 0
    case ReviewEntity(r) => 1 <= r.rating <= 5
    case OrderEntity(o) => o.totalInPaise >= 0
  }

  function MembershipName(m: Membership): string {
    match m
    case Active => "active"
    case Expired => "expired"
  }

  /** Reads a membership status name; anything but "expired" reads as active. */
  function MembershipOf(s: string): Membership {
    if s == "expired" then Expired else Active
  }

  function StatusName(s: OrderStatus): string {
    match s
    case Pending => "pending"
    case Paid => "paid"
    case Dispatched => "dispatched"
    case Delivered => "delivered"
    case Refunded => "refunded"
  }

  /** Reads an order status name; an unknown name reads as pending. */
  function StatusOf(s: string): OrderStatus {
    if s == "paid" then Paid
    else if s == "dispatched" then Dispatched
    else if s == "delivered" then Delivered
    else if s == "refunded" then Refunded
    else Pending
  }

  /** The status names are exactly the allowed `Literal` choices, and reading a name back is exact. */
  lemma StatusNamesRoundTrip(st: OrderStatus, s: string)
    ensures StatusName(st) in OrderStatuses
    ensures StatusOf(StatusName(st)) == st
    ensures s in OrderStatuses ==> StatusName(StatusOf(s)) == s
  {
  }

  lemma MembershipNamesRoundTrip(m: Membership, s: string)
    ensures MembershipName(m) in MembershipStatuses
    ensures MembershipOf(MembershipName(m)) == m
    ensures s in MembershipStatuses ==> MembershipName(MembershipOf(s)) == s
  {
  }

  function OptValue(o: Option<string>): Value {
    match o
    case Some(s) => Str(s)
    case None => Null
  }

  function Strings(xs: seq<string>): Value {
    List(seq(|xs|, i requires 0 <= i < |xs| => Str(xs[i])))
  }

  function Dicts(xs: seq<Doc>): Value {
    List(seq(|xs|, i requires 0 <= i < |xs| => Obj(xs[i])))
  }

  /** The document a validated entity is stored as: every declared field, `None` as null. */
  function Dump(e: Entity): Doc {
    match e
    case CategoryEntity(c) => map["name" := Str(c.name), "slug" := Str(c.slug)]
    case VendorEntity(v) => map[
      "store_name" := Str(v.storeName),
      "slug" := Str(v.slug),
      "logo_url" := OptValue(v.logoUrl),
      "about" := OptValue(v.about),
      "verified" := Bool(v.verified),
      "membership_status" := Str(MembershipName(v.membership)),
      "membership_renewal_date" := OptValue(v.renewalDate),
      "region" := OptValue(v.region)]
    case ProductEntity(p) => map[
      "title" := Str(p.title),
      "slug" := Str(p.slug),
      "description" := OptValue(p.description),
      "vendor_slug" := Str(p.vendorSlug),
      "price_in_paise" := Int(p.priceInPaise),
      "saree_type" := Str(p.sareeType),
      "color" := OptValue(p.color),
      "material" := OptValue(p.material),
      "occasion" := OptValue(p.occasion),
      "care" := OptValue(p.care),
      "images" := Strings(p.images),
      "stock" := Int(p.stock)]
    case ReviewEntity(r) => map[
      "product_slug" := Str(r.productSlug),
      "rating" := Int(r.rating),
      "comment" := OptValue(r.comment),
      "author_name" := OptValue(r.authorName)]
    case OrderEntity(o) => map[
      "buyer_name" := Str(o.buyerName),
      "buyer_email" := Str(o.buyerEmail),
      "vendor_slug" := Str(o.vendorSlug),
      "items" := Dicts(o.items),
      "total_in_paise" := Int(o.totalInPaise),
      "status" := Str(StatusName(o.status))]
  }

  // Field readers used on validated documents; a missing or mistyped field reads as a neutral value.

  function StrAt(d: Doc, k: string): string {
    if k in d && d[k].Str? then d[k].s else ""
  }

  function OptStrAt(d: Doc, k: string): Option<string> {
    if k in d && d[k].Str? then Some(d[k].s) else None
  }

  function IntAt(d: Doc, k: string): int {
    if k in d && d[k].Int? then d[k].i else 0
  }

  function BoolAt(d: Doc, k: string): bool {
    k in d && d[k].Bool? && d[k].b
  }

  function ListAt(d: Doc, k: string): seq<Value> {
    if k in d && d[k].List? then d[k].elems else []
  }

  function StringsAt(d: Doc, k: string): seq<string> {
    var vs := ListAt(d, k);
    seq(|vs|, i requires 0 <= i < |vs| => if vs[i].Str? then vs[i].s else "")
  }

  function DictsAt(d: Doc, k: string): seq<Doc> {
    var vs := ListAt(d, k);
    seq(|vs|, i requires 0 <= i < |vs| => if vs[i].Obj? then vs[i].fields else map[])
  }

  /** The typed reading of a validated document of the given kind. */
  function FromDoc(kind: Kind, d: Doc): Entity {
    match kind
    case CategoryKind => CategoryEntity(Category(StrAt(d, "name"), StrAt(d, "slug")))
    case VendorKind => VendorEntity(Vendor(
      StrAt(d, "store_name"), StrAt(d, "slug"), OptStrAt(d, "logo_url"), OptStrAt(d, "about"),
      BoolAt(d, "verified"), MembershipOf(StrAt(d, "membership_status")),
      OptStrAt(d, "membership_renewal_date"), OptStrAt(d, "region")))
    case ProductKind => ProductEntity(Product(
      StrAt(d, "title"), StrAt(d, "slug"), OptStrAt(d, "description"), StrAt(d, "vendor_slug"),
      IntAt(d, "price_in_paise"), StrAt(d, "saree_type"), OptStrAt(d, "color"),
      OptStrAt(d, "material"), OptStrAt(d, "occasion"), OptStrAt(d, "care"),
      StringsAt(d, "images"), IntAt(d, "stock")))
    case ReviewKind => ReviewEntity(Review(
      StrAt(d, "product_slug"), IntAt(d, "rating"), OptStrAt(d, "comment"), OptStrAt(d, "author_name")))
    case OrderKind => OrderEntity(Order(
      StrAt(d, "buyer_name"), StrAt(d, "buyer_email"), StrAt(d, "vendor_slug"), DictsAt(d, "items"),
      IntAt(d, "total_in_paise"), StatusOf(StrAt(d, "status"))))
  }

  /** The declared field names of each kind, spelled out. */
  function FieldNames(kind: Kind): set<string> {
    match kind
    case CategoryKind => {"name", "slug"}
    case VendorKind => {"store_name", "slug", "logo_url", "about", "verified", "membership_status",
                        "membership_renewal_date", "region"}
    case ProductKind => {"title", "slug", "description", "vendor_slug", "price_in_paise", "saree_type",
                         "color", "material", "occasion", "care", "images", "stock"}
    case ReviewKind => {"product_slug", "rating", "comment", "author_name"}
    case OrderKind => {"buyer_name", "buyer_email", "vendor_slug", "items", "total_in_paise", "status"}
  }

  lemma NamesOfSchema(kind: Kind)
    ensures Names(Schema(kind)) == FieldNames(kind)
  {
    match kind
    case CategoryKind => CategoryNames();
    case VendorKind => VendorNames();
    case ProductKind => ProductNames();
    case ReviewKind => ReviewNames();
    case OrderKind => OrderNames();
  }

  lemma CategoryNames()
    ensures Names(Schema(CategoryKind)) == FieldNames(CategoryKind)
  {
    var fs := Schema(CategoryKind);
    forall x | x in Names(fs) ensures x in FieldNames(CategoryKind) {
      var i :| 0 <= i < |fs| && fs[i].name == x;
    }
    assert fs[0].name in Names(fs) && fs[1].name in Names(fs);
  }

  lemma VendorNames()
    ensures Names(Schema(VendorKind)) == FieldNames(VendorKind)
  {
    var fs := Schema(VendorKind);
    forall x | x in Names(fs) ensures x in FieldNames(VendorKind) {
      var i :| 0 <= i < |fs| && fs[i].name == x;
    }
    assert fs[0].name in Names(fs) && fs[1].name in Names(fs) && fs[2].name in Names(fs) && fs[3].name in Names(fs) && fs[4].name in Names(fs) && fs[5].name in Names(fs) && fs[6].name in Names(fs) && fs[7].name in Names(fs);
  }

  lemma ProductNames()
    ensures Names(Schema(ProductKind)) == FieldNames(ProductKind)
  {
    ProductNamesWithin();
    ProductNamesCover();
  }

  lemma ProductNamesWithin()
    ensures Names(ProductSchema) <= FieldNames(ProductKind)
  {
    var fs := ProductSchema;
    forall x | x in Names(fs) ensures x in FieldNames(ProductKind) {
      var i :| 0 <= i < |fs| && fs[i].name == x;
    }
  }

  lemma ProductNamesCover()
    ensures FieldNames(ProductKind) <= Names(ProductSchema)
  {
    var fs := ProductSchema;
    assert fs[0].name in Names(fs) && fs[1].name in Names(fs) && fs[2].name in Names(fs) && fs[3].name in Names(fs) && fs[4].name in Names(fs) && fs[5].name in Names(fs);
    assert fs[6].name in Names(fs) && fs[7].name in Names(fs) && fs[8].name in Names(fs) && fs[9].name in Names(fs) && fs[10].name in Names(fs) && fs[11].name in Names(fs);
  }

  lemma ReviewNames()
    ensures Names(Schema(ReviewKind)) == FieldNames(ReviewKind)
  {
    var fs := Schema(ReviewKind);
    forall x | x in Names(fs) ensures x in FieldNames(ReviewKind) {
      var i :| 0 <= i < |fs| && fs[i].name == x;
    }
    assert fs[0].name in Names(fs) && fs[1].name in Names(fs) && fs[2].name in Names(fs) && fs[3].name in Names(fs);
  }

  lemma OrderNames()
    ensures Names(Schema(OrderKind)) == FieldNames(OrderKind)
  {
    var fs := Schema(OrderKind);
    forall x | x in Names(fs) ensures x in FieldNames(OrderKind) {
      var i :| 0 <= i < |fs| && fs[i].name == x;
    }
    assert fs[0].name in Names(fs) && fs[1].name in Names(fs) && fs[2].name in Names(fs) && fs[3].name in Names(fs) && fs[4].name in Names(fs) && fs[5].name in Names(fs);
  }

  lemma OptValueRoundTrip(d: Doc, k: string)
    requires k in d && Conforms(OptStrType, d[k])
    ensures OptValue(OptStrAt(d, k)) == d[k]
  {
  }

  lemma StringsRoundTrip(d: Doc, k: string)
    requires k in d && Conforms(ListType(StrElement), d[k])
    ensures Strings(StringsAt(d, k)) == d[k]
  {
    assert Strings(StringsAt(d, k)).elems == d[k].elems;
  }

  lemma DictsRoundTrip(d: Doc, k: string)
    requires k in d && Conforms(ListType(DictElement), d[k])
    ensures Dicts(DictsAt(d, k)) == d[k]
  {
    assert Dicts(DictsAt(d, k)).elems == d[k].elems;
  }

  /**
   * Reading a shaped document as an entity loses nothing: the entity is of
   * the same kind, within its bounds, and is stored as exactly that document.
   */
  lemma FromDocDump(kind: Kind, d: Doc)
    requires Shaped(kind, d)
    ensures KindOf(FromDoc(kind, d)) == kind
    ensures Valid(FromDoc(kind, d))
    ensures Dump(FromDoc(kind, d)) == d
  {
    NamesOfSchema(kind);
    match kind
    case CategoryKind => CategoryShapedIsTyped(d); CategoryTypedDump(d);
    case VendorKind => VendorShapedIsTyped(d); VendorTypedDump(d);
    case ProductKind => ProductShapedIsTyped(d); ProductTypedDump(d);
    case ReviewKind => ReviewShapedIsTyped(d); ReviewTypedDump(d);
    case OrderKind => OrderShapedIsTyped(d); OrderTypedDump(d);
  }

  /** A `Category` document field by field: the schema table's content spelled out. */
  predicate CategoryTyped(d: Doc) {
    && d.Keys == FieldNames(CategoryKind)
    && d["name"].Str?
    && d["slug"].Str?
  }

  lemma CategoryShapedIsTyped(d: Doc)
    requires Shaped(CategoryKind, d)
    ensures CategoryTyped(d)
  {
    var fs := Schema(CategoryKind);
    CategoryNames();
    assert Conforms(fs[0].ty, d[fs[0].name]);
    assert Conforms(fs[1].ty, d[fs[1].name]);
  }

  lemma CategoryTypedDump(d: Doc)
    requires CategoryTyped(d)
    ensures Valid(FromDoc(CategoryKind, d)) && Dump(FromDoc(CategoryKind, d)) == d
  {
    var e := Dump(FromDoc(CategoryKind, d));
    assert e.Keys == d.Keys;
  }

  /** A `Vendor` document field by field: the schema table's content spelled out. */
  predicate VendorTyped(d: Doc) {
    && d.Keys == FieldNames(VendorKind)
    && d["store_name"].Str?
    && d["slug"].Str?
    && (d["logo_url"].Null? || d["logo_url"].Str?)
    && (d["about"].Null? || d["about"].Str?)
    && d["verified"].Bool?
    && d["membership_status"].Str? && d["membership_status"].s in MembershipStatuses
    && (d["membership_renewal_date"].Null? || d["membership_renewal_date"].Str?)
    && (d["region"].Null? || d["region"].Str?)
  }

  lemma VendorShapedIsTyped(d: Doc)
    requires Shaped(VendorKind, d)
    ensures VendorTyped(d)
  {
    var fs := Schema(VendorKind);
    VendorNames();
    assert Conforms(fs[0].ty, d[fs[0].name]);
    assert Conforms(fs[1].ty, d[fs[1].name]);
    assert Conforms(fs[2].ty, d[fs[2].name]);
    assert Conforms(fs[3].ty, d[fs[3].name]);
    assert Conforms(fs[4].ty, d[fs[4].name]);
    assert Conforms(fs[5].ty, d[fs[5].name]);
    assert Conforms(fs[6].ty, d[fs[6].name]);
    assert Conforms(fs[7].ty, d[fs[7].name]);
  }

  lemma VendorTypedDump(d: Doc)
    requires VendorTyped(d)
    ensures Valid(FromDoc(VendorKind, d)) && Dump(FromDoc(VendorKind, d)) == d
  {
    MembershipNamesRoundTrip(Active, d["membership_status"].s);
    VendorKeysDisplay(d);
    OptValueRoundTrip(d, "logo_url");
    OptValueRoundTrip(d, "about");
    OptValueRoundTrip(d, "membership_renewal_date");
    OptValueRoundTrip(d, "region");
  }

  /** A document holding exactly the vendor field names is the display of its eight fields. */
  lemma VendorKeysDisplay(d: Doc)
    requires d.Keys == FieldNames(VendorKind)
    ensures d == map[
      "store_name" := d["store_name"], "slug" := d["slug"], "logo_url" := d["logo_url"],
      "about" := d["about"], "verified" := d["verified"], "membership_status" := d["membership_status"],
      "membership_renewal_date" := d["membership_renewal_date"], "region" := d["region"]]
  {
    var m := map[
      "store_name" := d["store_name"], "slug" := d["slug"], "logo_url" := d["logo_url"],
      "about" := d["about"], "verified" := d["verified"], "membership_status" := d["membership_status"],
      "membership_renewal_date" := d["membership_renewal_date"], "region" := d["region"]];
    assert d.Keys == m.Keys;
  }

  /** A `Product` document field by field: the schema table's content spelled out. */
  predicate ProductTyped(d: Doc) {
    && d.Keys == FieldNames(ProductKind)
    && d["title"].Str?
    && d["slug"].Str?
    && (d["description"].Null? || d["description"].Str?)
    && d["vendor_slug"].Str?
    && d["price_in_paise"].Int? && d["price_in_paise"].i >= 0
    && d["saree_type"].Str?
    && (d["color"].Null? || d["color"].Str?)
    && (d["material"].Null? || d["material"].Str?)
    && (d["occasion"].Null? || d["occasion"].Str?)
    && (d["care"].Null? || d["care"].Str?)
    && Conforms(ListType(StrElement), d["images"])
    && d["stock"].Int? && d["stock"].i >= 0
  }

  lemma ProductShapedIsTyped(d: Doc)
    requires Shaped(ProductKind, d)
    ensures ProductTyped(d)
  {
    var fs := Schema(ProductKind);
    ProductNames();
    assert Conforms(fs[0].ty, d[fs[0].name]);
    assert Conforms(fs[1].ty, d[fs[1].name]);
    assert Conforms(fs[2].ty, d[fs[2].name]);
    assert Conforms(fs[3].ty, d[fs[3].name]);
    assert Conforms(fs[4].ty, d[fs[4].name]);
    assert Conforms(fs[5].ty, d[fs[5].name]);
    assert Conforms(fs[6].ty, d[fs[6].name]);
    assert Conforms(fs[7].ty, d[fs[7].name]);
    assert Conforms(fs[8].ty, d[fs[8].name]);
    assert Conforms(fs[9].ty, d[fs[9].name]);
    assert Conforms(fs[10].ty, d[fs[10].name]);
    assert Conforms(fs[11].ty, d[fs[11].name]);
  }

  lemma ProductTypedDump(d: Doc)
    requires ProductTyped(d)
    ensures Valid(FromDoc(ProductKind, d)) && Dump(FromDoc(ProductKind, d)) == d
  {
    var x := FromDoc(ProductKind, d).product;
    assert Str(x.title) == d["title"] && Str(x.slug) == d["slug"] && Str(x.vendorSlug) == d["vendor_slug"];
    assert Int(x.priceInPaise) == d["price_in_paise"] && Str(x.sareeType) == d["saree_type"] && Int(x.stock) == d["stock"];
    OptValueRoundTrip(d, "description");
    OptValueRoundTrip(d, "color");
    OptValueRoundTrip(d, "material");
    OptValueRoundTrip(d, "occasion");
    OptValueRoundTrip(d, "care");
    StringsRoundTrip(d, "images");
    ProductKeysDisplay(d);
  }

  /** A document holding exactly the product field names is the display of its twelve fields. */
  lemma ProductKeysDisplay(d: Doc)
    requires d.Keys == FieldNames(ProductKind)
    ensures d == map[
      "title" := d["title"], "slug" := d["slug"], "description" := d["description"],
      "vendor_slug" := d["vendor_slug"], "price_in_paise" := d["price_in_paise"],
      "saree_type" := d["saree_type"], "color" := d["color"], "material" := d["material"],
      "occasion" := d["occasion"], "care" := d["care"], "images" := d["images"], "stock" := d["stock"]]
  {
    var m := map[
      "title" := d["title"], "slug" := d["slug"], "description" := d["description"],
      "vendor_slug" := d["vendor_slug"], "price_in_paise" := d["price_in_paise"],
      "saree_type" := d["saree_type"], "color" := d["color"], "material" := d["material"],
      "occasion" := d["occasion"], "care" := d["care"], "images" := d["images"], "stock" := d["stock"]];
    assert d.Keys == m.Keys;
  }

  /** A `Review` document field by field: the schema table's content spelled out. */
  predicate ReviewTyped(d: Doc) {
    && d.Keys == FieldNames(ReviewKind)
    && d["product_slug"].Str?
    && d["rating"].Int? && 1 <= d["rating"].i <= 5
    && (d["comment"].Null? || d["comment"].Str?)
    && (d["author_name"].Null? || d["author_name"].Str?)
  }

  lemma ReviewShapedIsTyped(d: Doc)
    requires Shaped(ReviewKind, d)
    ensures ReviewTyped(d)
  {
    var fs := Schema(ReviewKind);
    ReviewNames();
    assert Conforms(fs[0].ty, d[fs[0].name]);
    assert Conforms(fs[1].ty, d[fs[1].name]);
    assert Conforms(fs[2].ty, d[fs[2].name]);
    assert Conforms(fs[3].ty, d[fs[3].name]);
  }

  lemma ReviewTypedDump(d: Doc)
    requires ReviewTyped(d)
    ensures Valid(FromDoc(ReviewKind, d)) && Dump(FromDoc(ReviewKind, d)) == d
  {
    var e := Dump(FromDoc(ReviewKind, d));
    assert e.Keys == d.Keys;
  }

  /** A `Order` document field by field: the schema table's content spelled out. */
  predicate OrderTyped(d: Doc) {
    && d.Keys == FieldNames(OrderKind)
    && d["buyer_name"].Str?
    && d["buyer_email"].Str?
    && d["vendor_slug"].Str?
    && Conforms(ListType(DictElement), d["items"])
    && d["total_in_paise"].Int? && d["total_in_paise"].i >= 0
    && d["status"].Str? && d["status"].s in OrderStatuses
  }

  lemma OrderShapedIsTyped(d: Doc)
    requires Shaped(OrderKind, d)
    ensures OrderTyped(d)
  {
    var fs := Schema(OrderKind);
    OrderNames();
    assert Conforms(fs[0].ty, d[fs[0].name]);
    assert Conforms(fs[1].ty, d[fs[1].name]);
    assert Conforms(fs[2].ty, d[fs[2].name]);
    assert Conforms(fs[3].ty, d[fs[3].name]);
    assert Conforms(fs[4].ty, d[fs[4].name]);
    assert Conforms(fs[5].ty, d[fs[5].name]);
  }

  lemma OrderTypedDump(d: Doc)
    requires OrderTyped(d)
    ensures Valid(FromDoc(OrderKind, d)) && Dump(FromDoc(OrderKind, d)) == d
  {
    DictsRoundTrip(d, "items");
    StatusNamesRoundTrip(Pending, d["status"].s);
    var e := Dump(FromDoc(OrderKind, d));
    assert e.Keys == d.Keys;
  }

  lemma CategoryTypedIsShaped(d: Doc)
    requires CategoryTyped(d)
    ensures Shaped(CategoryKind, d)
  {
    var fs := Schema(CategoryKind);
    CategoryNames();
    forall i | 0 <= i < |fs| ensures Conforms(fs[i].ty, d[fs[i].name]) {
    }
  }

  lemma VendorTypedIsShaped(d: Doc)
    requires VendorTyped(d)
    ensures Shaped(VendorKind, d)
  {
    var fs := Schema(VendorKind);
    VendorNames();
    forall i | 0 <= i < |fs| ensures Conforms(fs[i].ty, d[fs[i].name]) {
    }
  }

  lemma ProductTypedIsShaped(d: Doc)
    requires ProductTyped(d)
    ensures Shaped(ProductKind, d)
  {
    ProductNames();
    ProductTypedListing(d);
    ProductTypedDetails(d);
  }

  lemma ProductTypedListing(d: Doc)
    requires ProductTyped(d)
    ensures forall i :: 0 <= i < 6 ==> Conforms(ProductSchema[i].ty, d[ProductSchema[i].name])
  {
    var fs := ProductSchema;
    forall i | 0 <= i < 6 ensures Conforms(fs[i].ty, d[fs[i].name]) {
    }
  }

  lemma ProductTypedDetails(d: Doc)
    requires ProductTyped(d)
    ensures forall i :: 6 <= i < 12 ==> Conforms(ProductSchema[i].ty, d[ProductSchema[i].name])
  {
    var fs := ProductSchema;
    forall i | 6 <= i < 12 ensures Conforms(fs[i].ty, d[fs[i].name]) {
    }
  }

  lemma ReviewTypedIsShaped(d: Doc)
    requires ReviewTyped(d)
    ensures Shaped(ReviewKind, d)
  {
    var fs := Schema(ReviewKind);
    ReviewNames();
    forall i | 0 <= i < |fs| ensures Conforms(fs[i].ty, d[fs[i].name]) {
    }
  }

  lemma OrderTypedIsShaped(d: Doc)
    requires OrderTyped(d)
    ensures Shaped(OrderKind, d)
  {
    var fs := Schema(OrderKind);
    OrderNames();
    forall i | 0 <= i < |fs| ensures Conforms(fs[i].ty, d[fs[i].name]) {
    }
  }

  lemma StringsRead(xs: seq<string>, d: Doc, k: string)
    requires k in d && d[k] == Strings(xs)
    ensures StringsAt(d, k) == xs
  {
  }

  lemma DictsRead(xs: seq<Doc>, d: Doc, k: string)
    requires k in d && d[k] == Dicts(xs)
    ensures DictsAt(d, k) == xs
  {
  }

  /** An entity within its bounds is stored as a shaped document, and reads back as itself. */
  lemma DumpIsShaped(e: Entity)
    requires Valid(e)
    ensures Shaped(KindOf(e), Dump(e))
    ensures FromDoc(KindOf(e), Dump(e)) == e
  {
    match e
    case CategoryEntity(x) => CategoryDump(x);
    case VendorEntity(x) => VendorDump(x);
    case ProductEntity(x) => ProductDump(x);
    case ReviewEntity(x) => ReviewDump(x);
    case OrderEntity(x) => OrderDump(x);
  }

  lemma CategoryDump(x: Category)
    ensures Shaped(CategoryKind, Dump(CategoryEntity(x)))
    ensures FromDoc(CategoryKind, Dump(CategoryEntity(x))) == CategoryEntity(x)
  {
    CategoryTypedIsShaped(Dump(CategoryEntity(x)));
  }

  lemma VendorDump(x: Vendor)
    ensures Shaped(VendorKind, Dump(VendorEntity(x)))
    ensures FromDoc(VendorKind, Dump(VendorEntity(x))) == VendorEntity(x)
  {
    var d := Dump(VendorEntity(x));
    MembershipNamesRoundTrip(x.membership, "");
    VendorDumpTyped(x);
    VendorTypedIsShaped(d);
    VendorDumpReads(x);
  }

  lemma VendorDumpTyped(x: Vendor)
    ensures VendorTyped(Dump(VendorEntity(x)))
  {
    MembershipNamesRoundTrip(x.membership, "");
    VendorDumpKeys(x);
  }

  lemma VendorDumpKeys(x: Vendor)
    ensures Dump(VendorEntity(x)).Keys == FieldNames(VendorKind)
  {
  }

  /** Every vendor field reads back from its stored form. */
  lemma VendorDumpReads(x: Vendor)
    ensures var d := Dump(VendorEntity(x));
            && StrAt(d, "store_name") == x.storeName && StrAt(d, "slug") == x.slug
            && OptStrAt(d, "logo_url") == x.logoUrl && OptStrAt(d, "about") == x.about
            && BoolAt(d, "verified") == x.verified && StrAt(d, "membership_status") == MembershipName(x.membership)
            && OptStrAt(d, "membership_renewal_date") == x.renewalDate && OptStrAt(d, "region") == x.region
  {
  }

  lemma ProductDump(x: Product)
    requires x.priceInPaise >= 0 && x.stock >= 0
    ensures Shaped(ProductKind, Dump(ProductEntity(x)))
    ensures FromDoc(ProductKind, Dump(ProductEntity(x))) == ProductEntity(x)
  {
    var d := Dump(ProductEntity(x));
    ProductDumpTyped(x);
    ProductTypedIsShaped(d);
    ProductDumpReadsListing(x);
    ProductDumpReadsDetails(x);
    StringsRead(x.images, d, "images");
  }

  lemma ProductDumpTyped(x: Product)
    requires x.priceInPaise >= 0 && x.stock >= 0
    ensures ProductTyped(Dump(ProductEntity(x)))
  {
    var d := Dump(ProductEntity(x));
    ProductDumpKeys(x);
    ProductDumpListingValues(x);
    ProductDumpDetailsValues(x);
    StringsRead(x.images, d, "images");
  }

  /** The stored form holds each listing field under its name. */
  lemma ProductDumpListingValues(x: Product)
    ensures var d := Dump(ProductEntity(x));
            && "title" in d && d["title"] == Str(x.title) && "slug" in d && d["slug"] == Str(x.slug)
            && "description" in d && d["description"] == OptValue(x.description)
            && "vendor_slug" in d && d["vendor_slug"] == Str(x.vendorSlug)
            && "price_in_paise" in d && d["price_in_paise"] == Int(x.priceInPaise)
            && "saree_type" in d && d["saree_type"] == Str(x.sareeType)
  {
    ProductDumpHeadValues(x);
  }

  lemma ProductDumpHeadValues(x: Product)
    ensures var d := Dump(ProductEntity(x));
            && "title" in d && d["title"] == Str(x.title) && "slug" in d && d["slug"] == Str(x.slug)
            && "description" in d && d["description"] == OptValue(x.description)
  {
  }

  /** The stored form holds each remaining field under its name. */
  lemma ProductDumpDetailsValues(x: Product)
    ensures var d := Dump(ProductEntity(x));
            && "color" in d && d["color"] == OptValue(x.color)
            && "material" in d && d["material"] == OptValue(x.material)
            && "occasion" in d && d["occasion"] == OptValue(x.occasion)
            && "care" in d && d["care"] == OptValue(x.care)
            && "images" in d && d["images"] == Strings(x.images)
            && "stock" in d && d["stock"] == Int(x.stock)
  {
  }

  lemma ProductDumpKeys(x: Product)
    ensures Dump(ProductEntity(x)).Keys == FieldNames(ProductKind)
  {
  }

  /** The fields a product is listed and searched by read back from its stored form. */
  lemma ProductDumpReadsListing(x: Product)
    ensures var d := Dump(ProductEntity(x));
            && StrAt(d, "title") == x.title && StrAt(d, "slug") == x.slug
            && OptStrAt(d, "description") == x.description && StrAt(d, "vendor_slug") == x.vendorSlug
            && IntAt(d, "price_in_paise") == x.priceInPaise && StrAt(d, "saree_type") == x.sareeType
  {
    ProductDumpListingValues(x);
  }

  /** The remaining product fields read back from its stored form. */
  lemma ProductDumpReadsDetails(x: Product)
    ensures var d := Dump(ProductEntity(x));
            && OptStrAt(d, "color") == x.color && OptStrAt(d, "material") == x.material
            && OptStrAt(d, "occasion") == x.occasion && OptStrAt(d, "care") == x.care
            && "images" in d && d["images"] == Strings(x.images) && IntAt(d, "stock") == x.stock
  {
    ProductDumpDetailsValues(x);
  }

  lemma ReviewDump(x: Review)
    requires 1 <= x.rating <= 5
    ensures Shaped(ReviewKind, Dump(ReviewEntity(x)))
    ensures FromDoc(ReviewKind, Dump(ReviewEntity(x))) == ReviewEntity(x)
  {
    var d := Dump(ReviewEntity(x));
    ReviewDumpKeys(x);
    assert ReviewTyped(d);
    ReviewTypedIsShaped(d);
    assert StrAt(d, "product_slug") == x.productSlug && IntAt(d, "rating") == x.rating;
    assert OptStrAt(d, "comment") == x.comment && OptStrAt(d, "author_name") == x.authorName;
  }

  lemma ReviewDumpKeys(x: Review)
    ensures Dump(ReviewEntity(x)).Keys == FieldNames(ReviewKind)
  {
  }

  lemma OrderDump(x: Order)
    requires x.totalInPaise >= 0
    ensures Shaped(OrderKind, Dump(OrderEntity(x)))
    ensures FromDoc(OrderKind, Dump(OrderEntity(x))) == OrderEntity(x)
  {
    var d := Dump(OrderEntity(x));
    StatusNamesRoundTrip(x.status, "");
    DictsRead(x.items, d, "items");
    OrderTypedIsShaped(d);
  }

  /**
   * Validates a request body into a typed entity: the body's validated
   * document, read as an entity of that kind.
   */
  function Parse(kind: Kind, p: Doc): (r: Result<Entity, ValidationError>)
    ensures r.Success? <==> Validate(kind, p).Success?
    ensures r.Success? ==> KindOf(r.value) == kind && Valid(r.value)
    ensures r.Success? ==> Dump(r.value) == Validate(kind, p).value
    ensures r.Failure? ==> r.error == Validate(kind, p).error
  {
    match Validate(kind, p)
    case Success(d) =>
      ValidatedIsShaped(kind, p);
      FromDocDump(kind, d);
      Success(FromDoc(kind, d))
    case Failure(e) => Failure(e)
  }

  /** Storing an entity within its bounds and validating the stored document gives the entity back. */
  lemma ParseDump(e: Entity)
    requires Valid(e)
    ensures Parse(KindOf(e), Dump(e)) == Success(e)
  {
    DumpIsShaped(e);
    ValidateShaped(KindOf(e), Dump(e));
  }
}
