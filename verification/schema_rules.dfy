/**
 * The individual field rules of schemas.py, stated on whole payloads:
 * bounds, enum choices, defaults and required fields, per entity.
 */
module SchemaRules {
  import opened Wrappers
  import opened Documents
  import opened Schemas
  import opened Entities

  /** The required fields (declared with `...`, no default) of each kind. */
  function RequiredNames(kind: Kind): set<string> {
    set i | 0 <= i < |Schema(kind)| && Schema(kind)[i].default.None? :: Schema(kind)[i].name
  }

  /** The required fields of `Category`. */
  lemma RequiredCategoryFields()
    ensures RequiredNames(CategoryKind) == {"name", "slug"}
  {
    var fs := Schema(CategoryKind);
    assert fs[0].name in RequiredNames(CategoryKind);
    assert fs[1].name in RequiredNames(CategoryKind);
    forall n | n in RequiredNames(CategoryKind) ensures n in {"name", "slug"} {
      var i :| 0 <= i < |fs| && fs[i].default.None? && fs[i].name == n;
    }
  }

  /** The required fields of `Vendor`. */
  lemma RequiredVendorFields()
    ensures RequiredNames(VendorKind) == {"store_name", "slug"}
  {
    var fs := Schema(VendorKind);
    assert fs[0].name in RequiredNames(VendorKind);
    assert fs[1].name in RequiredNames(VendorKind);
    forall n | n in RequiredNames(VendorKind) ensures n in {"store_name", "slug"} {
      var i :| 0 <= i < |fs| && fs[i].default.None? && fs[i].name == n;
    }
  }

  /** The required fields of `Product`. */
  lemma RequiredProductFields()
    ensures RequiredNames(ProductKind) == {"title", "slug", "vendor_slug", "price_in_paise", "saree_type"}
  {
    var fs := Schema(ProductKind);
    assert fs[0].name in RequiredNames(ProductKind);
    assert fs[1].name in RequiredNames(ProductKind);
    assert fs[3].name in RequiredNames(ProductKind);
    assert fs[4].name in RequiredNames(ProductKind);
    assert fs[5].name in RequiredNames(ProductKind);
    forall n | n in RequiredNames(ProductKind) 
      ensures n in {"title", "slug", "vendor_slug", "price_in_paise", "saree_type"}
    {
      var i :| 0 <= i < |fs| && fs[i].default.None? && fs[i].name == n;
    }
  }

  /** The required fields of `Review`. */
  lemma RequiredReviewFields()
    ensures RequiredNames(ReviewKind) == {"product_slug", "rating"}
  {
    var fs := Schema(ReviewKind);
    assert fs[0].name in RequiredNames(ReviewKind);
    assert fs[1].name in RequiredNames(ReviewKind);
    forall n | n in RequiredNames(ReviewKind) ensures n in {"product_slug", "rating"} {
      var i :| 0 <= i < |fs| && fs[i].default.None? && fs[i].name == n;
    }
  }

  /** The required fields of `Order`. */
  lemma RequiredOrderFields()
    ensures RequiredNames(OrderKind) == {"buyer_name", "buyer_email", "vendor_slug", "items", "total_in_paise"}
  {
    var fs := Schema(OrderKind);
    assert fs[0].name in RequiredNames(OrderKind);
    assert fs[1].name in RequiredNames(OrderKind);
    assert fs[2].name in RequiredNames(OrderKind);
    assert fs[3].name in RequiredNames(OrderKind);
    assert fs[4].name in RequiredNames(OrderKind);
    forall n | n in RequiredNames(OrderKind) 
      ensures n in {"buyer_name", "buyer_email", "vendor_slug", "items", "total_in_paise"}
    {
      var i :| 0 <= i < |fs| && fs[i].default.None? && fs[i].name == n;
    }
  }

  /** Leaving out any required field fails validation, and the failure names that field. */
  lemma MissingRequiredNamed(kind: Kind, p: Doc, name: string)
    requires name in RequiredNames(kind) && name !in p
    ensures Validate(kind, p).Failure?
    ensures FieldError(name, Missing) in Validate(kind, p).error.errors
  {
    var i :| 0 <= i < |Schema(kind)| && Schema(kind)[i].default.None? && Schema(kind)[i].name == name;
    MissingRequiredFieldRejected(kind, p, i);
  }

  /** `Review.rating`: an integer rating is accepted iff 1 <= rating <= 5 (schemas.py:48). */
  lemma ReviewRatingBounds(slug: string, rating: int)
    ensures Validate(ReviewKind, map["product_slug" := Str(slug), "rating" := Int(rating)]).Success?
            <==> 1 <= rating <= 5
    ensures rating < 1 ==>
              (FieldError("rating", BelowMin(1)) in
               Validate(ReviewKind, map["product_slug" := Str(slug), "rating" := Int(rating)]).error.errors)
    ensures rating > 5 ==>
              (FieldError("rating", AboveMax(5)) in
               Validate(ReviewKind, map["product_slug" := Str(slug), "rating" := Int(rating)]).error.errors)
  {
    var p := map["product_slug" := Str(slug), "rating" := Int(rating)];
    var fs := Schema(ReviewKind);
    if 1 <= rating <= 5 {
      forall i | 0 <= i < |fs| ensures Accepts(fs[i], p) {
      }
    } else {
      assert !Accepts(fs[1], p);
      assert CheckField(fs[1], p) == Failure(FieldError("rating", if rating < 1 then BelowMin(1) else AboveMax(5)));
    }
  }

  /** The boundary cases: ratings 0 and 6 are rejected, 1 and 5 accepted. */
  lemma ReviewRatingEdges(slug: string)
    ensures Validate(ReviewKind, map["product_slug" := Str(slug), "rating" := Int(0)]).Failure?
    ensures Validate(ReviewKind, map["product_slug" := Str(slug), "rating" := Int(6)]).Failure?
    ensures Validate(ReviewKind, map["product_slug" := Str(slug), "rating" := Int(1)]).Success?
    ensures Validate(ReviewKind, map["product_slug" := Str(slug), "rating" := Int(5)]).Success?
  {
    ReviewRatingBounds(slug, 0);
    ReviewRatingBounds(slug, 6);
    ReviewRatingBounds(slug, 1);
    ReviewRatingBounds(slug, 5);
  }

  /** Every accepted review, whatever else its payload holds, has a rating in 1..5. */
  lemma AcceptedReviewRatingInRange(p: Doc)
    requires Validate(ReviewKind, p).Success?
    ensures "rating" in p && p["rating"].Int? && 1 <= p["rating"].i <= 5
  {
    var fs := Schema(ReviewKind);
    assert Accepts(fs[1], p);
  }

  /** The validated document is the stored form of `e` when every field settles to `e`'s value. */
  lemma ValidatesTo(kind: Kind, p: Doc, e: Entity)
    requires KindOf(e) == kind && Valid(e)
    requires forall i :: 0 <= i < |Schema(kind)| ==>
               Accepts(Schema(kind)[i], p) && Settled(Schema(kind)[i], p) == Dump(e)[Schema(kind)[i].name]
    ensures Validate(kind, p) == Success(Dump(e))
    ensures Parse(kind, p) == Success(e)
  {
    var fs := Schema(kind);
    var d := Validate(kind, p).value;
    DumpIsShaped(e);
    assert d.Keys == Dump(e).Keys;
    forall k | k in d ensures d[k] == Dump(e)[k] {
      var i :| 0 <= i < |fs| && fs[i].name == k;
    }
    assert d == Dump(e);
  }

  /**
   * A product payload holding only the required fields: accepted iff the price
   * is not negative, with stock 10, no images and every optional field None
   * (schemas.py:31-43).
   */
  lemma ProductRequiredOnly(title: string, slug: string, vendor: string, price: int, sareeType: string)
    ensures var p := map["title" := Str(title), "slug" := Str(slug), "vendor_slug" := Str(vendor),
                         "price_in_paise" := Int(price), "saree_type" := Str(sareeType)];
            && (Parse(ProductKind, p).Success? <==> price >= 0)
            && (price >= 0 ==>
                  (Parse(ProductKind, p).value ==
                   ProductEntity(Product(title, slug, None, vendor, price, sareeType, None, None, None, None, [], 10))))
            && (price < 0 ==> FieldError("price_in_paise", BelowMin(0)) in Validate(ProductKind, p).error.errors)
  {
    var p := map["title" := Str(title), "slug" := Str(slug), "vendor_slug" := Str(vendor),
                 "price_in_paise" := Int(price), "saree_type" := Str(sareeType)];
    var fs := Schema(ProductKind);
    if price >= 0 {
      var e := ProductEntity(Product(title, slug, None, vendor, price, sareeType, None, None, None, None, [], 10));
      ProductMinimalListing(p, e);
      ProductMinimalDetails(p, e);
      ValidatesTo(ProductKind, p, e);
    } else {
      assert CheckField(fs[4], p) == Failure(FieldError("price_in_paise", BelowMin(0)));
    }
  }

  /** The listing fields of a minimal product payload settle to the entity's stored values. */
  lemma ProductMinimalListing(p: Doc, e: Entity)
    requires e.ProductEntity? && e.product.priceInPaise >= 0
    requires p == map["title" := Str(e.product.title), "slug" := Str(e.product.slug),
                      "vendor_slug" := Str(e.product.vendorSlug), "price_in_paise" := Int(e.product.priceInPaise),
                      "saree_type" := Str(e.product.sareeType)]
    requires e.product.description.None?
    ensures forall i :: 0 <= i < 6 ==> Accepts(ProductSchema[i], p) && Settled(ProductSchema[i], p) == Dump(e)[ProductSchema[i].name]
  {
    var fs := ProductSchema;
    forall i | 0 <= i < 6 ensures Accepts(fs[i], p) && Settled(fs[i], p) == Dump(e)[fs[i].name] {
    }
  }

  /** The optional fields of a minimal product payload settle to their defaults. */
  lemma ProductMinimalDetails(p: Doc, e: Entity)
    requires e.ProductEntity?
    requires p.Keys == {"title", "slug", "vendor_slug", "price_in_paise", "saree_type"}
    requires e.product == e.product.(color := None, material := None, occasion := None, care := None, images := [], stock := 10)
    ensures forall i :: 6 <= i < 12 ==> Accepts(ProductSchema[i], p) && Settled(ProductSchema[i], p) == Dump(e)[ProductSchema[i].name]
  {
    var fs := ProductSchema;
    forall i | 6 <= i < 12 ensures Accepts(fs[i], p) && Settled(fs[i], p) == Dump(e)[fs[i].name] {
    }
  }

  /** `Product.stock` must not be negative when given (schemas.py:43). */
  lemma ProductNegativeStockRejected(p: Doc)
    requires "stock" in p && p["stock"].Int? && p["stock"].i < 0
    ensures Validate(ProductKind, p).Failure?
    ensures FieldError("stock", BelowMin(0)) in Validate(ProductKind, p).error.errors
  {
    var fs := Schema(ProductKind);
    assert CheckField(fs[11], p) == Failure(FieldError("stock", BelowMin(0)));
  }

  /** Every accepted product has a price and a stock that are not negative. */
  lemma AcceptedProductBounds(p: Doc)
    requires Validate(ProductKind, p).Success?
    ensures "price_in_paise" in p && p["price_in_paise"].Int? && p["price_in_paise"].i >= 0
    ensures "stock" in p ==> p["stock"].Int? && p["stock"].i >= 0
  {
    var fs := Schema(ProductKind);
    assert Accepts(fs[4], p) && Accepts(fs[11], p);
  }

  /** A vendor payload with only a name and a slug is unverified, active, and has no optional fields. */
  lemma VendorRequiredOnly(name: string, slug: string)
    ensures Parse(VendorKind, map["store_name" := Str(name), "slug" := Str(slug)])
            == Success(VendorEntity(Vendor(name, slug, None, None, false, Active, None, None)))
  {
    var p := map["store_name" := Str(name), "slug" := Str(slug)];
    var e := VendorEntity(Vendor(name, slug, None, None, false, Active, None, None));
    var fs := Schema(VendorKind);
    forall i | 0 <= i < |fs| ensures Accepts(fs[i], p) && Settled(fs[i], p) == Dump(e)[fs[i].name] {
    }
    ValidatesTo(VendorKind, p, e);
  }

  /** `Vendor.membership_status` is accepted iff it is "active" or "expired" (schemas.py:26). */
  lemma VendorMembershipChoices(p: Doc)
    requires "membership_status" in p
    ensures Validate(VendorKind, p).Success? ==> p["membership_status"] in {Str("active"), Str("expired")}
    ensures p["membership_status"] !in {Str("active"), Str("expired")} ==>
              (FieldError("membership_status", NotAllowed(MembershipStatuses)) in Validate(VendorKind, p).error.errors)
  {
    var fs := Schema(VendorKind);
    assert fs[5].name == "membership_status";
    if p["membership_status"] !in {Str("active"), Str("expired")} {
      assert CheckField(fs[5], p) == Failure(FieldError("membership_status", NotAllowed(MembershipStatuses)));
    } else {
      assert Accepts(fs[5], p) ==> p["membership_status"] in {Str("active"), Str("expired")};
    }
  }

  /**
   * An order payload: the status defaults to pending, a total below zero is
   * rejected, and the item dictionaries are taken as given, whatever they hold
   * and whatever they add up to (schemas.py:53-59).
   */
  lemma OrderRequiredOnly(buyer: string, email: string, vendor: string, items: seq<Doc>, total: int)
    ensures var p := map["buyer_name" := Str(buyer), "buyer_email" := Str(email), "vendor_slug" := Str(vendor),
                         "items" := Dicts(items), "total_in_paise" := Int(total)];
            && (Parse(OrderKind, p).Success? <==> total >= 0)
            && (total >= 0 ==>
                  (Parse(OrderKind, p).value == OrderEntity(Order(buyer, email, vendor, items, total, Pending))))
            && (total < 0 ==> FieldError("total_in_paise", BelowMin(0)) in Validate(OrderKind, p).error.errors)
  {
    var p := map["buyer_name" := Str(buyer), "buyer_email" := Str(email), "vendor_slug" := Str(vendor),
                 "items" := Dicts(items), "total_in_paise" := Int(total)];
    var fs := Schema(OrderKind);
    if total >= 0 {
      var e := OrderEntity(Order(buyer, email, vendor, items, total, Pending));
      forall i | 0 <= i < |fs| ensures Accepts(fs[i], p) && Settled(fs[i], p) == Dump(e)[fs[i].name] {
      }
      ValidatesTo(OrderKind, p, e);
    } else {
      assert CheckField(fs[4], p) == Failure(FieldError("total_in_paise", BelowMin(0)));
    }
  }

  /** `Order.status`, when given, must be one of the five names, and is kept as given. */
  lemma OrderStatusChoices(p: Doc)
    requires "status" in p
    ensures Validate(OrderKind, p).Success? ==>
              p["status"].Str? && p["status"].s in OrderStatuses
              && StatusName(Parse(OrderKind, p).value.order.status) == p["status"].s
    ensures !(p["status"].Str? && p["status"].s in OrderStatuses) ==>
              (FieldError("status", NotAllowed(OrderStatuses)) in Validate(OrderKind, p).error.errors)
  {
    var fs := Schema(OrderKind);
    assert fs[5].name == "status";
    if Validate(OrderKind, p).Success? {
      assert Accepts(fs[5], p);
      var d := Validate(OrderKind, p).value;
      assert d[fs[5].name] == p["status"];
      assert Dump(Parse(OrderKind, p).value)["status"] == p["status"];
    } else if !(p["status"].Str? && p["status"].s in OrderStatuses) {
      assert CheckField(fs[5], p) == Failure(FieldError("status", NotAllowed(OrderStatuses)));
    }
  }
}
