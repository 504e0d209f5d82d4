/**
 * Request-body validation (schemas.py:15-59). Each entity is declared as a
 * table of fields, one row per pydantic field: its name, its type with any
 * `ge`/`le` bounds or `Literal` choices, and its default (no default means
 * the field is required). One generic validator interprets the tables.
 */
module Schemas {
  import opened Wrappers
  import opened Documents

  /** The entity kinds; each is stored in the collection named after its class, lower-cased. */
  datatype Kind = CategoryKind | VendorKind | ProductKind | ReviewKind | OrderKind

  /** What list elements must be. */
  datatype ElementType = StrElement | DictElement

  /** The field types the schemas use. URLs (`HttpUrl`) are treated as plain strings. */
  datatype FieldType =
    | StrType                                   // str
    | OptStrType                                // Optional[str], Optional[HttpUrl]
    | BoolType                                  // bool
    | IntType(min: Option<int>, max: Option<int>) // int with Field(ge=..., le=...)
    | LiteralType(allowed: seq<string>)         // Literal["a", "b", ...]
    | ListType(element: ElementType)            // List[HttpUrl], List[dict]

  /** One declared field: no default means the field is required (`Field(...)`). */
  datatype Field = Field(name: string, ty: FieldType, default: Option<Value>)

  /** Why a field was rejected. */
  datatype Constraint =
    | Missing
    | WrongType(expected: string)
    | BelowMin(min: int)
    | AboveMax(max: int)
    | NotAllowed(allowed: seq<string>)
    | BadElement(index: nat, expected: string)

  datatype FieldError = FieldError(field: string, constraint: Constraint)

  /** A rejected payload: one entry per rejected field, in declaration order. */
  datatype ValidationError = ValidationError(errors: seq<FieldError>)

  /** The fields of class `Category` (schemas.py:15-17). */
  const CategorySchema: seq<Field> := [
    Field("name", StrType, None),
    Field("slug", StrType, None)
  ]

  const MembershipStatuses: seq<string> := ["active", "expired"]

  /** The fields of class `Vendor` (schemas.py:20-28). */
  const VendorSchema: seq<Field> := [
    Field("store_name", StrType, None),
    Field("slug", StrType, None),
    Field("logo_url", OptStrType, Some(Null)),
    Field("about", OptStrType, Some(Null)),
    Field("verified", BoolType, Some(Bool(false))),
    Field("membership_status", LiteralType(MembershipStatuses), Some(Str("active"))),
    Field("membership_renewal_date", OptStrType, Some(Null)),
    Field("region", OptStrType, Some(Null))
  ]

  /** The fields of class `Product` (schemas.py:31-43). */
  const ProductSchema: seq<Field> := [
    Field("title", StrType, None),
    Field("slug", StrType, None),
    Field("description", OptStrType, Some(Null)),
    Field("vendor_slug", StrType, None),
    Field("price_in_paise", IntType(Some(0), None), None),
    Field("saree_type", StrType, None),
    Field("color", OptStrType, Some(Null)),
    Field("material", OptStrType, Some(Null)),
    Field("occasion", OptStrType, Some(Null)),
    Field("care", OptStrType, Some(Null)),
    Field("images", ListType(StrElement), Some(List([]))),
    Field("stock", IntType(Some(0), None), Some(Int(10)))
  ]

  /** The fields of class `Review` (schemas.py:46-50). */
  const ReviewSchema: seq<Field> := [
    Field("product_slug", StrType, None),
    Field("rating", IntType(Some(1), Some(5)), None),
    Field("comment", OptStrType, Some(Null)),
    Field("author_name", OptStrType, Some(Null))
  ]

  const OrderStatuses: seq<string> := ["pending", "paid", "dispatched", "delivered", "refunded"]

  /** The fields of class `Order` (schemas.py:53-59). */
  const OrderSchema: seq<Field> := [
    Field("buyer_name", StrType, None),
    Field("buyer_email", StrType, None),
    Field("vendor_slug", StrType, None),
    Field("items", ListType(DictElement), None),
    Field("total_in_paise", IntType(Some(0), None), None),
    Field("status", LiteralType(OrderStatuses), Some(Str("pending")))
  ]

  function Schema(kind: Kind): seq<Field> {
    match kind
    case CategoryKind => CategorySchema
    case VendorKind => VendorSchema
    case ProductKind => ProductSchema
    case ReviewKind => ReviewSchema
    case OrderKind => OrderSchema
  }

  /** The names of the declared fields. */
  function Names(fs: seq<Field>): set<string> {
    set i | 0 <= i < |fs| :: fs[i].name
  }

  predicate DistinctNames(fs: seq<Field>) {
    forall i, j :: 0 <= i < j < |fs| ==> fs[i].name != fs[j].name
  }

  predicate ElementOk(t: ElementType, v: Value) {
    match t
    case StrElement => v.Str?
    case DictElement => v.Obj?
  }

  /** What a value of each field type is: the reference the validator is checked against. */
  predicate Conforms(ty: FieldType, v: Value) {
    match ty
    case StrType => v.Str?
    case OptStrType => v.Null? || v.Str?
    case BoolType => v.Bool?
    case IntType(min, max) =>
      && v.Int?
      && (min.Some? ==> v.i >= min.value)
      && (max.Some? ==> v.i <= max.value)
    case LiteralType(allowed) => v.Str? && v.s in allowed
    case ListType(t) => v.List? && forall i :: 0 <= i < |v.elems| ==> ElementOk(t, v.elems[i])
  }

  /** The position of the first list element of the wrong type, if any. */
  function FirstBadElement(t: ElementType, elems: seq<Value>): (r: Option<nat>)
    ensures r.None? <==> forall i :: 0 <= i < |elems| ==> ElementOk(t, elems[i])
    ensures r.Some? ==> r.value < |elems| && !ElementOk(t, elems[r.value])
    ensures r.Some? ==> forall i :: 0 <= i < r.value ==> ElementOk(t, elems[i])
  {
    if elems == [] then None
    else if !ElementOk(t, elems[0]) then Some(0)
    else match FirstBadElement(t, elems[1..])
      case None => None
      case Some(i) => Some(i + 1)
  }

  function ElementTypeName(t: ElementType): string {
    match t
    case StrElement => "str"
    case DictElement => "dict"
  }

  /**
   * Checks one supplied value against its field type. Integer bounds are
   * checked only once the value is an integer, lower bound first.
   */
  function CheckValue(ty: FieldType, v: Value): (r: Result<Value, Constraint>)
    ensures r.Success? <==> Conforms(ty, v)
    ensures r.Success? ==> r.value == v
  {
    match ty
    case StrType => if v.Str? then Success(v) else Failure(WrongType("str"))
    case OptStrType => if v.Null? || v.Str? then Success(v) else Failure(WrongType("str"))
    case BoolType => if v.Bool? then Success(v) else Failure(WrongType("bool"))
    case IntType(min, max) =>
      if !v.Int? then Failure(WrongType("int"))
      else if min.Some? && v.i < min.value then Failure(BelowMin(min.value))
      else if max.Some? && v.i > max.value then Failure(AboveMax(max.value))
      else Success(v)
    case LiteralType(allowed) =>
      if v.Str? && v.s in allowed then Success(v) else Failure(NotAllowed(allowed))
    case ListType(t) =>
      if !v.List? then Failure(WrongType("list"))
      else match FirstBadElement(t, v.elems)
        case None => Success(v)
        case Some(i) => Failure(BadElement(i, ElementTypeName(t)))
  }

  /** A field is satisfied when its supplied value conforms, or when it is absent and has a default. */
  predicate Accepts(f: Field, p: Doc) {
    if f.name in p then Conforms(f.ty, p[f.name]) else f.default.Some?
  }

  /** The value a field takes: what was supplied, otherwise its default. */
  function Settled(f: Field, p: Doc): Value
    requires Accepts(f, p)
  {
    if f.name in p then p[f.name] else f.default.value
  }

  /** Validates one field of the payload. */
  function CheckField(f: Field, p: Doc): (r: Result<Value, FieldError>)
    ensures r.Success? <==> Accepts(f, p)
    ensures r.Success? ==> r.value == Settled(f, p)
    ensures r.Failure? ==> r.error.field == f.name
    ensures f.name !in p && f.default.None? ==> r == Failure(FieldError(f.name, Missing))
  {
    if f.name in p then
      match CheckValue(f.ty, p[f.name])
      case Success(v) => Success(v)
      case Failure(c) => Failure(FieldError(f.name, c))
    else if f.default.Some? then Success(f.default.value)
    else Failure(FieldError(f.name, Missing))
  }

  /**
   * Validates every field in declaration order. Unknown payload keys are
   * ignored; every rejected field contributes one error, in order.
   */
  function ValidateFields(fs: seq<Field>, p: Doc): (r: Result<Doc, seq<FieldError>>)
    ensures r.Success? <==> forall i :: 0 <= i < |fs| ==> Accepts(fs[i], p)
    ensures r.Failure? ==> |r.error| > 0
  {
    if fs == [] then Success(map[])
    else
      var head := CheckField(fs[0], p);
      var rest := ValidateFields(fs[1..], p);
      assert forall i :: 0 < i < |fs| ==> fs[i] == fs[1..][i - 1];
      match (head, rest)
      case (Success(v), Success(d)) => Success(d[fs[0].name := v])
      case (Success(_), Failure(es)) => Failure(es)
      case (Failure(e), Success(_)) => Failure([e])
      case (Failure(e), Failure(es)) => Failure([e] + es)
  }

  /** An accepted payload yields exactly the declared fields, each supplied or defaulted. */
  lemma {:induction false} ValidateFieldsSettles(fs: seq<Field>, p: Doc)
    requires DistinctNames(fs)
    requires ValidateFields(fs, p).Success?
    ensures ValidateFields(fs, p).value.Keys == Names(fs)
    ensures forall i :: 0 <= i < |fs| ==> ValidateFields(fs, p).value[fs[i].name] == Settled(fs[i], p)
  {
    if fs != [] {
      var tail := fs[1..];
      assert forall i :: 0 < i < |fs| ==> fs[i] == tail[i - 1];
      assert DistinctNames(tail);
      ValidateFieldsSettles(tail, p);
      NamesCons(fs);
      var d := ValidateFields(tail, p).value;
      var v := CheckField(fs[0], p).value;
      assert ValidateFields(fs, p).value == d[fs[0].name := v];
      forall i | 0 < i < |fs| ensures d[fs[0].name := v][fs[i].name] == Settled(fs[i], p) {
        assert fs[i].name != fs[0].name;
        assert d[fs[i].name] == Settled(tail[i - 1], p);
      }
    }
  }

  /** The names of a non-empty field list: its head's name and those of its tail. */
  lemma NamesCons(fs: seq<Field>)
    requires fs != []
    ensures Names(fs) == {fs[0].name} + Names(fs[1..])
  {
    var tail := fs[1..];
    forall n | n in Names(fs) ensures n in {fs[0].name} + Names(tail) {
      var i :| 0 <= i < |fs| && fs[i].name == n;
      if i > 0 { assert tail[i - 1].name == n; }
    }
    forall n | n in Names(tail) ensures n in Names(fs) {
      var i :| 0 <= i < |tail| && tail[i].name == n;
      assert fs[i + 1].name == n;
    }
  }

  /** A rejected payload reports exactly the errors of its rejected fields. */
  lemma {:induction false} ValidateFieldsReports(fs: seq<Field>, p: Doc)
    requires ValidateFields(fs, p).Failure?
    ensures forall e :: e in ValidateFields(fs, p).error <==>
              exists i :: 0 <= i < |fs| && CheckField(fs[i], p) == Failure(e)
  {
    var tail := fs[1..];
    assert forall i :: 0 < i < |fs| ==> fs[i] == tail[i - 1];
    var es := ValidateFields(fs, p).error;
    if ValidateFields(tail, p).Failure? {
      ValidateFieldsReports(tail, p);
    }
    forall e | exists i :: 0 <= i < |fs| && CheckField(fs[i], p) == Failure(e)
      ensures e in es
    {
      var i :| 0 <= i < |fs| && CheckField(fs[i], p) == Failure(e);
      if i > 0 {
        assert CheckField(tail[i - 1], p) == Failure(e);
      }
    }
    forall e | e in es
      ensures exists i :: 0 <= i < |fs| && CheckField(fs[i], p) == Failure(e)
    {
      if CheckField(fs[0], p) != Failure(e) {
        var j :| 0 <= j < |tail| && CheckField(tail[j], p) == Failure(e);
        assert CheckField(fs[j + 1], p) == Failure(e);
      }
    }
  }

  lemma SchemasHaveDistinctNames(kind: Kind)
    ensures DistinctNames(Schema(kind))
  {
    match kind
    case CategoryKind =>
    case VendorKind => VendorNamesDistinct();
    case ProductKind => ProductNamesDistinct();
    case ReviewKind =>
    case OrderKind => OrderNamesDistinct();
  }

  lemma VendorNamesDistinct()
    ensures DistinctNames(VendorSchema)
  {
  }

  lemma ProductNamesDistinct()
    ensures DistinctNames(ProductSchema)
  {
    ProductNamesApart(0, 4);
    ProductNamesApart(4, 8);
    ProductNamesApart(8, 12);
  }

  /** The product fields from `lo` up to `hi` are named unlike every later field. */
  lemma ProductNamesApart(lo: nat, hi: nat)
    requires lo <= hi <= |ProductSchema| && hi - lo <= 4
    ensures forall i, j :: lo <= i < hi && i < j < |ProductSchema| ==> ProductSchema[i].name != ProductSchema[j].name
  {
    var fs := ProductSchema;
    forall i, j | lo <= i < hi && i < j < |fs| ensures fs[i].name != fs[j].name {
      assert |fs[i].name| != |fs[j].name| || fs[i].name[0] != fs[j].name[0];
    }
  }

  lemma OrderNamesDistinct()
    ensures DistinctNames(OrderSchema)
  {
  }

  /**
   * `Model(**payload)`: validates a payload against an entity's schema and
   * returns the validated document holding exactly the declared fields.
   */
  function Validate(kind: Kind, p: Doc): (r: Result<Doc, ValidationError>)
    ensures r.Success? <==> forall i :: 0 <= i < |Schema(kind)| ==> Accepts(Schema(kind)[i], p)
    ensures r.Success? ==> r.value.Keys == Names(Schema(kind))
    ensures r.Success? ==> forall i :: 0 <= i < |Schema(kind)| ==>
              r.value[Schema(kind)[i].name] == Settled(Schema(kind)[i], p)
    ensures r.Failure? ==> |r.error.errors| > 0
    ensures r.Failure? ==> forall e :: e in r.error.errors <==>
              exists i :: 0 <= i < |Schema(kind)| && CheckField(Schema(kind)[i], p) == Failure(e)
  {
    var fs := Schema(kind);
    match ValidateFields(fs, p)
    case Success(d) =>
      SchemasHaveDistinctNames(kind);
      ValidateFieldsSettles(fs, p);
      Success(d)
    case Failure(es) =>
      ValidateFieldsReports(fs, p);
      Failure(ValidationError(es))
  }

  /** A payload lacking a required field is rejected, and the rejection names that field. */
  lemma MissingRequiredFieldRejected(kind: Kind, p: Doc, i: nat)
    requires i < |Schema(kind)|
    requires Schema(kind)[i].name !in p && Schema(kind)[i].default.None?
    ensures Validate(kind, p).Failure?
    ensures FieldError(Schema(kind)[i].name, Missing) in Validate(kind, p).error.errors
  {
    assert CheckField(Schema(kind)[i], p) == Failure(FieldError(Schema(kind)[i].name, Missing));
  }

  /** Every declared default is itself a value of its field's type. */
  lemma DefaultsConform(kind: Kind, i: nat)
    requires i < |Schema(kind)| && Schema(kind)[i].default.Some?
    ensures Conforms(Schema(kind)[i].ty, Schema(kind)[i].default.value)
  {
  }

  /** `d` holds exactly the declared fields of `kind`, each a value of its type. */
  predicate Shaped(kind: Kind, d: Doc) {
    && d.Keys == Names(Schema(kind))
    && forall i :: 0 <= i < |Schema(kind)| ==> Conforms(Schema(kind)[i].ty, d[Schema(kind)[i].name])
  }

  /** What validation returns is shaped. */
  lemma ValidatedIsShaped(kind: Kind, p: Doc)
    requires Validate(kind, p).Success?
    ensures Shaped(kind, Validate(kind, p).value)
  {
    var fs := Schema(kind);
    forall i | 0 <= i < |fs| ensures Conforms(fs[i].ty, Validate(kind, p).value[fs[i].name]) {
      if fs[i].name !in p {
        DefaultsConform(kind, i);
      }
    }
  }

  /** A shaped document is accepted unchanged, so validating twice is validating once. */
  lemma ValidateShaped(kind: Kind, d: Doc)
    requires Shaped(kind, d)
    ensures Validate(kind, d) == Success(d)
  {
    var fs := Schema(kind);
    ShapedAccepted(fs, d);
    var r := Validate(kind, d).value;
    assert r.Keys == d.Keys;
    forall k | k in d ensures r[k] == d[k] {
      var i :| 0 <= i < |fs| && fs[i].name == k;
      assert r[fs[i].name] == Settled(fs[i], d);
    }
    assert r == d;
  }

  /** A document holding exactly the declared fields, each of its type, passes every field check. */
  lemma ShapedAccepted(fs: seq<Field>, d: Doc)
    requires d.Keys == Names(fs)
    requires forall i :: 0 <= i < |fs| ==> Conforms(fs[i].ty, d[fs[i].name])
    ensures forall i :: 0 <= i < |fs| ==> Accepts(fs[i], d)
  {
    forall i | 0 <= i < |fs| ensures Accepts(fs[i], d) {
      assert fs[i].name in Names(fs);
    }
  }

  lemma ValidateIdempotent(kind: Kind, p: Doc)
    requires Validate(kind, p).Success?
    ensures Validate(kind, Validate(kind, p).value) == Validate(kind, p)
  {
    ValidatedIsShaped(kind, p);
    ValidateShaped(kind, Validate(kind, p).value);
  }
}
