/**
 * The documents the store holds and the handlers return: maps from field
 * names to simple values, with nested lists and objects.
 */
module Documents {
  import opened Text

  /**
   * An identifier the store assigns when a document is created. A real
   * ObjectId packs a timestamp, a random part and a counter into 96 bits;
   * here it is an abstract number that the store keeps fresh.
   */
  type ObjectId = nat

  /** The values a field can hold once a request body or stored record is decoded. */
  datatype Value =
    | Null
    | Bool(b: bool)
    | Int(i: int)
    | Str(s: string)
    | Oid(oid: ObjectId)
    | List(elems: seq<Value>)
    | Obj(fields: map<string, Value>)

  /** A document: field name to value. */
  type Doc = map<string, Value>

  /** The field under which the store keeps a document's identifier. */
  const InternalId: string := "_id"

  /** The field under which responses carry the identifier as text. */
  const ExternalId: string := "id"

  /** The text form of an ObjectId: lower-case hexadecimal, zero-padded to at least 24 digits. */
  function OidText(n: ObjectId): (r: string)
    ensures |r| >= 24
  {
    PadZeros(Digits(n, 16), 24)
  }

  /** Reading the text of an ObjectId back as a hexadecimal number gives the ObjectId. */
  lemma OidTextDecodes(n: ObjectId)
    ensures ParseDigits(OidText(n), 16) == n
  {
    ParseDigitsOfPadZeros(Digits(n, 16), 24, 16);
    ParseDigitsOfDigits(n, 16);
  }

  /** Distinct ObjectIds have distinct text forms. */
  lemma OidTextInjective(a: ObjectId, b: ObjectId)
    ensures OidText(a) == OidText(b) ==> a == b
  {
    OidTextDecodes(a);
    OidTextDecodes(b);
  }

  /**
   * Python's `str` of a scalar value. Lists and objects never serve as
   * identifiers in this system; their printed form is not modelled and
   * reads as the empty text.
   */
  function ValueText(v: Value): string {
    match v
    case Null => "None"
    case Bool(b) => if b then "True" else "False"
    case Int(i) => IntText(i)
    case Str(s) => s
    case Oid(n) => OidText(n)
    case List(_) => ""
    case Obj(_) => ""
  }

  /** Embeds a sequence of documents as a list-of-objects field value. */
  function Embed(docs: seq<Doc>): (v: Value)
    ensures v.List? && |v.elems| == |docs|
    ensures forall i :: 0 <= i < |docs| ==> v.elems[i] == Obj(docs[i])
  {
    List(seq(|docs|, i requires 0 <= i < |docs| => Obj(docs[i])))
  }
}
