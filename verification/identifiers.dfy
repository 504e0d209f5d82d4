/**
 * Identifier normalisation: every document leaving the system has its
 * internal `_id` removed and re-inserted as the text field `id`
 * (main.py:197-199, repeated in every read handler).
 */
module Identifiers {
  import opened Documents

  /** Pops `_id` and stores its text form under `id`; a document without `_id` is returned as is. */
  function Normalise(d: Doc): (r: Doc)
    ensures InternalId !in r
    ensures InternalId !in d ==> r == d
    ensures InternalId in d ==> ExternalId in r && r[ExternalId] == Str(ValueText(d[InternalId]))
    ensures forall k :: k in d && k != InternalId && k != ExternalId ==> k in r && r[k] == d[k]
    ensures forall k :: k in r ==> k in d || k == ExternalId
  {
    if InternalId in d then (d - {InternalId})[ExternalId := Str(ValueText(d[InternalId]))] else d
  }

  /** Normalising twice is normalising once. */
  lemma NormaliseIdempotent(d: Doc)
    ensures Normalise(Normalise(d)) == Normalise(d)
  {
  }

  /** Normalises every document of a result list, keeping the order. */
  function NormaliseAll(docs: seq<Doc>): (r: seq<Doc>)
    ensures |r| == |docs|
    ensures forall i :: 0 <= i < |docs| ==> r[i] == Normalise(docs[i])
  {
    seq(|docs|, i requires 0 <= i < |docs| => Normalise(docs[i]))
  }

  /** The document carries a store-assigned ObjectId. */
  predicate HasOid(d: Doc) {
    InternalId in d && d[InternalId].Oid?
  }

  /** Every document carries an ObjectId, and no two carry the same one. */
  predicate DistinctOids(docs: seq<Doc>) {
    && (forall i :: 0 <= i < |docs| ==> HasOid(docs[i]))
    && (forall i, j :: 0 <= i < j < |docs| ==> docs[i][InternalId] != docs[j][InternalId])
  }

  /**
   * Documents with distinct ObjectIds keep distinct `id` texts after
   * normalisation, so a response never shows two documents under one id.
   */
  lemma NormalisedIdsDistinct(docs: seq<Doc>)
    requires DistinctOids(docs)
    ensures forall i :: 0 <= i < |docs| ==> ExternalId in NormaliseAll(docs)[i]
    ensures forall i, j :: 0 <= i < j < |docs| ==>
              NormaliseAll(docs)[i][ExternalId] != NormaliseAll(docs)[j][ExternalId]
  {
    var r := NormaliseAll(docs);
    forall i, j | 0 <= i < j < |docs|
      ensures r[i][ExternalId] != r[j][ExternalId]
    {
      OidTextInjective(docs[i][InternalId].oid, docs[j][InternalId].oid);
    }
  }
}
