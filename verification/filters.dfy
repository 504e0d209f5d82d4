/**
 * Product search filters (main.py:180-194): optional query parameters become
 * a conjunction of equality clauses and one case-insensitive text clause,
 * interpreted over documents by `Eval`.
 */
module Filters {
  import opened Wrappers
  import opened Documents
  import opened Text

  /** A closed filter language: field equality, substring in any of some fields, conjunction. */
  datatype Filter =
    | Eq(field: string, value: Value)
    | SubstrAnyCI(fields: seq<string>, q: string)
    | And(clauses: seq<Filter>)

  /** Field `k` holds a string containing `q`, ignoring ASCII case; absent and null fields never match. */
  predicate FieldContains(d: Doc, k: string, q: string) {
    k in d && d[k].Str? && ContainsIgnoringCase(d[k].s, q)
  }

  /** Whether document `d` passes filter `f`. */
  predicate Eval(f: Filter, d: Doc)
    decreases f
  {
    match f
    case Eq(k, v) => k in d && d[k] == v
    case SubstrAnyCI(fs, q) => exists i | 0 <= i < |fs| :: FieldContains(d, fs[i], q)
    case And(cs) => forall i | 0 <= i < |cs| :: Eval(cs[i], d)
  }

  /** The match-all filter, used when a listing passes no filter. */
  const MatchAll: Filter := And([])

  /** The fields a filter reads. */
  function Mentions(f: Filter): set<string>
    decreases f, 1
  {
    match f
    case Eq(k, _) => {k}
    case SubstrAnyCI(fs, _) => set i | 0 <= i < |fs| :: fs[i]
    case And(cs) => MentionsAll(cs)
  }

  function MentionsAll(cs: seq<Filter>): set<string>
    decreases cs, 0
  {
    if cs == [] then {} else Mentions(cs[0]) + MentionsAll(cs[1..])
  }

  /** Two documents agree on every field in `ks`. */
  predicate AgreeOn(ks: set<string>, d1: Doc, d2: Doc) {
    forall k :: k in ks ==> (k in d1 <==> k in d2) && (k in d1 ==> d1[k] == d2[k])
  }

  /** A filter's verdict depends only on the fields it mentions. */
  lemma {:induction false} EvalReadsOnlyMentions(f: Filter, d1: Doc, d2: Doc)
    requires AgreeOn(Mentions(f), d1, d2)
    ensures Eval(f, d1) <==> Eval(f, d2)
    decreases f, 1
  {
    match f
    case Eq(k, _) =>
    case SubstrAnyCI(fs, q) =>
      assert forall i :: 0 <= i < |fs| ==> fs[i] in Mentions(f);
    case And(cs) =>
      EvalAllReadsOnlyMentions(cs, d1, d2);
  }

  lemma {:induction false} EvalAllReadsOnlyMentions(cs: seq<Filter>, d1: Doc, d2: Doc)
    requires AgreeOn(MentionsAll(cs), d1, d2)
    ensures (forall i | 0 <= i < |cs| :: Eval(cs[i], d1)) <==> (forall i | 0 <= i < |cs| :: Eval(cs[i], d2))
    decreases cs, 0
  {
    if cs != [] {
      EvalReadsOnlyMentions(cs[0], d1, d2);
      EvalAllReadsOnlyMentions(cs[1..], d1, d2);
      assert forall i :: 0 < i < |cs| ==> cs[i] == cs[1..][i - 1];
    }
  }

  /** A conjunction of two clause lists holds iff each does. */
  lemma AndConcat(a: seq<Filter>, b: seq<Filter>, d: Doc)
    ensures Eval(And(a + b), d) <==> Eval(And(a), d) && Eval(And(b), d)
  {
    if Eval(And(a + b), d) {
      forall i | 0 <= i < |b| ensures Eval(b[i], d) {
        assert (a + b)[|a| + i] == b[i];
      }
      forall i | 0 <= i < |a| ensures Eval(a[i], d) {
        assert (a + b)[i] == a[i];
      }
    }
  }

  /** The optional parameters of a product listing (main.py:171-175). */
  datatype SearchParams = SearchParams(
    q: Option<string>,
    sareeType: Option<string>,
    color: Option<string>,
    material: Option<string>,
    occasion: Option<string>)

  /** Python truthiness of an optional string: present and not empty. */
  predicate Truthy(o: Option<string>) {
    o.Some? && o.value != ""
  }

  /** The fields the free-text parameter searches. */
  const SearchFields: seq<string> := ["title", "description"]

  function EqClause(field: string, o: Option<string>): seq<Filter> {
    if Truthy(o) then [Eq(field, Str(o.value))] else []
  }

  function TextClause(q: Option<string>): seq<Filter> {
    if Truthy(q) then [SubstrAnyCI(SearchFields, q.value)] else []
  }

  /** The filter `list_products` builds: the text clause first, then one equality per parameter. */
  function BuildFilter(p: SearchParams): Filter {
    And(TextClause(p.q)
        + EqClause("saree_type", p.sareeType)
        + EqClause("color", p.color)
        + EqClause("material", p.material)
        + EqClause("occasion", p.occasion))
  }

  /** A truthy optional parameter requires field `k` to equal it exactly. */
  predicate EqHolds(d: Doc, k: string, o: Option<string>) {
    Truthy(o) ==> k in d && d[k] == Str(o.value)
  }

  /** What a product listing's parameters ask of a document, stated directly. */
  predicate MatchesParams(p: SearchParams, d: Doc) {
    && (Truthy(p.q) ==> FieldContains(d, "title", p.q.value) || FieldContains(d, "description", p.q.value))
    && EqHolds(d, "saree_type", p.sareeType)
    && EqHolds(d, "color", p.color)
    && EqHolds(d, "material", p.material)
    && EqHolds(d, "occasion", p.occasion)
  }

  lemma EqClauseMeaning(field: string, o: Option<string>, d: Doc)
    ensures Eval(And(EqClause(field, o)), d) <==> EqHolds(d, field, o)
  {
    if Truthy(o) {
      assert EqClause(field, o)[0] == Eq(field, Str(o.value));
    }
  }

  lemma TextClauseMeaning(q: Option<string>, d: Doc)
    ensures Eval(And(TextClause(q)), d) <==>
              (Truthy(q) ==> FieldContains(d, "title", q.value) || FieldContains(d, "description", q.value))
  {
    if Truthy(q) {
      var c := SubstrAnyCI(SearchFields, q.value);
      assert TextClause(q)[0] == c;
      if FieldContains(d, "title", q.value) {
        assert FieldContains(d, SearchFields[0], q.value);
      }
      if FieldContains(d, "description", q.value) {
        assert FieldContains(d, SearchFields[1], q.value);
      }
      if Eval(c, d) {
        var i :| 0 <= i < |SearchFields| && FieldContains(d, SearchFields[i], q.value);
      }
    }
  }

  /**
   * The built filter passes a document iff every truthy parameter's clause
   * holds: equality on the same-named field, and for `q` a case-insensitive
   * match in the title or the description.
   */
  lemma {:induction false} BuildFilterMeaning(p: SearchParams, d: Doc)
    ensures Eval(BuildFilter(p), d) <==> MatchesParams(p, d)
  {
    var t, s, c, m, o := TextClause(p.q), EqClause("saree_type", p.sareeType), EqClause("color", p.color),
                         EqClause("material", p.material), EqClause("occasion", p.occasion);
    AndConcat(t + s + c + m, o, d);
    AndConcat(t + s + c, m, d);
    AndConcat(t + s, c, d);
    AndConcat(t, s, d);
    TextClauseMeaning(p.q, d);
    EqClauseMeaning("saree_type", p.sareeType, d);
    EqClauseMeaning("color", p.color, d);
    EqClauseMeaning("material", p.material, d);
    EqClauseMeaning("occasion", p.occasion, d);
  }

  /** With no truthy parameter (absent or empty strings) the filter is empty and passes everything. */
  lemma NoParamsMatchAll(p: SearchParams, d: Doc)
    requires !Truthy(p.q) && !Truthy(p.sareeType) && !Truthy(p.color)
    requires !Truthy(p.material) && !Truthy(p.occasion)
    ensures BuildFilter(p) == MatchAll
    ensures Eval(BuildFilter(p), d)
  {
  }

  /** The built filter reads only the searched and the exact-match fields. */
  lemma BuildFilterMentions(p: SearchParams)
    ensures Mentions(BuildFilter(p)) <= {"title", "description", "saree_type", "color", "material", "occasion"}
  {
    var t, s, c, m, o := TextClause(p.q), EqClause("saree_type", p.sareeType), EqClause("color", p.color),
                         EqClause("material", p.material), EqClause("occasion", p.occasion);
    MentionsConcat(t + s + c + m, o);
    MentionsConcat(t + s + c, m);
    MentionsConcat(t + s, c);
    MentionsConcat(t, s);
    TextClauseMentions(p.q);
    EqClauseMentions("saree_type", p.sareeType);
    EqClauseMentions("color", p.color);
    EqClauseMentions("material", p.material);
    EqClauseMentions("occasion", p.occasion);
  }

  lemma TextClauseMentions(q: Option<string>)
    ensures MentionsAll(TextClause(q)) <= {"title", "description"}
  {
    var t := TextClause(q);
    if Truthy(q) {
      assert MentionsAll(t) == Mentions(t[0]);
      assert Mentions(t[0]) == {"title", "description"} by {
        assert SearchFields[0] in Mentions(t[0]) && SearchFields[1] in Mentions(t[0]);
      }
    }
  }

  lemma EqClauseMentions(field: string, o: Option<string>)
    ensures MentionsAll(EqClause(field, o)) <= {field}
  {
  }

  lemma {:induction false} MentionsConcat(a: seq<Filter>, b: seq<Filter>)
    ensures MentionsAll(a + b) == MentionsAll(a) + MentionsAll(b)
    decreases a
  {
    if a == [] {
      assert a + b == b;
    } else {
      assert (a + b)[1..] == a[1..] + b;
      MentionsConcat(a[1..], b);
    }
  }
}
