/** What the query constructors select, stated two independent ways: the
    JSON documents the case-search test suite expects, and a matching
    relation over case documents for the part of the query language whose
    meaning does not depend on the engine's internals (nested lookups, term
    and terms filters on untokenised fields, and, not), with the engine's
    text match taken as a parameter. */
module Matching {
  import opened Json
  import opened QueryDsl
  import opened CaseSearchQueries

  // ---------------------------------------------------------------------
  // Case documents as the case-search index stores them

  datatype PropertyEntry = PropertyEntry(key: string, value: string)
  datatype IndexEntry = IndexEntry(referencedId: string, identifier: string)
  datatype CaseDoc = CaseDoc(ownerId: string, properties: seq<PropertyEntry>, indices: seq<IndexEntry>)

  /** Where a filter is evaluated: the case itself, or one element of one of
      its nested collections. */
  datatype Scope = Top(doc: CaseDoc) | InProperty(property: PropertyEntry) | InIndex(index: IndexEntry)

  /** The untokenised value of `field` in the scope, if the scope has that field. */
  function FieldValue(s: Scope, field: string): Option<string>
  {
    match s
    case Top(doc) => if field == OWNER_ID_FIELD then Some(doc.ownerId) else None
    case InProperty(p) =>
      if field == KEY_EXACT_FIELD then Some(p.key)
      else if field == VALUE_EXACT_FIELD then Some(p.value)
      else None
    case InIndex(x) =>
      if field == REFERENCED_ID_FIELD then Some(x.referencedId)
      else if field == IDENTIFIER_FIELD then Some(x.identifier)
      else None
  }

  /** The untokenised fields `FieldValue` knows. */
  const KnownFields: set<string> :=
    {OWNER_ID_FIELD, KEY_EXACT_FIELD, VALUE_EXACT_FIELD, REFERENCED_ID_FIELD, IDENTIFIER_FIELD}

  /** The search engine's analysed text match: whether a stored property
      value matches the query text under the given fuzziness. Tokenising,
      scoring and fuzziness are the engine's and are taken as a parameter. */
  type TextMatch = (string, string, string) -> bool

  /** The documents this relation gives a meaning to: terms on the known
      untokenised fields, and text matches on the analysed property value. */
  predicate Evaluable(q: Q)
    decreases q
  {
    match q
    case Nested(_, inner) => Evaluable(inner)
    case NestedFilter(_, f) => Evaluable(f)
    case Filtered(inner, f) => Evaluable(inner) && Evaluable(f)
    case MatchAll => true
    case Term(field, _) => field in KnownFields
    case Terms(field, _) => field in KnownFields
    case Match(field, _, _) => field == VALUE_FIELD
    case And(fs) => forall f | f in fs :: Evaluable(f)
    case Not(f) => Evaluable(f)
    case _ => false
  }

  /** Whether the scope satisfies `q`. A nested lookup holds when some
      element of the named collection satisfies `inner`; a text match holds
      on a property entry whose value `tm` matches. */
  function Eval(tm: TextMatch, s: Scope, q: Q): bool
    requires Evaluable(q)
    decreases q
  {
    match q
    case Nested(path, inner) =>
      s.Top? &&
      ((path == CASE_PROPERTIES_PATH && exists p | p in s.doc.properties :: Eval(tm, InProperty(p), inner)) ||
       (path == INDICES_PATH && exists x | x in s.doc.indices :: Eval(tm, InIndex(x), inner)))
    case NestedFilter(path, f) =>
      s.Top? &&
      ((path == CASE_PROPERTIES_PATH && exists p | p in s.doc.properties :: Eval(tm, InProperty(p), f)) ||
       (path == INDICES_PATH && exists x | x in s.doc.indices :: Eval(tm, InIndex(x), f)))
    case Filtered(inner, f) => Eval(tm, s, inner) && Eval(tm, s, f)
    case MatchAll => true
    case Term(field, v) => FieldValue(s, field) == Some(v)
    case Terms(field, vs) => FieldValue(s, field).Some? && FieldValue(s, field).value in vs
    case And(fs) => forall f | f in fs :: Eval(tm, s, f)
    case Not(f) => !Eval(tm, s, f)
    case Match(field, text, fuzziness) => s.InProperty? && tm(s.property.value, text, fuzziness)
  }

  predicate HasProperty(doc: CaseDoc, name: string)
  {
    exists p | p in doc.properties :: p.key == name
  }

  predicate HasPropertyValue(doc: CaseDoc, name: string, value: string)
  {
    exists p | p in doc.properties :: p.key == name && p.value == value
  }

  // ---------------------------------------------------------------------
  // Meaning of each constructor

  lemma ExactTextQueryMatches(tm: TextMatch, doc: CaseDoc, name: string, value: string)
    ensures Evaluable(ExactCasePropertyTextQuery(name, value))
    ensures Eval(tm, Top(doc), ExactCasePropertyTextQuery(name, value)) <==> HasPropertyValue(doc, name, value)
  {
    var keyTerm, valueTerm := Term(KEY_EXACT_FIELD, name), Term(VALUE_EXACT_FIELD, value);
    var both := And([keyTerm, valueTerm]);
    assert Evaluable(both) by {
      assert forall f | f in [keyTerm, valueTerm] :: f == keyTerm || f == valueTerm;
    }
    var inner := Filtered(MatchAll, both);
    assert Evaluable(inner);
    forall p | p in doc.properties
      ensures Eval(tm, InProperty(p), inner) <==> p.key == name && p.value == value
    {
      assert Eval(tm, InProperty(p), both) <==> Eval(tm, InProperty(p), keyTerm) && Eval(tm, InProperty(p), valueTerm) by {
        assert forall f | f in [keyTerm, valueTerm] :: f == keyTerm || f == valueTerm;
      }
    }
  }

  /** Any inner query, restricted to the entries whose key is `name`. */
  lemma BasePropertyQueryMatches(tm: TextMatch, doc: CaseDoc, name: string, query: Q)
    requires Evaluable(query)
    ensures Evaluable(BasePropertyQuery(name, query))
    ensures Eval(tm, Top(doc), BasePropertyQuery(name, query))
        <==> exists p | p in doc.properties :: p.key == name && Eval(tm, InProperty(p), query)
  {
    var inner := Filtered(query, Term(KEY_EXACT_FIELD, name));
    assert Evaluable(inner);
    forall p | p in doc.properties
      ensures Eval(tm, InProperty(p), inner) <==> p.key == name && Eval(tm, InProperty(p), query)
    {
    }
  }

  /** The text query selects a case exactly when one of its entries has the
      key `name` and a value the engine's text match accepts. */
  lemma CasePropertyTextQueryMatches(tm: TextMatch, doc: CaseDoc, name: string, value: string, fuzziness: string)
    ensures Evaluable(CasePropertyTextQuery(name, value, fuzziness))
    ensures Eval(tm, Top(doc), CasePropertyTextQuery(name, value, fuzziness))
        <==> exists p | p in doc.properties :: p.key == name && tm(p.value, value, fuzziness)
  {
    var text := Match(VALUE_FIELD, value, fuzziness);
    BasePropertyQueryMatches(tm, doc, name, text);
    forall p | p in doc.properties
      ensures Eval(tm, InProperty(p), text) <==> tm(p.value, value, fuzziness)
    {
    }
  }

  lemma PropertyExistsMatches(tm: TextMatch, doc: CaseDoc, name: string)
    ensures Evaluable(CasePropertyExists(name))
    ensures Eval(tm, Top(doc), CasePropertyExists(name)) <==> HasProperty(doc, name)
  {
    var inner := Filtered(MatchAll, Term(KEY_EXACT_FIELD, name));
    assert Evaluable(MatchAll) && Evaluable(Term(KEY_EXACT_FIELD, name));
    assert Evaluable(inner);
    forall p | p in doc.properties
      ensures Eval(tm, InProperty(p), inner) <==> p.key == name
    {
    }
  }

  /** A `!=` comparison: the property must exist, and no entry under that
      key may carry the value. */
  lemma NotEqualMatches(tm: TextMatch, doc: CaseDoc, name: string, value: string)
    ensures Evaluable(And([CasePropertyExists(name), Not(ExactCasePropertyTextQuery(name, value))]))
    ensures Eval(tm, Top(doc), And([CasePropertyExists(name), Not(ExactCasePropertyTextQuery(name, value))]))
        <==> HasProperty(doc, name) && !HasPropertyValue(doc, name, value)
  {
    var existence, notEqual := CasePropertyExists(name), Not(ExactCasePropertyTextQuery(name, value));
    ExactTextQueryMatches(tm, doc, name, value);
    PropertyExistsMatches(tm, doc, name);
    assert forall f | f in [existence, notEqual] :: f == existence || f == notEqual;
    assert Evaluable(notEqual);
    assert Evaluable(And([existence, notEqual]));
    assert Eval(tm, Top(doc), notEqual) <==> !HasPropertyValue(doc, name, value);
  }

  lemma ReverseIndexMatches(tm: TextMatch, doc: CaseDoc, ids: CaseIds, identifier: string)
    ensures Evaluable(ReverseIndexCaseQuery(ids, Some(identifier)))
    ensures Eval(tm, Top(doc), ReverseIndexCaseQuery(ids, Some(identifier)))
        <==> exists x | x in doc.indices :: x.referencedId in CaseIdList(ids) && x.identifier == identifier
  {
    var referenced, named := Terms(REFERENCED_ID_FIELD, CaseIdList(ids)), Term(IDENTIFIER_FIELD, identifier);
    var both := And([referenced, named]);
    assert forall f | f in [referenced, named] :: f == referenced || f == named;
    assert Evaluable(both);
    var inner := Filtered(MatchAll, both);
    assert Evaluable(inner);
    forall x | x in doc.indices
      ensures Eval(tm, InIndex(x), inner) <==> x.referencedId in CaseIdList(ids) && x.identifier == identifier
    {
      assert Eval(tm, InIndex(x), both) <==> Eval(tm, InIndex(x), referenced) && Eval(tm, InIndex(x), named);
    }
  }

  lemma BlacklistOwnerMatches(tm: TextMatch, doc: CaseDoc, ownerId: string)
    ensures Evaluable(BlacklistOwnerId(ownerId))
    ensures Eval(tm, Top(doc), BlacklistOwnerId(ownerId)) <==> doc.ownerId != ownerId
  {
  }

  /** A lone id is looked up exactly as the one-element list holding it. */
  lemma SingleIdIsOneElementList(id: string, identifier: Option<string>)
    ensures ReverseIndexCaseQuery(OneId(id), identifier) == ReverseIndexCaseQuery(IdList([id]), identifier)
  {
  }

  /** With no identifier, only the referenced id is constrained, and the
      filter is a one-element array holding that terms filter. */
  lemma ReverseIndexWithoutIdentifier(ids: CaseIds)
    ensures ReverseIndexCaseQuery(ids, None)
         == Nested(INDICES_PATH, Filtered(MatchAll, Tuple([Terms(REFERENCED_ID_FIELD, CaseIdList(ids))])))
    ensures ToJson(ReverseIndexCaseQuery(ids, None)) == Some(
      NestedJson("indices", FilteredJson(MatchAllJson(), Arr([TermsJson("indices.referenced_id", CaseIdList(ids))]))))
  {
    var referenced := Terms(REFERENCED_ID_FIELD, CaseIdList(ids));
    ToJsonAllSingle(referenced);
    var f := Filtered(MatchAll, Tuple([referenced]));
    assert ToJson(f) == Some(FilteredJson(MatchAllJson(), Arr([TermsJson("indices.referenced_id", CaseIdList(ids))])));
  }

  // ---------------------------------------------------------------------
  // The documents the filter compiler's tests expect

  function TermJson(field: string, value: string): Json
  {
    Obj(map["term" := Obj(map[field := Str(value)])])
  }

  function TermsJson(field: string, values: seq<string>): Json
  {
    Obj(map["terms" := Obj(map[field := Arr(Strs(values))])])
  }

  function MatchAllJson(): Json
  {
    Obj(map["match_all" := Obj(map[])])
  }

  function NestedJson(path: string, query: Json): Json
  {
    Obj(map["nested" := Obj(map["path" := Str(path), "query" := query])])
  }

  function FilteredJson(query: Json, filter: Json): Json
  {
    Obj(map["filtered" := Obj(map["query" := query, "filter" := filter])])
  }

  function AndJson(filters: seq<Json>): Json
  {
    Obj(map["and" := Arr(filters)])
  }

  /** The JSON of an exact property match, for every name and value. */
  lemma ExactQueryJson(name: string, value: string)
    ensures ToJson(ExactCasePropertyTextQuery(name, value)) == Some(
      NestedJson("case_properties", FilteredJson(MatchAllJson(),
        AndJson([TermJson("case_properties.key.exact", name), TermJson("case_properties.value.exact", value)]))))
  {
    var both := And([Term(KEY_EXACT_FIELD, name), Term(VALUE_EXACT_FIELD, value)]);
    ToJsonAllPair(both.filters[0], both.filters[1]);
    var j := AndJson([TermJson("case_properties.key.exact", name), TermJson("case_properties.value.exact", value)]);
    assert ToJson(both) == Some(j);
    assert ToJson(Filtered(MatchAll, both)) == Some(FilteredJson(MatchAllJson(), j));
  }

  /** The JSON of a property-existence query, for every name. */
  lemma ExistsQueryJson(name: string)
    ensures ToJson(CasePropertyExists(name)) == Some(
      NestedJson("case_properties", FilteredJson(MatchAllJson(), TermJson("case_properties.key.exact", name))))
  {
    var f := Filtered(MatchAll, Term(KEY_EXACT_FIELD, name));
    assert ToJson(f) == Some(FilteredJson(MatchAllJson(), TermJson("case_properties.key.exact", name)));
  }

  /** The JSON of a reverse-index lookup under a named relation. */
  lemma ReverseIndexJson(ids: CaseIds, identifier: string)
    ensures ToJson(ReverseIndexCaseQuery(ids, Some(identifier))) == Some(
      NestedJson("indices", FilteredJson(MatchAllJson(),
        AndJson([TermsJson("indices.referenced_id", CaseIdList(ids)), TermJson("indices.identifier", identifier)]))))
  {
    var both := And([Terms(REFERENCED_ID_FIELD, CaseIdList(ids)), Term(IDENTIFIER_FIELD, identifier)]);
    ToJsonAllPair(both.filters[0], both.filters[1]);
    var j := AndJson([TermsJson("indices.referenced_id", CaseIdList(ids)), TermJson("indices.identifier", identifier)]);
    assert ToJson(both) == Some(j);
    assert ToJson(Filtered(MatchAll, both)) == Some(FilteredJson(MatchAllJson(), j));
  }

  /** The JSON of the deprecated property filter: a nested filter (not a
      nested query) whose `and` tests the exact key and the analysed value. */
  lemma CasePropertyFilterJson(name: string, value: string)
    ensures ToJson(CasePropertyFilter(name, value)) == Some(
      Obj(map["nested" := Obj(map["path" := Str("case_properties"),
        "filter" := AndJson([TermJson("case_properties.key.exact", name), TermJson("case_properties.value", value)])])]))
  {
    var both := And([Term(KEY_EXACT_FIELD, name), Term(VALUE_FIELD, value)]);
    ToJsonAllPair(both.filters[0], both.filters[1]);
    assert ToJson(both) == Some(AndJson([TermJson("case_properties.key.exact", name), TermJson("case_properties.value", value)]));
  }

  /** The JSON of the owner blacklist filter. */
  lemma BlacklistOwnerJson(ownerId: string)
    ensures ToJson(BlacklistOwnerId(ownerId)) == Some(Obj(map["not" := TermJson("owner_id", ownerId)]))
  {
  }

  /** `name = 'farid'`. */
  lemma SimpleFilterDocument()
    ensures ToJson(ExactCasePropertyTextQuery("name", "farid")) == Some(
      Obj(map["nested" := Obj(map[
        "path" := Str("case_properties"),
        "query" := Obj(map["filtered" := Obj(map[
          "query" := Obj(map["match_all" := Obj(map[])]),
          "filter" := Obj(map["and" := Arr([
            Obj(map["term" := Obj(map["case_properties.key.exact" := Str("name")])]),
            Obj(map["term" := Obj(map["case_properties.value.exact" := Str("farid")])])])])])])])]))
  {
    ExactQueryJson("name", "farid");
  }

  /** `property != ''`. */
  lemma PropertyExistenceDocument()
    ensures ToJson(And([CasePropertyExists("property"), Not(ExactCasePropertyTextQuery("property", ""))])) == Some(
      Obj(map["and" := Arr([
        Obj(map["nested" := Obj(map[
          "path" := Str("case_properties"),
          "query" := Obj(map["filtered" := Obj(map[
            "query" := Obj(map["match_all" := Obj(map[])]),
            "filter" := Obj(map["term" := Obj(map["case_properties.key.exact" := Str("property")])])])])])]),
        Obj(map["not" := Obj(map["nested" := Obj(map[
          "path" := Str("case_properties"),
          "query" := Obj(map["filtered" := Obj(map[
            "query" := Obj(map["match_all" := Obj(map[])]),
            "filter" := Obj(map["and" := Arr([
              Obj(map["term" := Obj(map["case_properties.key.exact" := Str("property")])]),
              Obj(map["term" := Obj(map["case_properties.value.exact" := Str("")])])])])])])])])])])]))
  {
    ExactQueryJson("property", "");
    ExistsQueryJson("property");
    var notEqual := Not(ExactCasePropertyTextQuery("property", ""));
    assert ToJson(notEqual) == Some(Obj(map["not" := ToJson(ExactCasePropertyTextQuery("property", "")).value]));
    ToJsonAllPair(CasePropertyExists("property"), notEqual);
    var parts := [CasePropertyExists("property"), notEqual];
    assert ToJson(And(parts)) == Some(AndJson([ToJson(parts[0]).value, ToJson(parts[1]).value]));
  }

  /** `father/name = 'Mace'`, once the parent's id `mace` is known. */
  lemma ParentLookupDocument()
    ensures ToJson(ReverseIndexCaseQuery(IdList(["mace"]), Some("father"))) == Some(
      Obj(map["nested" := Obj(map[
        "path" := Str("indices"),
        "query" := Obj(map["filtered" := Obj(map[
          "query" := Obj(map["match_all" := Obj(map[])]),
          "filter" := Obj(map["and" := Arr([
            Obj(map["terms" := Obj(map["indices.referenced_id" := Arr([Str("mace")])])]),
            Obj(map["term" := Obj(map["indices.identifier" := Str("father")])])])])])])])]))
  {
    ReverseIndexJson(IdList(["mace"]), "father");
    assert Strs(["mace"]) == [Str("mace")];
  }

  /** `dob >= '2017-02-12'`: a bound that is no number becomes a date range
      under the key filter. */
  lemma DateComparisonQuery(conv: Conversions)
    requires conv.toFloat("2017-02-12").None?
    ensures CasePropertyRangeQuery("dob", RangeArgs(None, Some("2017-02-12"), None, None), conv)
         == Nested("case_properties", Filtered(
              Range("case_properties.value.date", map[Gte := DateValue(conv.parseDate("2017-02-12"))]),
              Term("case_properties.key.exact", "dob")))
  {
    var args := RangeArgs(None, Some("2017-02-12"), None, None);
    OnlyBound(args, Gte);
    assert Gte in Present(args);
  }

  /** `number <= '100.32'`: a bound that is a number becomes a numeric range. */
  lemma NumericComparisonQuery(conv: Conversions)
    requires conv.toFloat("100.32").Some?
    ensures CasePropertyRangeQuery("number", RangeArgs(None, None, None, Some("100.32")), conv)
         == Nested("case_properties", Filtered(
              Range("case_properties.value.numeric", map[Lte := NumberValue(conv.toFloat("100.32").value)]),
              Term("case_properties.key.exact", "number")))
  {
    var args := RangeArgs(None, None, None, Some("100.32"));
    OnlyBound(args, Lte);
  }

  lemma OnlyBound(args: RangeArgs, kind: BoundKind)
    requires Arg(args, kind).Some?
    requires forall other :: other != kind ==> Arg(args, other).None?
    ensures Present(args) == map[kind := Arg(args, kind).value]
  {
    assert Present(args).Keys == {kind};
  }
}
