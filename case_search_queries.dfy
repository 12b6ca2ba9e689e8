/** The module-level query constructors of the case-search index: exact and
    text matches on a case property, range queries with numeric/date
    detection, reverse-index lookups, and the two built-in filters. */
module CaseSearchQueries {
  import opened Json
  import opened QueryDsl

  /** Exact match on the untokenised value of the property `name`. */
  function ExactCasePropertyTextQuery(name: string, value: string): (r: Q)
    ensures r.Nested? && r.path == CASE_PROPERTIES_PATH && r.query.Filtered? && r.query.query == MatchAll
    ensures r.query.filter == And([CasePropertyExists(name).query.filter, Term(VALUE_EXACT_FIELD, value)])
  {
    Nested(CASE_PROPERTIES_PATH,
      Filtered(MatchAll, And([Term(KEY_EXACT_FIELD, name), Term(VALUE_EXACT_FIELD, value)])))
  }

  /** Analysed text match (with the given fuzziness) on the property `name`. */
  function CasePropertyTextQuery(name: string, value: string, fuzziness: string := "0"): (r: Q)
    ensures r.Nested? && r.query.Filtered? && r == BasePropertyQuery(name, r.query.query)
    ensures r.query.query == Match(VALUE_FIELD, value, fuzziness)
  {
    BasePropertyQuery(name, Match(VALUE_FIELD, value, fuzziness))
  }

  /** Without a fuzziness the text match is exact-spelling (`"0"`). */
  lemma TextQueryDefaultFuzziness(name: string, value: string)
    ensures CasePropertyTextQuery(name, value).query.query.fuzziness == "0"
    ensures CasePropertyTextQuery(name, value) == CasePropertyTextQuery(name, value, "0")
  {
  }

  /** Runs `query` over the case properties whose key is exactly `name`. */
  function BasePropertyQuery(name: string, query: Q): (r: Q)
    ensures r.Nested? && r.path == CASE_PROPERTIES_PATH
    ensures r.query == Filtered(query, Term(KEY_EXACT_FIELD, name))
  {
    Nested(CASE_PROPERTIES_PATH, Filtered(query, Term(KEY_EXACT_FIELD, name)))
  }

  /** Cases that have a property called `name`, whatever its value. */
  function CasePropertyExists(name: string): (r: Q)
    ensures r == BasePropertyQuery(name, MatchAll)
  {
    Nested(CASE_PROPERTIES_PATH, Filtered(MatchAll, Term(KEY_EXACT_FIELD, name)))
  }

  /** The deprecated filter form of a property match, on the analysed value. */
  function CasePropertyFilter(name: string, value: string): (r: Q)
    ensures r.NestedFilter? && r.path == CASE_PROPERTIES_PATH
    ensures r.filter == And([Term(KEY_EXACT_FIELD, name), Term(VALUE_FIELD, value)])
    ensures r.filter.filters[0] == ExactCasePropertyTextQuery(name, value).query.filter.filters[0]
  {
    NestedFilter(CASE_PROPERTIES_PATH, And([Term(KEY_EXACT_FIELD, name), Term(VALUE_FIELD, value)]))
  }

  /** Excludes the cases owned by `ownerId`. */
  function BlacklistOwnerId(ownerId: string): (r: Q)
    ensures r.Not? && r.filter == Term(OWNER_ID_FIELD, ownerId)
  {
    Not(Term(OWNER_ID_FIELD, ownerId))
  }

  // ---------------------------------------------------------------------
  // Range queries

  /** The four optional bounds of a range query, as passed by the caller. */
  datatype RangeArgs = RangeArgs(gt: Option<string> := None, gte: Option<string> := None, lt: Option<string> := None, lte: Option<string> := None)

  function Arg(args: RangeArgs, kind: BoundKind): Option<string>
  {
    match kind
    case Gt => args.gt
    case Gte => args.gte
    case Lt => args.lt
    case Lte => args.lte
  }

  /** The bounds that were given: every `None` is dropped. */
  function Present(args: RangeArgs): (r: map<BoundKind, string>)
    ensures forall kind :: kind in r <==> Arg(args, kind).Some?
    ensures forall kind :: kind in r ==> r[kind] == Arg(args, kind).value
  {
    map kind | kind in {Gt, Gte, Lt, Lte} && Arg(args, kind).Some? :: Arg(args, kind).value
  }

  /** The conversions the range query tries on each bound, in this order:
      the number parser (None where it raises ValueError) and the date
      parser (None where the text is not shaped like a date). */
  datatype Conversions = Conversions(toFloat: string -> Option<real>, parseDate: string -> Option<Date>)

  /** Every given bound converts to a number. */
  predicate AllNumeric(args: RangeArgs, conv: Conversions)
  {
    forall kind | kind in Present(args) :: conv.toFloat(Present(args)[kind]).Some?
  }

  /** Range query on the property `name`: numeric when every given bound
      is a number, a date range otherwise. */
  function CasePropertyRangeQuery(name: string, args: RangeArgs, conv: Conversions): (r: Q)
    ensures r.Nested? && r.query.Filtered? && r.query.query.Range?
    ensures r == BasePropertyQuery(name, r.query.query)
    ensures r.query.query.bounds.Keys == Present(args).Keys
    ensures r.query.query.field == VALUE_NUMERIC_FIELD <==> AllNumeric(args, conv)
    ensures r.query.query.field == VALUE_DATE_FIELD <==> !AllNumeric(args, conv)
    ensures Present(args) == map[] ==> r.query.query.field == VALUE_NUMERIC_FIELD
    ensures forall kind | kind in Present(args) ::
      r.query.query.bounds[kind] ==
        if AllNumeric(args, conv) then NumberValue(conv.toFloat(Present(args)[kind]).value)
        else DateValue(conv.parseDate(Present(args)[kind]))
  {
    var given := Present(args);
    if forall kind | kind in given :: conv.toFloat(given[kind]).Some? then
      BasePropertyQuery(name, Range(VALUE_NUMERIC_FIELD, map kind | kind in given :: NumberValue(conv.toFloat(given[kind]).value)))
    else
      BasePropertyQuery(name, Range(VALUE_DATE_FIELD, map kind | kind in given :: DateValue(conv.parseDate(given[kind]))))
  }

  // ---------------------------------------------------------------------
  // Reverse-index lookups

  /** Case ids as callers pass them: one id, or a list of ids. */
  datatype CaseIds = OneId(id: string) | IdList(ids: seq<string>)

  /** A lone id becomes a one-element list. */
  function CaseIdList(ids: CaseIds): (r: seq<string>)
    ensures ids.OneId? ==> r == [ids.id]
    ensures ids.IdList? ==> r == ids.ids
  {
    match ids
    case OneId(id) => [id]
    case IdList(list) => list
  }

  /** Cases that hold an index referencing one of `ids`, under the relation
      `identifier` when one is given. With no identifier the filter is a
      one-element tuple rather than a single filter. */
  function ReverseIndexCaseQuery(ids: CaseIds, identifier: Option<string> := None): (r: Q)
    ensures r.Nested? && r.path == INDICES_PATH && r.query.Filtered? && r.query.query == MatchAll
    ensures identifier.None? ==> r.query.filter == Tuple([Terms(REFERENCED_ID_FIELD, CaseIdList(ids))])
    ensures identifier.Some? ==>
      r.query.filter == And([Terms(REFERENCED_ID_FIELD, CaseIdList(ids)), Term(IDENTIFIER_FIELD, identifier.value)])
  {
    var referenced := Terms(REFERENCED_ID_FIELD, CaseIdList(ids));
    var f := if identifier.None? then Tuple([referenced])
             else And([referenced, Term(IDENTIFIER_FIELD, identifier.value)]);
    Nested(INDICES_PATH, Filtered(MatchAll, f))
  }
}
