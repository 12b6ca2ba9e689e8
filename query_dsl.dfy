/** The search-engine document vocabulary the case-search builder emits:
    bool roles, the query and filter shapes, and the field paths of the
    case-search index. */
module QueryDsl {
  import opened Json

  // Paths of the nested sub-documents of a case in the case-search index.
  const CASE_PROPERTIES_PATH: string := "case_properties"
  const INDICES_PATH: string := "indices"

  // Field paths the query constructors write into the documents they build.
  const KEY_EXACT_FIELD: string := "case_properties.key.exact"
  const VALUE_FIELD: string := "case_properties.value"
  const VALUE_EXACT_FIELD: string := "case_properties.value.exact"
  const VALUE_NUMERIC_FIELD: string := "case_properties.value.numeric"
  const VALUE_DATE_FIELD: string := "case_properties.value.date"
  const REFERENCED_ID_FIELD: string := "indices.referenced_id"
  const IDENTIFIER_FIELD: string := "indices.identifier"
  /** The field that the case module's `owner` filter tests. */
  const OWNER_ID_FIELD: string := "owner_id"

  /** The three clause lists of a `bool` query. */
  datatype Role = Must | Should | MustNot

  /** The keyword arguments of a range query. */
  datatype BoundKind = Gt | Gte | Lt | Lte

  /** A calendar date, as a date parser returns it. */
  datatype Date = Date(year: int, month: int, day: int)

  /** A converted range bound: a float, or the outcome of date parsing
      (which is `None` when the text is not shaped like a date). */
  datatype Scalar = NumberValue(n: real) | DateValue(date: Option<Date>)

  /** A query or filter document. */
  datatype Q =
    | Nested(path: string, query: Q)                 // nested query: {"nested": {"path", "query"}}
    | NestedFilter(path: string, filter: Q)          // nested filter: {"nested": {"path", "filter"}}
    | Filtered(query: Q, filter: Q)
    | MatchAll
    | Term(field: string, value: string)
    | Terms(field: string, values: seq<string>)      // a term filter given a list of values
    | And(filters: seq<Q>)
    | Tuple(items: seq<Q>)                           // a bare tuple of filters, not wrapped in "and"
    | Not(filter: Q)
    | Match(field: string, text: string, fuzziness: string)
    | Regexp(field: string, regex: string)
    | Range(field: string, bounds: map<BoundKind, Scalar>)
    | Bool(roles: map<Role, Entry>)

  /** What a `bool` document holds under one role: normally a list of
      clauses, but a raw query may have put a single clause there. */
  datatype Entry = ClauseList(clauses: seq<Q>) | NonList(single: Q)

  /** The JSON document for the shapes whose layout the case-search tests
      fix; `None` for match, regexp, range and bool documents, whose layout
      belongs to the generic query module. */
  function ToJson(q: Q): Option<Json>
    decreases q
  {
    match q
    case Nested(path, inner) =>
      var j := ToJson(inner);
      if j.None? then None
      else Some(Obj(map["nested" := Obj(map["path" := Str(path), "query" := j.value])]))
    case NestedFilter(path, f) =>
      var j := ToJson(f);
      if j.None? then None
      else Some(Obj(map["nested" := Obj(map["path" := Str(path), "filter" := j.value])]))
    case Filtered(inner, f) =>
      var jq := ToJson(inner);
      var jf := ToJson(f);
      if jq.None? || jf.None? then None
      else Some(Obj(map["filtered" := Obj(map["query" := jq.value, "filter" := jf.value])]))
    case MatchAll => Some(Obj(map["match_all" := Obj(map[])]))
    case Term(field, v) => Some(Obj(map["term" := Obj(map[field := Str(v)])]))
    case Terms(field, vs) =>
      Some(Obj(map["terms" := Obj(map[field := Arr(Strs(vs))])]))
    case And(fs) =>
      var js := ToJsonAll(fs);
      if js.None? then None else Some(Obj(map["and" := Arr(js.value)]))
    case Tuple(fs) =>
      var js := ToJsonAll(fs);
      if js.None? then None else Some(Arr(js.value))
    case Not(f) =>
      var j := ToJson(f);
      if j.None? then None else Some(Obj(map["not" := j.value]))
    case Match(_, _, _) => None
    case Regexp(_, _) => None
    case Range(_, _) => None
    case Bool(_) => None
  }

  /** A list of strings as JSON strings. */
  function Strs(vs: seq<string>): (r: seq<Json>)
    ensures |r| == |vs|
    ensures forall i | 0 <= i < |vs| :: r[i] == Str(vs[i])
  {
    if vs == [] then [] else [Str(vs[0])] + Strs(vs[1..])
  }

  /** The JSON documents of a list of filters, in order; `None` when any has none. */
  function ToJsonAll(fs: seq<Q>): Option<seq<Json>>
    decreases fs
  {
    if fs == [] then Some([])
    else
      var head := ToJson(fs[0]);
      var tail := ToJsonAll(fs[1..]);
      if head.None? || tail.None? then None else Some([head.value] + tail.value)
  }

  lemma ToJsonAllSingle(a: Q)
    requires ToJson(a).Some?
    ensures ToJsonAll([a]) == Some([ToJson(a).value])
  {
    assert [a][1..] == [];
    assert ToJsonAll([]) == Some([]);
    assert [ToJson(a).value] + [] == [ToJson(a).value];
  }

  lemma ToJsonAllPair(a: Q, b: Q)
    requires ToJson(a).Some? && ToJson(b).Some?
    ensures ToJsonAll([a, b]) == Some([ToJson(a).value, ToJson(b).value])
  {
    assert [a, b][1..] == [b];
    ToJsonAllSingle(b);
    assert [ToJson(a).value] + [ToJson(b).value] == [ToJson(a).value, ToJson(b).value];
  }
}
