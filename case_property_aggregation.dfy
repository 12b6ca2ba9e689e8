/** The case-property aggregation: a terms aggregation over the values of
    one case property, reached through the nested `case_properties`
    sub-documents, and the lookup of its buckets in a response. */
module CasePropertyAggregations {
  import opened Json
  import QueryDsl

  /** The field the property-name filter tests (the analysed key, not `.exact`). */
  const AGG_KEY_FIELD: string := "case_properties.key"
  /** The name of the inner terms aggregation. */
  const VALUES: string := "values"

  /** A named aggregation over the property `field`, with its request body. */
  datatype CasePropertyAggregation = CasePropertyAggregation(name: string, field: string, body: Json)

  /** The property a body aggregates, read back from the body. The body
      must be exactly the request shape at every level: `nested` on the path
      `case_properties` and `aggs` with one entry, named after the property,
      holding exactly a term filter on `case_properties.key` equal to that
      name and an inner `values` terms aggregation on `case_properties.value`. */
  ghost function AggregatedField(body: Json): Option<string>
  {
    if !body.Obj? || body.fields.Keys != {"nested", "aggs"} then None
    else
      var nested, aggs := body.fields["nested"], body.fields["aggs"];
      if nested != Obj(map["path" := Str(QueryDsl.CASE_PROPERTIES_PATH)]) then None
      else if !aggs.Obj? || |aggs.fields| != 1 then None
      else
        var field :| field in aggs.fields;
        var sub := aggs.fields[field];
        if !sub.Obj? || sub.fields.Keys != {"filter", "aggs"} then None
        else if sub.fields["filter"] != Obj(map["term" := Obj(map[AGG_KEY_FIELD := Str(field)])]) then None
        else if sub.fields["aggs"] != Obj(map[VALUES := Obj(map["terms" := Obj(map["field" := Str(QueryDsl.VALUE_FIELD)])])])
        then None
        else Some(field)
  }

  /** Builds the aggregation named `name` over the property `field`. The
      `size` argument is accepted and not used. */
  function NewCasePropertyAggregation(name: string, field: string, size: Option<nat> := None): (a: CasePropertyAggregation)
    ensures a.name == name && a.field == field
    ensures AggregatedField(a.body) == Some(field)
  {
    var sub := map[
      "filter" := Obj(map["term" := Obj(map[AGG_KEY_FIELD := Str(field)])]),
      "aggs" := Obj(map[VALUES := Obj(map["terms" := Obj(map["field" := Str(QueryDsl.VALUE_FIELD)])])])];
    var fields := map[
      "nested" := Obj(map["path" := Str(QueryDsl.CASE_PROPERTIES_PATH)]),
      "aggs" := Obj(map[field := Obj(sub)])];
    assert fields.Keys == {"nested", "aggs"};
    assert sub.Keys == {"filter", "aggs"};
    assert map[field := Obj(sub)].Keys == {field};
    CasePropertyAggregation(name, field, Obj(fields))
  }

  /** The raw buckets of the aggregation in a response: the list under
      `values` → `buckets` of the entry named after the property. */
  function RawBuckets(result: Json, agg: CasePropertyAggregation): (r: Option<Json>)
    ensures r.Some? <==>
      && Get(result, agg.field).Some?
      && Get(Get(result, agg.field).value, VALUES).Some?
      && Get(Get(Get(result, agg.field).value, VALUES).value, "buckets").Some?
    ensures r.Some? ==> r == Get(Get(Get(result, agg.field).value, VALUES).value, "buckets")
  {
    var entry := Get(result, agg.field);
    if entry.None? then None
    else
      var values := Get(entry.value, VALUES);
      if values.None? then None else Get(values.value, "buckets")
  }

  /** The size argument has no effect on the aggregation. */
  lemma SizeIgnored(name: string, field: string, s1: Option<nat>, s2: Option<nat>)
    ensures NewCasePropertyAggregation(name, field, s1) == NewCasePropertyAggregation(name, field, s2)
  {
  }

  /** The body is exact: the same body with a `size` key added is not a
      case-property aggregation body. */
  lemma BodyHasNoSize(a: CasePropertyAggregation, size: Json)
    requires a == NewCasePropertyAggregation(a.name, a.field)
    ensures a.body.Obj? && "size" !in a.body.fields
    ensures AggregatedField(Obj(a.body.fields["size" := size])) == None
  {
    assert "size" !in {"nested", "aggs"};
  }

  /** Aggregations over different properties have different bodies, and the
      body alone determines the property. */
  lemma BodyDeterminesField(a: CasePropertyAggregation, b: CasePropertyAggregation)
    requires a == NewCasePropertyAggregation(a.name, a.field, None)
    requires b == NewCasePropertyAggregation(b.name, b.field, None)
    ensures a.body == b.body <==> a.field == b.field
  {
    if a.body == b.body {
      assert AggregatedField(a.body) == Some(a.field);
      assert AggregatedField(b.body) == Some(b.field);
    }
  }

  /** A response shaped after the request, with the buckets under the
      property's name and the inner aggregation's name, yields those buckets,
      whatever other keys (such as `doc_count`) sit beside them. */
  lemma RawBucketsOfMatchingResponse(agg: CasePropertyAggregation, buckets: Json,
                                     other: map<string, Json>, entry: map<string, Json>, values: map<string, Json>)
    ensures RawBuckets(Obj(other[agg.field := Obj(entry[VALUES := Obj(values["buckets" := buckets])])]), agg) == Some(buckets)
  {
  }
}
