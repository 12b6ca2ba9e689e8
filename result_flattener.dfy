/** Flattening of a case-search hit into the shape the case serialisers
    expect: the relevance score is added, and the case-property entries are
    lifted to the top level of the hit's own source document. */
module ResultFlattener {
  import opened Json
  import QueryDsl

  /** The key the relevance score is stored under. */
  const RELEVANCE_SCORE: string := "commcare_search_score"

  /** The `_source` document of a hit: a dictionary updated in place. */
  class Source {
    var fields: map<string, Json>

    constructor (fields: map<string, Json>)
      ensures this.fields == fields
    {
      this.fields := fields;
    }
  }

  /** One search hit: its source document and its `_score`. */
  class Hit {
    var source: Source
    var score: Json

    constructor (source: Source, score: Json)
      ensures this.source == source && this.score == score
    {
      this.source := source;
      this.score := score;
    }
  }

  /** A case-property entry the loop can read: a dictionary whose `key`,
      if present and not null, is a string. */
  predicate WellFormedEntry(entry: Json)
  {
    entry.Obj? && (Get(entry, "key").None? || Get(entry, "key").value.Null? || Get(entry, "key").value.Str?)
  }

  /** The source's case-property value, when present, is one the loop can
      walk: a list of readable entries, or an empty dictionary or string,
      over which it runs no iteration. */
  predicate WellFormedSource(fields: map<string, Json>)
  {
    QueryDsl.CASE_PROPERTIES_PATH in fields ==>
      || (fields[QueryDsl.CASE_PROPERTIES_PATH].Arr? && forall e | e in fields[QueryDsl.CASE_PROPERTIES_PATH].items :: WellFormedEntry(e))
      || fields[QueryDsl.CASE_PROPERTIES_PATH] == Obj(map[])
      || fields[QueryDsl.CASE_PROPERTIES_PATH] == Str("")
  }

  /** The entries of the source, or none when it has no case properties. */
  function Entries(fields: map<string, Json>): seq<Json>
  {
    if QueryDsl.CASE_PROPERTIES_PATH in fields && fields[QueryDsl.CASE_PROPERTIES_PATH].Arr? then fields[QueryDsl.CASE_PROPERTIES_PATH].items else []
  }

  /** The (key, value) pair an entry contributes: its key is a string that
      does not start with `@` and its value is truthy. */
  function Promoted(entry: Json): (r: Option<(string, Json)>)
    ensures r.Some? <==>
      && Get(entry, "key").Some? && Get(entry, "key").value.Str?
      && !StartsWith(Get(entry, "key").value.s, "@")
      && Get(entry, "value").Some? && Truthy(Get(entry, "value").value)
    ensures r.Some? ==> r.value == (Get(entry, "key").value.s, Get(entry, "value").value)
  {
    var key, value := Get(entry, "key"), Get(entry, "value");
    if key.Some? && key.value.Str? && !StartsWith(key.value.s, "@") && value.Some? && Truthy(value.value)
    then Some((key.value.s, value.value))
    else None
  }

  predicate PromotesKey(entry: Json, k: string)
  {
    Promoted(entry).Some? && Promoted(entry).value.0 == k
  }

  /** `i` is the last entry that promotes `k`. */
  predicate IsLastFor(entries: seq<Json>, i: int, k: string)
  {
    0 <= i < |entries| && PromotesKey(entries[i], k) &&
    forall j | i < j < |entries| :: !PromotesKey(entries[j], k)
  }

  predicate NonePromotes(entries: seq<Json>, k: string)
  {
    forall i | 0 <= i < |entries| :: !PromotesKey(entries[i], k)
  }

  /** Some entry promotes `k`. */
  predicate PromotedBy(entries: seq<Json>, k: string)
  {
    exists i | 0 <= i < |entries| :: PromotesKey(entries[i], k)
  }

  /** An entry promotes `k` exactly when the entries before the last one do
      or the last one does. */
  lemma PromotedBySplit(entries: seq<Json>, k: string)
    requires entries != []
    ensures PromotedBy(entries, k) <==>
      PromotedBy(entries[..|entries| - 1], k) || PromotesKey(entries[|entries| - 1], k)
  {
    var prefix := entries[..|entries| - 1];
    if PromotedBy(prefix, k) {
      var i :| 0 <= i < |prefix| && PromotesKey(prefix[i], k);
      assert entries[i] == prefix[i];
    }
    if PromotedBy(entries, k) && !PromotesKey(entries[|entries| - 1], k) {
      var i :| 0 <= i < |entries| && PromotesKey(entries[i], k);
      assert prefix[i] == entries[i];
    }
  }

  /** `m` after the entries are written into it in order: its keys are
      those of `m` and those some entry promotes. */
  function Promote(m: map<string, Json>, entries: seq<Json>): (r: map<string, Json>)
    ensures forall k :: k in r <==> k in m || PromotedBy(entries, k)
    decreases |entries|
  {
    if entries == [] then m
    else
      PromotedBySplitAll(entries);
      var before := Promote(m, entries[..|entries| - 1]);
      var last := Promoted(entries[|entries| - 1]);
      if last.Some? then before[last.value.0 := last.value.1] else before
  }

  /** Every key at once, for use inside `Promote`. */
  lemma PromotedBySplitAll(entries: seq<Json>)
    requires entries != []
    ensures forall k :: PromotedBy(entries, k) <==>
      PromotedBy(entries[..|entries| - 1], k) || PromotesKey(entries[|entries| - 1], k)
  {
    forall k
      ensures PromotedBy(entries, k) <==>
        PromotedBy(entries[..|entries| - 1], k) || PromotesKey(entries[|entries| - 1], k)
    {
      PromotedBySplit(entries, k);
    }
  }

  /** The flattened source: the score set, the case-property entries taken
      out, and the surviving entries written over the rest. Its keys are the
      score, the other source fields and every promoted key. */
  function Flattened(fields: map<string, Json>, score: Json): (r: map<string, Json>)
    ensures forall k :: k in r <==>
      k == RELEVANCE_SCORE || (k in fields && k != QueryDsl.CASE_PROPERTIES_PATH) || PromotedBy(Entries(fields), k)
  {
    assert Entries(fields[RELEVANCE_SCORE := score]) == Entries(fields);
    var withScore := fields[RELEVANCE_SCORE := score];
    Promote(withScore - {QueryDsl.CASE_PROPERTIES_PATH}, Entries(withScore))
  }

  /** A key is left as it was by entries none of which promotes it. */
  lemma {:induction false} PromoteUntouched(m: map<string, Json>, entries: seq<Json>, k: string)
    requires NonePromotes(entries, k)
    ensures k in Promote(m, entries) <==> k in m
    ensures k in m ==> Promote(m, entries)[k] == m[k]
    decreases |entries|
  {
    if entries != [] {
      var prefix := entries[..|entries| - 1];
      assert NonePromotes(prefix, k) by {
        forall i | 0 <= i < |prefix| ensures !PromotesKey(prefix[i], k) {
          assert prefix[i] == entries[i];
        }
      }
      PromoteUntouched(m, prefix, k);
      assert !PromotesKey(entries[|entries| - 1], k);
    }
  }

  /** A key holds the value of the last entry that promotes it. */
  lemma {:induction false} PromoteLast(m: map<string, Json>, entries: seq<Json>, k: string, i: int)
    requires IsLastFor(entries, i, k)
    ensures k in Promote(m, entries) && Promote(m, entries)[k] == Promoted(entries[i]).value.1
    decreases |entries|
  {
    var n := |entries| - 1;
    var prefix := entries[..n];
    var last := Promoted(entries[n]);
    assert Promote(m, entries) == if last.Some? then Promote(m, prefix)[last.value.0 := last.value.1] else Promote(m, prefix);
    if i < n {
      assert !PromotesKey(entries[n], k);
      assert IsLastFor(prefix, i, k) by {
        forall j | i < j < |prefix| ensures !PromotesKey(prefix[j], k) {
          assert prefix[j] == entries[j];
        }
      }
      PromoteLast(m, prefix, k, i);
    }
  }

  /** What a flattened hit holds under each key. */
  lemma FlattenedLookup(fields: map<string, Json>, score: Json, k: string)
    ensures var r, entries := Flattened(fields, score), Entries(fields);
      && (forall i | IsLastFor(entries, i, k) :: k in r && r[k] == Promoted(entries[i]).value.1)
      && (NonePromotes(entries, k) ==>
            && (k == RELEVANCE_SCORE ==> k in r && r[k] == score)
            && (k == QueryDsl.CASE_PROPERTIES_PATH ==> k !in r)
            && (k != RELEVANCE_SCORE && k != QueryDsl.CASE_PROPERTIES_PATH ==>
                  (k in r <==> k in fields) && (k in fields ==> r[k] == fields[k])))
  {
    var withScore := fields[RELEVANCE_SCORE := score];
    var entries := Entries(fields);
    assert Entries(withScore) == entries;
    forall i | IsLastFor(entries, i, k)
      ensures k in Flattened(fields, score) && Flattened(fields, score)[k] == Promoted(entries[i]).value.1
    {
      PromoteLast(withScore - {QueryDsl.CASE_PROPERTIES_PATH}, entries, k, i);
    }
    if NonePromotes(entries, k) {
      PromoteUntouched(withScore - {QueryDsl.CASE_PROPERTIES_PATH}, entries, k);
    }
  }

  /** Flattens `hit` in place and returns its own source document. */
  method FlattenResult(hit: Hit) returns (result: Source)
    requires WellFormedSource(hit.source.fields)
    modifies hit.source
    ensures result == hit.source
    ensures result.fields == Flattened(old(hit.source.fields), old(hit.score))
  {
    result := hit.source;
    result.fields := result.fields[RELEVANCE_SCORE := hit.score];
    var entries: seq<Json> := [];
    if QueryDsl.CASE_PROPERTIES_PATH in result.fields {
      if result.fields[QueryDsl.CASE_PROPERTIES_PATH].Arr? {
        entries := result.fields[QueryDsl.CASE_PROPERTIES_PATH].items;
      }
      result.fields := result.fields - {QueryDsl.CASE_PROPERTIES_PATH};
    }
    ghost var start := result.fields;
    assert entries == Entries(old(hit.source.fields)[RELEVANCE_SCORE := old(hit.score)]);
    var i := 0;
    while i < |entries|
      invariant 0 <= i <= |entries|
      invariant result.fields == Promote(start, entries[..i])
    {
      var key, value := Get(entries[i], "key"), Get(entries[i], "value");
      if key.Some? && key.value.Str? && !StartsWith(key.value.s, "@") && value.Some? && Truthy(value.value) {
        result.fields := result.fields[key.value.s := value.value];
      }
      assert entries[..i + 1][..i] == entries[..i];
      assert Promoted(entries[i]).Some? ==>
        Promote(start, entries[..i + 1]) == Promote(start, entries[..i])[Promoted(entries[i]).value.0 := Promoted(entries[i]).value.1];
      assert Promoted(entries[i]).None? ==> Promote(start, entries[..i + 1]) == Promote(start, entries[..i]);
      i := i + 1;
    }
    assert entries[..i] == entries;
  }

  /** An example: of `a: "1"`, `@meta: "x"` and `b: ""`, only
      `a` is promoted. */
  lemma FlattenExample(score: Json)
    ensures Flattened(map[QueryDsl.CASE_PROPERTIES_PATH := Arr([
        Obj(map["key" := Str("a"), "value" := Str("1")]),
        Obj(map["key" := Str("@meta"), "value" := Str("x")]),
        Obj(map["key" := Str("b"), "value" := Str("")])])], score)
      == map[RELEVANCE_SCORE := score, "a" := Str("1")]
  {
    var entries := [
        Obj(map["key" := Str("a"), "value" := Str("1")]),
        Obj(map["key" := Str("@meta"), "value" := Str("x")]),
        Obj(map["key" := Str("b"), "value" := Str("")])];
    var fields := map[QueryDsl.CASE_PROPERTIES_PATH := Arr(entries)];
    var withScore := fields[RELEVANCE_SCORE := score];
    assert Entries(withScore) == entries;
    var m := withScore - {QueryDsl.CASE_PROPERTIES_PATH};
    assert m == map[RELEVANCE_SCORE := score];
    assert "@meta"[..1] == "@";
    assert Get(entries[0], "key") == Some(Str("a")) && Get(entries[0], "value") == Some(Str("1"));
    assert "a"[..1] == "a" && !StartsWith("a", "@");
    assert Truthy(Str("1"));
    assert Promoted(entries[0]) == Some(("a", Str("1")));
    assert Promoted(entries[1]).None?;
    assert Promoted(entries[2]).None?;
    assert entries[..3] == entries && entries[..3][..2] == entries[..2];
    assert entries[..2][..1] == entries[..1];
    assert entries[..1][..0] == [];
    assert Promote(m, entries[..1]) == m["a" := Str("1")];
    assert Promote(m, entries[..2]) == m["a" := Str("1")];
    assert Promote(m, entries) == m["a" := Str("1")];
  }
}
