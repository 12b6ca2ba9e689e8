/** The case-search query builder: a mutable accumulator of clauses under
    the `must`, `should` and `must_not` roles of a `bool` query, and the
    adders that feed it. */
module CaseSearchBuilder {
  import opened Json
  import opened QueryDsl
  import opened CaseSearchQueries

  /** The clauses listed under `role` in a query: a list as it is, a single
      non-list clause as a one-element list, nothing when there is no bool
      document or no entry for the role. */
  function RoleClauses(q: Q, role: Role): seq<Q>
  {
    if q.Bool? && role in q.roles then
      match q.roles[role]
      case ClauseList(cs) => cs
      case NonList(c) => [c]
    else []
  }

  /** The clauses under `role` that a merge keeps: those of a clause list.
      A single non-list clause is not kept. */
  function KeptClauses(q: Q, role: Role): (r: seq<Q>)
    ensures q.Bool? && role in q.roles && q.roles[role].NonList? ==> r == []
    ensures !(q.Bool? && role in q.roles && q.roles[role].NonList?) ==> r == RoleClauses(q, role)
  {
    if q.Bool? && role in q.roles && q.roles[role].ClauseList? then q.roles[role].clauses else []
  }

  /** The query after one clause is added under `role`: a bool document
      whose `role` lists the kept clauses followed by the new one; every other
      role of an existing bool document is untouched, and a query that is
      not a bool document is replaced. */
  function Merge(current: Q, newQuery: Q, role: Role): (r: Q)
    ensures r.Bool? && role in r.roles && r.roles[role].ClauseList?
    ensures RoleClauses(r, role) == KeptClauses(current, role) + [newQuery]
    ensures !current.Bool? ==> r == Bool(map[role := ClauseList([newQuery])])
    ensures current.Bool? ==> r.roles.Keys == current.roles.Keys + {role}
    ensures current.Bool? ==> forall other | other in current.roles && other != role :: r.roles[other] == current.roles[other]
  {
    if current.Bool? then Bool(current.roles[role := ClauseList(KeptClauses(current, role) + [newQuery])])
    else Bool(map[role := ClauseList([newQuery])])
  }

  /** A clause together with the role it is added under. */
  datatype Clause = Clause(query: Q, role: Role)

  /** The query after the clauses are added one after another. */
  function MergeAll(current: Q, clauses: seq<Clause>): Q
    decreases |clauses|
  {
    if clauses == [] then current
    else MergeAll(Merge(current, clauses[0].query, clauses[0].role), clauses[1..])
  }

  /** The clauses a property search adds: the exact match alone, or with
      `fuzzy` first an AUTO-fuzziness text match under the given role and
      then the exact match as a boost, under `should` unless the search is
      negative. */
  function CasePropertyClauses(name: string, value: string, role: Role, fuzzy: bool): (r: seq<Clause>)
    ensures |r| == if fuzzy then 2 else 1
    ensures r[|r| - 1].query == ExactCasePropertyTextQuery(name, value)
    ensures !fuzzy ==> r[0].role == role
    ensures fuzzy ==> r[0] == Clause(CasePropertyTextQuery(name, value, "AUTO"), role)
    ensures fuzzy ==> r[1].role == (if role == MustNot then MustNot else Should)
  {
    var exact := ExactCasePropertyTextQuery(name, value);
    if fuzzy then
      [Clause(CasePropertyTextQuery(name, value, "AUTO"), role), Clause(exact, if role != MustNot then Should else role)]
    else
      [Clause(exact, role)]
  }

  // ---------------------------------------------------------------------
  // Properties of the merge rule

  /** A role that already lists clauses keeps them, in order, and gets the
      new one at the end. */
  lemma MergeAppends(current: Q, newQuery: Q, role: Role)
    requires current.Bool? && role in current.roles
    requires current.roles[role].ClauseList? && current.roles[role].clauses != []
    ensures RoleClauses(Merge(current, newQuery, role), role) == current.roles[role].clauses + [newQuery]
  {
  }

  /** An absent role, an empty list or a single non-list clause is
      overwritten by the one-element list of the new clause. */
  lemma MergeOverwrites(current: Q, newQuery: Q, role: Role)
    requires current.Bool?
    requires role !in current.roles || current.roles[role].NonList? || current.roles[role] == ClauseList([])
    ensures Merge(current, newQuery, role).roles[role] == ClauseList([newQuery])
  {
  }

  /** Adding under one role never changes the clauses of any other role. */
  lemma MergeKeepsOtherRoles(current: Q, newQuery: Q, role: Role, other: Role)
    requires other != role
    ensures RoleClauses(Merge(current, newQuery, role), other) == RoleClauses(current, other)
  {
  }

  /** What a fuzzy property search leaves in the bool document: the text
      match last under the given role, the exact match last under `should`
      (or under `must_not` for a negative search). */
  lemma {:induction false} FuzzyCasePropertyQueryEffect(current: Q, name: string, value: string, role: Role)
    ensures var after := MergeAll(current, CasePropertyClauses(name, value, role, true));
      var text, exact := CasePropertyTextQuery(name, value, "AUTO"), ExactCasePropertyTextQuery(name, value);
      && (role == Must ==>
            && RoleClauses(after, Must) == KeptClauses(current, Must) + [text]
            && RoleClauses(after, Should) == KeptClauses(current, Should) + [exact])
      && (role != Must ==> RoleClauses(after, role) == KeptClauses(current, role) + [text, exact])
  {
    var text, exact := CasePropertyTextQuery(name, value, "AUTO"), ExactCasePropertyTextQuery(name, value);
    var clauses := CasePropertyClauses(name, value, role, true);
    var exactRole := if role != MustNot then Should else role;
    var mid := Merge(current, text, role);
    var after := Merge(mid, exact, exactRole);
    assert clauses[0] == Clause(text, role);
    assert clauses[1..][0] == Clause(exact, exactRole);
    assert clauses[1..][1..] == [];
    assert MergeAll(current, clauses) == MergeAll(mid, clauses[1..]);
    assert MergeAll(mid, clauses[1..]) == MergeAll(after, clauses[1..][1..]);
    if role == Must {
      assert KeptClauses(mid, Should) == KeptClauses(current, Should);
    } else {
      assert KeptClauses(mid, role) == KeptClauses(current, role) + [text];
    }
  }

  // ---------------------------------------------------------------------
  // The builder

  class CaseSearchES {
    /** The query part of the search: a bool document once clauses are added. */
    var query: Q

    /** A fresh search matches everything. */
    constructor ()
      ensures query == MatchAll
    {
      query := MatchAll;
    }

    /** The clauses listed under `must`; for a single non-list clause, that
        clause; nothing when the query holds no bool `must` entry. */
    function CasePropertyQueries(): (r: Entry)
      reads this
      ensures r.ClauseList? ==> r.clauses == RoleClauses(query, Must)
      ensures r.NonList? ==> RoleClauses(query, Must) == [r.single]
      ensures query.Bool? && Must in query.roles ==> r == query.roles[Must]
      ensures !(query.Bool? && Must in query.roles) ==> r == ClauseList([])
    {
      if query.Bool? && Must in query.roles then query.roles[Must] else ClauseList([])
    }

    /** Adds `newQuery` under `role` and hands back this builder. */
    method AddQuery(newQuery: Q, role: Role) returns (r: CaseSearchES)
      modifies this
      ensures r == this
      ensures query == Merge(old(query), newQuery, role)
    {
      if !query.Bool? {
        query := Bool(map[role := ClauseList([newQuery])]);
      } else if role in query.roles && query.roles[role].ClauseList? && query.roles[role].clauses != [] {
        query := Bool(query.roles[role := ClauseList(query.roles[role].clauses + [newQuery])]);
      } else {
        assert KeptClauses(query, role) + [newQuery] == [newQuery];
        query := Bool(query.roles[role := ClauseList([newQuery])]);
      }
      r := this;
    }

    /** Searches for cases whose property `name` has the value `value`. */
    method CasePropertyQuery(name: string, value: string, role: Role := Must, fuzzy: bool := false) returns (r: CaseSearchES)
      modifies this
      ensures r == this
      ensures query == MergeAll(old(query), CasePropertyClauses(name, value, role, fuzzy))
    {
      ghost var start, clauses := query, CasePropertyClauses(name, value, role, fuzzy);
      if fuzzy {
        var positive := role != MustNot;
        var b := AddQuery(CasePropertyTextQuery(name, value, "AUTO"), role);
        ghost var mid := query;
        r := b.AddQuery(ExactCasePropertyTextQuery(name, value), if positive then Should else role);
        assert clauses[1..][1..] == [];
        assert MergeAll(start, clauses) == MergeAll(mid, clauses[1..]);
        assert MergeAll(mid, clauses[1..]) == MergeAll(query, clauses[1..][1..]);
      } else {
        r := AddQuery(ExactCasePropertyTextQuery(name, value), role);
        assert clauses[1..] == [];
        assert MergeAll(start, clauses) == MergeAll(query, clauses[1..]);
      }
    }

    /** Searches for cases whose property `name` matches `regex`. */
    method RegexpCasePropertyQuery(name: string, regex: string, role: Role := Must) returns (r: CaseSearchES)
      modifies this
      ensures r == this
      ensures query == Merge(old(query), BasePropertyQuery(name, Regexp(VALUE_FIELD, regex)), role)
    {
      r := AddQuery(BasePropertyQuery(name, Regexp(VALUE_FIELD, regex)), role);
    }

    /** Searches for cases whose property `name` lies in the numeric range. */
    method NumericRangeCasePropertyQuery(name: string, args: RangeArgs, conv: Conversions, role: Role := Must)
      returns (r: CaseSearchES)
      modifies this
      ensures r == this
      ensures query == Merge(old(query), CasePropertyRangeQuery(name, args, conv), role)
    {
      r := AddQuery(CasePropertyRangeQuery(name, args, conv), role);
    }

    /** Searches for cases whose property `name` lies in the date range. */
    method DateRangeCasePropertyQuery(name: string, args: RangeArgs, conv: Conversions, role: Role := Must)
      returns (r: CaseSearchES)
      modifies this
      ensures r == this
      ensures query == Merge(old(query), CasePropertyRangeQuery(name, args, conv), role)
    {
      r := AddQuery(CasePropertyRangeQuery(name, args, conv), role);
    }

    /** Requires cases that reference one of `ids`, under the relation `identifier` if given. */
    method GetChildCases(ids: CaseIds, identifier: Option<string>) returns (r: CaseSearchES)
      modifies this
      ensures r == this
      ensures query == Merge(old(query), ReverseIndexCaseQuery(ids, identifier), Must)
      ensures CasePropertyQueries() == ClauseList(KeptClauses(old(query), Must) + [ReverseIndexCaseQuery(ids, identifier)])
    {
      var list := IdList(CaseIdList(ids));
      r := AddQuery(ReverseIndexCaseQuery(list, identifier), Must);
    }
  }

  /** The numeric and the date range adders add the same clause for the same
      arguments: two builders that start alike end alike. */
  method RangeAddersAgree(a: CaseSearchES, b: CaseSearchES, name: string, args: RangeArgs, conv: Conversions, role: Role)
    requires a != b && a.query == b.query
    modifies a, b
    ensures a.query == b.query
  {
    var ra := a.NumericRangeCasePropertyQuery(name, args, conv, role);
    var rb := b.DateRangeCasePropertyQuery(name, args, conv, role);
  }
}
