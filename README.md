# Case-search query builder

A Dafny model of the case-search module of CommCare HQ
(`corehq/apps/es/case_search.py`). The module does three jobs:

- **Builder.** `CaseSearchES` keeps a `bool` query document. It maps the
  roles `must`, `should` and `must_not` to clause lists. Each public adder
  (`case_property_query`, the regexp and range adders, `get_child_cases`)
  funnels into one merge step, `_add_query`. That step either appends to
  the role's list or overwrites the role's entry.
- **Query constructors.** Pure functions build the nested search-engine
  documents for case properties and case indices: exact and text matches,
  property existence, ranges with number/date detection, reverse-index
  lookups, the deprecated property filter and the owner blacklist.
  The same module holds the request body of the case-property terms
  aggregation and the lookup of its buckets.
- **Flattener.** `flatten_result` rewrites a search hit in place. It stores
  the relevance score, removes the `case_properties` list and lifts each
  surviving key/value pair to the top level.

Layout:

- `json.dfy` (`Json`): JSON values, `dict.get`, Python truthiness and
  `str.startswith`.
- `query_dsl.dfy` (`QueryDsl`): the closed query datatype `Q`, the bool
  entry datatype (`ClauseList` or `NonList`), the field-path constants, and
  `ToJson`. `ToJson` renders the shapes whose JSON the case-search tests fix.
- `case_search_queries.dfy` (`CaseSearchQueries`): the module-level
  constructors.
- `matching.dfy` (`Matching`): the constructors checked against two
  independent references. One is a matching relation over case documents
  for terms on untokenised fields and for text matches, with the engine's
  text match as a parameter. The other is the literal JSON
  documents the filter compiler's tests expect.
- `case_search_builder.dfy` (`CaseSearchBuilder`): the pure merge rule
  `Merge` and the class `CaseSearchES`. The class's methods are proved
  against `Merge`.
- `result_flattener.dfy` (`ResultFlattener`): the classes `Hit` and
  `Source`, a fold `Promote` that specifies the loop, and the method
  `FlattenResult`, which mutates the hit's own source.
- `case_property_aggregation.dfy` (`CasePropertyAggregations`): the
  aggregation body, a reader that recovers the property from a body, and
  the raw-bucket lookup.

The source's default arguments are kept as Dafny default parameter values:
the role `must` for every adder, `fuzzy` false, text-match fuzziness `"0"`,
absent range bounds, no reverse-index identifier and no aggregation size.

Number and date conversion are parameters of type `Conversions`. They are
two partial functions returning `Option`: `float()` (with `None` where it
raises `ValueError`) and Django's `parse_date`. The model decides between
the numeric and the date branch from them and never inspects the values.

## Model

| member | source | states |
|---|---|---|
| CaseSearchBuilder.Merge | corehq/apps/es/case_search.py:131-145 | The result is a bool document whose role lists the kept clauses and then the new one. A query without a bool part becomes a bool document with that single role. Otherwise the key set gains the role and every other role's entry is unchanged. |
| CaseSearchBuilder.KeptClauses | corehq/apps/es/case_search.py:139-144 | A single non-list entry is dropped: nothing survives the merge. In every other case the role's clauses survive as they are. |
| CaseSearchBuilder.MergeAppends | corehq/apps/es/case_search.py:139-140 | A role holding a non-empty list gets the new clause appended at the end, with the earlier clauses in order. |
| CaseSearchBuilder.MergeOverwrites | corehq/apps/es/case_search.py:141-144 | An absent role, an empty list or a non-list entry is overwritten by the one-element list `[new_query]`. |
| CaseSearchBuilder.MergeKeepsOtherRoles | corehq/apps/es/case_search.py:131-144 | Adding under one role never changes the clauses of any other role, for every starting query. |
| CaseSearchBuilder.CasePropertyClauses | corehq/apps/es/case_search.py:68-77 | A non-fuzzy search adds one exact-match clause under the given role. A fuzzy one adds two: first an `AUTO` text match under the role, then the exact match under `should`, or under `must_not` when the role is `must_not`. The second clause's role is stated outright. |
| CaseSearchBuilder.FuzzyCasePropertyQueryEffect | corehq/apps/es/case_search.py:68-75 | After a fuzzy search the text match ends the given role's list. The exact match ends the `should` list, or for a `must_not` search follows the text match in the same list. |
| CaseSearchBuilder.CaseSearchES.constructor | corehq/apps/es/case_search.py:131-138 | A fresh builder holds no bool part, so its first added clause takes the replacing branch. |
| CaseSearchBuilder.CaseSearchES.CasePropertyQueries | corehq/apps/es/case_search.py:44-52 | The raw `must` entry of the bool part, a non-list entry included, or the empty list when there is none. |
| CaseSearchBuilder.CaseSearchES.AddQuery | corehq/apps/es/case_search.py:131-145 | The new query is the merge of the old one with the clause under the role, and the same builder is returned. |
| CaseSearchBuilder.CaseSearchES.CasePropertyQuery | corehq/apps/es/case_search.py:54-77 | The query is the old one with the property search's clauses merged in order. |
| CaseSearchBuilder.CaseSearchES.RegexpCasePropertyQuery | corehq/apps/es/case_search.py:79-88 | Merges a regexp on `case_properties.value` under the key filter for the property, under the given role. |
| CaseSearchBuilder.CaseSearchES.NumericRangeCasePropertyQuery | corehq/apps/es/case_search.py:90-98 | Merges the range query for the property and bounds under the given role. |
| CaseSearchBuilder.CaseSearchES.DateRangeCasePropertyQuery | corehq/apps/es/case_search.py:100-105 | Merges the same range query as the numeric adder. |
| CaseSearchBuilder.CaseSearchES.GetChildCases | corehq/apps/es/case_search.py:147-156 | Merges the reverse-index query under `must`. The `must` list then ends with it. |
| CaseSearchBuilder.RangeAddersAgree | corehq/apps/es/case_search.py:90-105 | Two builders that start alike and receive the numeric and the date adder with the same arguments end alike. |
| CaseSearchQueries.ExactCasePropertyTextQuery | corehq/apps/es/case_search.py:170-186 | Nested `case_properties` over filtered `match_all`. The filter is an `and` of the existence query's key term first, then the term on `case_properties.value.exact`. |
| CaseSearchQueries.CasePropertyTextQuery | corehq/apps/es/case_search.py:189-200 | The base property query around a match on `case_properties.value` with the given fuzziness. |
| CaseSearchQueries.TextQueryDefaultFuzziness | corehq/apps/es/case_search.py:189 | Without a fuzziness argument the text match has fuzziness `"0"`. |
| CaseSearchQueries.BasePropertyQuery | corehq/apps/es/case_search.py:268-275 | Nested `case_properties`: the given query, filtered by the term `case_properties.key.exact` = name. |
| CaseSearchQueries.CasePropertyExists | corehq/apps/es/case_search.py:255-265 | The base property query around `match_all`. |
| CaseSearchQueries.CasePropertyFilter | corehq/apps/es/case_search.py:159-167 | A nested filter on `case_properties`: `and` of the exact-key term and a term on the analysed `case_properties.value`. Its key term is the one the exact query uses. |
| CaseSearchQueries.BlacklistOwnerId | corehq/apps/es/case_search.py:278-279 | The negation of the owner term. |
| CaseSearchQueries.CaseIdList | corehq/apps/es/case_search.py:236-237 | A lone id becomes the one-element list; a list is kept as it is. |
| CaseSearchQueries.ReverseIndexCaseQuery | corehq/apps/es/case_search.py:228-252 | Nested `indices` over filtered `match_all`. With no identifier the filter is the one-element tuple of the `indices.referenced_id` terms filter. Otherwise it is `and` of that filter and the `indices.identifier` term, in that order. |
| CaseSearchQueries.Present | corehq/apps/es/case_search.py:207-211 | The given bounds are exactly the non-`None` arguments, with their values. |
| CaseSearchQueries.CasePropertyRangeQuery | corehq/apps/es/case_search.py:203-225 | A range under the key filter. Its bound kinds are the given ones. It uses `case_properties.value.numeric` exactly when every bound converts to a number, and otherwise `.value.date`. No bounds gives the numeric branch. Each bound holds its converted value. |
| Matching.ExactTextQueryMatches | corehq/apps/es/case_search.py:170-186 | The exact query selects a case exactly when one of its property entries has that key and that value. |
| Matching.BasePropertyQueryMatches | corehq/apps/es/case_search.py:268-275 | For any inner query: selects a case exactly when one of its entries has the key `name` and satisfies the inner query. |
| Matching.CasePropertyTextQueryMatches | corehq/apps/es/case_search.py:189-200 | The text query selects a case exactly when one of its entries has the key `name` and a value the engine's text match accepts for the text and fuzziness. |
| Matching.PropertyExistsMatches | corehq/apps/es/case_search.py:255-265 | The existence query selects a case exactly when it has an entry with that key. |
| Matching.NotEqualMatches | corehq/apps/case_search/tests/test_filter_dsl.py:101-156 | Existence combined with the negated exact match selects cases that have the property with no entry carrying the value. |
| Matching.ReverseIndexMatches | corehq/apps/es/case_search.py:228-252 | With an identifier, the lookup selects a case exactly when one of its indices references a listed id under that identifier. |
| Matching.SingleIdIsOneElementList | corehq/apps/es/case_search.py:236-237 | A lone id gives the same query as the one-element list holding it. |
| Matching.ReverseIndexWithoutIdentifier | corehq/apps/es/case_search.py:239-240 | Without an identifier, the filter is a one-element tuple holding only the `indices.referenced_id` terms filter, rendered as a JSON array. |
| Matching.ReverseIndexJson | corehq/apps/es/case_search.py:241-252 | With an identifier: nested `indices`, filtered match_all, `and` of the referenced-id terms and the identifier term, in that order. |
| Matching.BlacklistOwnerMatches | corehq/apps/es/case_search.py:278-279 | The blacklist selects a case exactly when its owner differs. |
| Matching.BlacklistOwnerJson | corehq/apps/es/case_search.py:278-279 | The blacklist is `not` of a term on `owner_id`. |
| Matching.ExactQueryJson | corehq/apps/es/case_search.py:170-186 | For every name and value: nested `case_properties`, filtered match_all, `and` of the key-exact term and then the value-exact term. |
| Matching.ExistsQueryJson | corehq/apps/es/case_search.py:255-265 | For every name: the same wrapper around the key-exact term alone. |
| Matching.CasePropertyFilterJson | corehq/apps/es/case_search.py:159-167 | A nested filter (not a nested query) on `case_properties` whose `and` tests the exact key and the analysed value. |
| Matching.SimpleFilterDocument | corehq/apps/case_search/tests/test_filter_dsl.py:22-47 | The exact query for `name = 'farid'` is the expected document. |
| Matching.PropertyExistenceDocument | corehq/apps/case_search/tests/test_filter_dsl.py:104-154 | The query for `property != ''` is the expected document. |
| Matching.ParentLookupDocument | corehq/apps/case_search/tests/test_filter_dsl.py:331-357 | The lookup for `father/name = 'Mace'` is the expected document. |
| Matching.DateComparisonQuery | corehq/apps/case_search/tests/test_filter_dsl.py:51-74 | A bound that is not a number gives a date range on `case_properties.value.date` under the key filter. |
| Matching.NumericComparisonQuery | corehq/apps/case_search/tests/test_filter_dsl.py:76-99 | A bound that is a number gives a numeric range on `case_properties.value.numeric` under the key filter. |
| ResultFlattener.Promoted | corehq/apps/es/case_search.py:292-296 | An entry is copied exactly when its key is a string not starting with `@` and its value is truthy. It contributes that key and value. |
| ResultFlattener.Promote | corehq/apps/es/case_search.py:292-296 | The entries written in order into a map. Its keys are the map's keys and every key some entry promotes. |
| ResultFlattener.Flattened | corehq/apps/es/case_search.py:289-296 | The flattened source. Its keys are the score key, the other source fields except `case_properties`, and every promoted key. |
| ResultFlattener.PromoteUntouched | corehq/apps/es/case_search.py:292-296 | A key that no entry promotes keeps its presence and value. |
| ResultFlattener.PromoteLast | corehq/apps/es/case_search.py:292-296 | A key holds the value of the last entry that promotes it: later duplicates win. |
| ResultFlattener.FlattenedLookup | corehq/apps/es/case_search.py:289-297 | Each key of the flattened hit holds one of three things. If some entry promotes it, the value of the last such entry. Otherwise the score for the score key, nothing for `case_properties`, and the original field for any other key. Entries may overwrite source fields and the score. |
| ResultFlattener.FlattenResult | corehq/apps/es/case_search.py:282-297 | Returns the hit's own source object. Its new contents are the flattening of the old source with the hit's score. |
| ResultFlattener.FlattenExample | corehq/apps/es/case_search.py:292-296 | Of entries `a: "1"`, `@meta: "x"` and `b: ""`, only `a` is lifted, beside the score. |
| CasePropertyAggregations.NewCasePropertyAggregation | corehq/apps/es/case_search.py:318-341 | Keeps the name and the property. The body descends into `case_properties`, filters on `case_properties.key` equal to the property and buckets `case_properties.value` under `values`. Reading the body back, with its exact key set checked at every level, gives the property: the body holds nothing else. |
| CasePropertyAggregations.SizeIgnored | corehq/apps/es/case_search.py:318-321 | The `size` argument does not affect the aggregation. |
| CasePropertyAggregations.BodyHasNoSize | corehq/apps/es/case_search.py:318-341 | The built body has no `size` key, and a body with one added is not read back as a case-property aggregation. |
| CasePropertyAggregations.BodyDeterminesField | corehq/apps/es/case_search.py:318-341 | Two aggregations have the same body exactly when they aggregate the same property. |
| CasePropertyAggregations.RawBuckets | corehq/apps/es/case_search.py:302-304 | The buckets exist exactly when the response has an entry named after the property holding `values` and then `buckets`, and they are that `buckets` value. |
| CasePropertyAggregations.RawBucketsOfMatchingResponse | corehq/apps/es/case_search.py:302-304 | A response with the buckets under the property's name and then `values` yields them, whatever sibling keys (such as `doc_count`) sit at each level. |

## Left out

- `xpath_query` (corehq/apps/es/case_search.py:107-129) is not modelled. It is the XPath parser, the filter compiler `build_filter_from_ast` and the `CaseFilterError` wrapping, and the filter compiler is not part of this model. Its tests are used only as expected documents for the constructors.
- The search-query base class is not part of this model. That covers `set_query`, `filter`, cloning, the default filters and `builtin_filters`, query execution, and `BucketResult` with the `buckets` property.
- CaseSearchBuilder.CaseSearchES.AddQuery: the replacing branch goes through the base class's `set_query`. That base class may return a copy of the builder. The model updates this builder in place and returns it in all three branches.
- CaseSearchBuilder.CaseSearchES.constructor: the base class's initial query is taken to hold no bool part (`MatchAll`). Its default filters are not modelled.
- The builder's query is a value. Clause lists the source shares by reference between builders are not modelled, so aliasing through them is not captured.
- The values of `float()` and `parse_date` are opaque. Infinities, NaN and non-string bounds are not modelled. `parse_date` raising `ValueError` on a well-shaped but impossible date is not modelled either: the date parser is total and returns `None` for text it cannot read.
- `ToJson` returns `None` for match, regexp, range and bool documents. Their layout belongs to the generic query module, which is not part of this model.
- The owner filter of the cases module is not part of this model. `BlacklistOwnerId` assumes it is a term on `owner_id`.
- The relevance-score key `commcare_search_score` and the path constants come from the case-search constants module, which is not part of this model. They are written out here.
- `Matching.Eval` is defined only on `Evaluable` documents. These are terms on the untokenised fields the case-search index stores, and text matches on `case_properties.value`. The engine's text match (tokenising, fuzziness) is a parameter. The bare one-element tuple that `reverse_index_case_query` builds without an identifier, the deprecated filter's term on the analysed `case_properties.value`, regexp, range and `bool` documents (everything the builder itself assembles) have no meaning in `Eval`. Those shapes are stated structurally and, where the tests fix it, as JSON.
- ResultFlattener.FlattenResult: the method requires a `case_properties` value that is either a list of dictionaries whose `key` is absent, null or a string, or an empty dictionary or string, over which the loop runs no iteration. The source raises an exception on every other shape: null, a number, a non-empty string or dictionary, an entry that is not a dictionary, or a key of another type. Those failures are not modelled.
- The aggregation's class attribute `type = "case_property"` and its `result_class` only feed the aggregation machinery of the base module, which is not part of this model.
- `warn(DeprecationWarning)` in `case_property_filter` and `ugettext` are side effects and are not modelled.
