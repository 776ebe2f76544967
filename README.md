# ActiveQuery of yii2-xunsearch, modelled in Dafny

`ActiveQuery` is the query class of the yii2-xunsearch extension. It compiles a Yii-style
condition tree into the flat query-string syntax of the Xunsearch full-text engine. It sets the
sort and the limit/offset on the engine's search object (XSSearch) with native calls, runs
`search()` or `count()`, and turns the returned documents into rows or model records.

The model has seven modules:

- `Wrappers` (wrappers.dfy): `Option`, `Result` and the exception kinds `InvalidParam`,
  `NotSupported` and `Raised`. `Raised` stands for failures raised outside the model. No member
  of the model builds it; only an IN builder may return it.
- `Values` (values.dfy): the PHP scalars a condition, limit or offset may hold (null, bool, int,
  string), PHP's `(string)` cast of them, and `ctype_digit`.
- `Conditions` (conditions.dfy): the compiler. `BuildCondition` is a recursive function. It
  dispatches on shape (scalar, empty array, operator form, hash form) and on the upper-cased
  operator through the `$conditionBuilders` table. It calls the NOT, AND/OR, WILD, simple and
  hash builders, and threads the first failure through as an `Err`.
- `ConditionProperties` (condition_properties.dfy): lemmas about the compiler over all inputs.
  They cover dropped operands, the flat AND/OR chain, NOT arity, WILD emitting its raw operands,
  the hash form's null skipping and its `"()"` for an all-null hash, when the IN builder is
  reached, and exactly when compilation fails.
- `Paging` (paging.dfy): `hasLimit`, `hasOffset` and the offset `buildLimit` sends.
- `Search` (search.dfy): the search object as a class that records every call made to it
  (`setLimit`, `setSort`, `setMultiSort`, `setQuery`, `search`, `count`) and answers `search()`
  and `count()` from a fixed script.
- `Query` (query.dfy): the `ActiveQuery` class with its mutable `where`, `orderBy`, `limit`,
  `offset`, `asArray` and `$query` fields, and `buildOrderBy`, `buildLimit`, `setCondition`,
  `one`, `all`, `count`, `exists`, `findFor` and `via` as methods. Each method's postcondition
  gives the exact calls the search objects receive and the exact value returned.

Modelling choices:

- **Conditions.** A condition is `Atom(scalar)`, `OpForm(op, operands)` (an array whose element
  0 is set) or `Hash(pairs)` (any other array; `Hash([])` is the empty array).
- **Scalars.** Scalars keep their PHP type. The builders test `!== ''` and `=== ''` strictly,
  so a null or false operand is kept, while an empty string is dropped.
- **The IN builder.** `buildInCondition` is called by ActiveQuery.php:88-89 and
  ActiveQuery.php:162 but is not defined in the file. The model therefore takes it as a
  function-typed parameter (`InBuilder`) that may return any string or any failure. Its output
  format is not modelled.
- **Arrays printed as strings.** When `implode` prints an array operand that was never
  compiled, PHP gives `"Array"`. The model does the same in WILD and in simple operators.
- **Two search objects.** The search object given to `one`/`all`/`count` (`Target(db)`) can
  differ from `getSearch()` (`search`), which is the object `buildOrderBy` sorts. The
  postconditions cover both the aliased and the separate case.

Behaviour of the code that a reader might not expect:

- `setCondition` passes the raw `limit` and `offset` to `setLimit` (ActiveQuery.php:117),
  including null limits and zero offsets. It does not go through `hasLimit`/`hasOffset`.
- A non-empty hash whose values are all null compiles to `"()"`, not to `""`.
- WILD's empty test keeps a null operand, so WILD of a single null gives `""` by the other
  path: the raw operands are printed and they print empty.

## Model

| member | source | states |
|---|---|---|
| `Conditions.HandlerFor` | ActiveQuery.php:84-91 | no contract of its own: the `$conditionBuilders` lookup with the simple builder as fallback (lines 139-143); InDelegates, NotArity, WildRaw and UnknownOperatorPassThrough state what each entry leads to |
| `Conditions.BuildCondition` | ActiveQuery.php:130-149 | no contract of its own: its properties are stated by LiteralAndEmpty, OperatorCaseInsensitive, FailsOnlyOnNotArity, InBuilderIrrelevant and the per-operator lemmas below |
| `ConditionProperties.LiteralAndEmpty` | ActiveQuery.php:130-135 | a non-array condition compiles to its string cast and the empty array to "", neither failing |
| `ConditionProperties.OperatorCaseInsensitive` | ActiveQuery.php:137-145 | the operator is upper-cased before lookup, so an operator and its upper-cased spelling compile identically |
| `ConditionProperties.UnknownOperatorPassThrough` | ActiveQuery.php:139-145 | an operator missing from the builder table yields `OP a b ...` with the operands uncompiled, and never fails |
| `ConditionProperties.InDelegates` | ActiveQuery.php:84-91 | IN and NOT IN hand the upper-cased operator and the unchanged operands to the IN builder |
| `ConditionProperties.InBuilderIrrelevant` | ActiveQuery.php:130-170 | a condition with no reachable IN operator and no array hash value compiles the same under any IN builder |
| `ConditionProperties.FailsOnlyOnNotArity` | ActiveQuery.php:271-274 | with an IN builder that never fails, compilation fails exactly when some reachable NOT has an operand count other than one, and then with that arity error |
| `ConditionProperties.PartsFailOnlyOnNotArity` | ActiveQuery.php:248-255 | the operand loop of AND/OR and WILD fails exactly when some operand has a bad NOT, with the arity error |
| `Conditions.CompiledParts` | ActiveQuery.php:247-255 | the operand loop keeps at most one part per operand |
| `ConditionProperties.PartsEmptyIff` | ActiveQuery.php:247-256 | the operand loop keeps no part exactly when every operand is dropped |
| `ConditionProperties.PartsFirstError` | ActiveQuery.php:248-251 | the operand loop fails with the failure of the first operand that fails |
| `ConditionProperties.PartsAppend` | ActiveQuery.php:248-255 | the loop over two operand lists in sequence is the first failure or the concatenation of their parts |
| `Conditions.BuildAndCondition` | ActiveQuery.php:256-260 | the AND/OR output is "" exactly when there are no parts, and is otherwise enclosed in parentheses |
| `ConditionProperties.AndEmptyIff` | ActiveQuery.php:246-261 | AND/OR compile to "" exactly when every operand is dropped |
| `ConditionProperties.AndDropsOperand` | ActiveQuery.php:252-254 | inserting a dropped operand anywhere leaves the AND/OR output unchanged |
| `ConditionProperties.AndFirstError` | ActiveQuery.php:248-251 | AND/OR fail with the failure of their first failing operand |
| `ConditionProperties.AndSingle` | ActiveQuery.php:257 | one kept operand gives `(a)` |
| `ConditionProperties.AndConcat` | ActiveQuery.php:257 | the chain is flat: two non-empty AND/ORs over xs and ys combine, over xs + ys, into their outputs joined by ` OP ` with no extra parentheses |
| `ConditionProperties.AndThree` | ActiveQuery.php:246-261 | three non-empty literals give `(a) OP (b) OP (c)` with OP the upper-cased operator |
| `ConditionProperties.KeptButPrintsEmpty` | ActiveQuery.php:252-253 | the scalars kept by the `!== ''` test that still print as "" are exactly null and false |
| `ConditionProperties.OrKeepsNull` | ActiveQuery.php:252 | a null operand is not dropped (the test is `!== ''`) and becomes `()` |
| `Conditions.BuildNotCondition` | ActiveQuery.php:280-284 | NOT's output is "" exactly when its single operand is dropped |
| `ConditionProperties.NotArity` | ActiveQuery.php:272-274 | NOT with zero or several operands fails with "Operator 'NOT' requires exactly one operand." |
| `ConditionProperties.NotSingle` | ActiveQuery.php:276-284 | NOT of one operand propagates its failure, gives "" when it is dropped, and otherwise `NOT (operand)` |
| `Conditions.BuildWildCondition` | ActiveQuery.php:304-308 | a non-empty WILD output implies some part was kept, and a single kept operand is printed as given (an array as "Array"), not in its compiled form |
| `ConditionProperties.WildRaw` | ActiveQuery.php:294-309 | WILD compiles to "" when every operand is dropped and otherwise to the original, uncompiled operands joined with spaces |
| `ConditionProperties.WildEmitsArray` | ActiveQuery.php:305 | a composite operand of WILD is emitted as "Array", not as its compiled form |
| `ConditionProperties.WildKeepsEmptyInOutput` | ActiveQuery.php:305 | an empty-string operand of WILD still appears in the output, leaving a double space |
| `Conditions.BuildSimpleCondition` | ActiveQuery.php:311-313 | the simple builder's output starts with the operator and a space |
| `Conditions.BuildHashCondition` | ActiveQuery.php:157-170 | no contract of its own: HashPartsCount, HashSkipsNull, HashAllNull, HashSingleBare, HashTwoColumns and HashArrayUsesIn state its behaviour |
| `Conditions.HashPart` | ActiveQuery.php:160-166 | a pair yields no part when its value is null and exactly one part otherwise |
| `Conditions.HashParts` | ActiveQuery.php:158-168 | the hash loop yields at most one part per pair |
| `ConditionProperties.HashPartsCount` | ActiveQuery.php:158-168 | the hash loop yields exactly one part per non-null pair |
| `ConditionProperties.HashPartsAppend` | ActiveQuery.php:159-168 | the hash loop over two pair lists in sequence is the first failure or the concatenation of their parts |
| `ConditionProperties.HashSkipsNull` | ActiveQuery.php:164-166 | a null-valued pair contributes nothing wherever it stands |
| `ConditionProperties.HashPartsAllNull` | ActiveQuery.php:164-166 | a hash whose values are all null yields no parts |
| `ConditionProperties.HashAllNull` | ActiveQuery.php:169 | a non-empty hash whose values are all null compiles to "()" |
| `ConditionProperties.HashScalarParts` | ActiveQuery.php:159-167 | scalar non-null values give one `column:value` part per pair, in order |
| `ConditionProperties.HashSingleBare` | ActiveQuery.php:169 | exactly one part is returned without parentheses |
| `ConditionProperties.HashTwoColumns` | ActiveQuery.php:157-170 | two scalar columns give `(c1:v1) AND (c2:v2)` |
| `ConditionProperties.HashArrayUsesIn` | ActiveQuery.php:160-162 | an array value is compiled by the IN builder as `IN [column, value]`, its failure propagated |
| `Conditions.BuildWhere` | ActiveQuery.php:177-181 | buildWhere is buildCondition unchanged |
| `Query.Ascending` | ActiveQuery.php:194 | no contract of its own: the flag `direction !== SORT_DESC` (also line 199); SortFlags and SortCalls state where it is sent |
| `Query.SortFlags` | ActiveQuery.php:197-200 | the multi-sort argument has one entry per orderBy column, in order, with the flag "direction is not SORT_DESC" |
| `Query.SortCalls` | ActiveQuery.php:187-202 | no sort call for an empty orderBy, one setSort for one column, one setMultiSort over all columns for two or more |
| `Query.SortRule` | ActiveQuery.php:192-202 | single-sort and multi-sort are never both called, and multi-sort names the columns in order |
| `Query.ActiveQuery.BuildOrderBy` | ActiveQuery.php:187-205 | getSearch() receives exactly the calls of SortCalls and nothing else |
| `Paging.HasLimit` | ActiveQuery.php:226-228 | no contract of its own: OffsetIsLimit, ZeroIsLimitNotOffset, NeverEffective, DecimalStringAgrees and NegativeStringIneffective state which values it accepts |
| `Paging.HasOffset` | ActiveQuery.php:235-237 | no contract of its own: the same lemmas, with PaddedZeroIsOffset |
| `Paging.EffectiveOffset` | ActiveQuery.php:213-215 | the offset buildLimit sends is always an effective limit value (a non-negative integer or a digit string), is the configured offset or 0, and is effective exactly when the configured one is |
| `Paging.EffectiveOffsetIdempotent` | ActiveQuery.php:213-215 | normalising the offset twice changes nothing |
| `Paging.OffsetIsLimit` | ActiveQuery.php:226-237 | every effective offset is also an effective limit |
| `Paging.ZeroIsLimitNotOffset` | ActiveQuery.php:226-237 | the values that are effective limits but not effective offsets are exactly 0 and "0" |
| `Paging.NeverEffective` | ActiveQuery.php:226-237 | null, booleans, negative integers and "" are neither an effective limit nor an effective offset |
| `Paging.PaddedZeroIsOffset` | ActiveQuery.php:236 | "00" counts as an effective offset, since only the string "0" is excluded |
| `Paging.DecimalStringAgrees` | ActiveQuery.php:226-237 | a natural number and its decimal string are equally effective as limit and as offset |
| `Paging.NegativeStringIneffective` | ActiveQuery.php:227 | the decimal string of a negative integer is not an effective limit or offset |
| `Query.ActiveQuery.BuildLimit` | ActiveQuery.php:212-219 | setLimit is called on getSearch() only for an effective limit, with the offset replaced by 0 when it is not effective |
| `Query.ActiveQuery.SetCondition` | ActiveQuery.php:115-121 | the raw limit and offset go to the given search object, the sort to getSearch(), then the compiled condition to `$query` and to setQuery; a failed compile stops before setQuery |
| `Search.Executor.SetLimit` | ActiveQuery.php:117 | the trace grows by exactly one LimitCall with the arguments given |
| `Search.Executor.SetSort` | ActiveQuery.php:194 | the trace grows by exactly one SortCall with the arguments given |
| `Search.Executor.SetMultiSort` | ActiveQuery.php:201 | the trace grows by exactly one MultiSortCall with the argument given |
| `Search.Executor.SetQuery` | ActiveQuery.php:120 | the trace grows by exactly one QueryCall with the query given |
| `Search.Executor.Search` | ActiveQuery.php:340 | returns the scripted results and records one SearchCall |
| `Search.Executor.Count` | ActiveQuery.php:390 | returns the scripted total and records one CountCall |
| `Query.DocRows` | ActiveQuery.php:341-346 | at most one row per result |
| `Query.DocRowsAppend` | ActiveQuery.php:342-346 | rows of two result lists in sequence are the concatenation of their rows |
| `Query.DocRowsAllDocuments` | ActiveQuery.php:342-346 | when every result is a document, each gives its fields as a row, in order |
| `Query.DocRowsMembership` | ActiveQuery.php:343-344 | a row is kept exactly when a document with those fields is among the results |
| `Query.ActiveQuery.Fetch` | ActiveQuery.php:339-346 | shared by one and all: the request prepared on the chosen search object, one search call, and the rows of the documents found; a compile failure stops before searching |
| `Query.CollectRows` | ActiveQuery.php:341-346 | the filtering loop of one/all computes DocRows |
| `Query.ActiveQuery.CreateModels` | ActiveQuery.php:348-353 | every row is hydrated in order, and afterFind runs on each model unless asArray |
| `Query.ActiveQuery.One` | ActiveQuery.php:333-357 | limit becomes 1, the request is prepared with limit 1, and the first hydrated row is returned or None when no document is found; a compile failure is returned before searching |
| `Query.ActiveQuery.All` | ActiveQuery.php:359-382 | every hydrated row in result order, or [] when none; a compile failure is returned before searching |
| `Query.ActiveQuery.Count` | ActiveQuery.php:384-391 | the prepared request followed by one count call whose result is returned; nothing is searched and no afterFind runs |
| `Query.ActiveQuery.Exists` | ActiveQuery.php:393-395 | always fails with NotSupported |
| `Query.ActiveQuery.FindFor` | ActiveQuery.php:397-399 | always fails with NotSupported |
| `Query.ActiveQuery.Via` | ActiveQuery.php:401-403 | always fails with NotSupported |

## Left out

- Connection.php: connection bootstrapping, `.ini` path resolution through `Yii::getAlias`, and the swallowed `XSException`. This is I/O and foreign calls.
- Database.php: the reflective `__call` proxy onto the XS, XSIndex and XSSearch objects. It has no logic of its own.
- ActiveRecord.php: `insert`, `update`, `delete`, `deleteAll` and `fetchPks`. These are framework validation, dirty-attribute tracking, hooks and index writes.
- The body of `buildInCondition`: it is not defined in the source. It is a parameter, and its output format and failures are left open.
- `createModels`, `populateRecord`, `indexBy` and `with`: these are Yii framework code. Hydration is the abstract `populate` function, and afterFind is recorded as a log of the models it ran on, not as an event.
- `init`, `EVENT_INIT`, the `modelClass` constructor argument, and the `getDb()`/`getSearch()` lookup: these are framework internals. `getSearch()` is the `search` field.
- The `$params` accumulator: it is threaded through every builder but never written.
- PHP array details outside the tagged union: integer hash keys, an element 0 that is null (which `isset` treats as absent), and `array_shift` on arrays that are not lists.
- Floats, objects and resources as condition values. PHP's 64-bit integer overflow in the string cast is not modelled either; integers are unbounded.
- Under Yii's error handler, the "Array to string conversion" notice raised when `implode` prints an array may become an exception. The model returns "Array".
- Failures of the search object itself (network, server errors): the executor never fails.
- `strtoupper` is modelled for ASCII letters only.
- Repeated column names are outside the source's domain: `orderBy` and the hash pairs are sequences, so they could name a column twice, but a PHP array cannot. `count($columns)` and `$multiSort[$name]` assume unique keys.
- `count`'s `$q` argument is accepted and ignored, as in the source.
- Actual search execution and transport to the Xunsearch server: the executor answers from a fixed script.
