# knex-flex-filter: the filter compiler, modelled in Dafny

knex-flex-filter turns a flat filter object such as
`{ ownerId_gt: 2, name_eq: "x" }` into raw SQL predicates on a knex query
builder. It has three steps:

1. Every key ends in an operator token (`eq`, `gt`, `lt`, `not_in`, `in`,
   `not`, `gte`, `lte`). The first token in catalogue order that ends the key
   wins.
2. The column part of the key goes through a preprocessor. The default one
   produces a sanitized, double-quoted identifier. The JSONB one produces
   `container->>'field'`. Callers may also supply their own.
3. An optional cast function names a type. The type must be on the `dbTypes`
   allow-list. A non-empty type wraps the expression as `(expr)::type`.

The fragment is then `expr <template>`, for example `"ownerId" > ?`. It is
appended with `whereRaw(fragment, [value])`.

The model has one file per concern:

- `js_strings.dfy` (`JsStrings`): the JavaScript string built-ins the code relies on: `endsWith`, `indexOf`, and `substring` with its argument clamping.
- `operators.dfy` (`Operators`): the operator catalogue `filterArray`, the `conditionMap` templates and the `dbTypes` allow-list.
- `identifiers.dfy` (`Identifiers`): `sanitize` and the two built-in preprocessors.
- `filters.dfy` (`Filters`): `splitColumnAndCondition`, the cast check and `processFilter`.
- `knex_flex_filter.dfy` (`FlexFilter`): the query builder as a class holding its list of raw statements, and `knexFlexFilter` as a method whose loop walks the filter's keys. The loop is proved against the pure function `Compile`. `Compile` gives the statements a run appends and the error that stops it.
- `test_vectors.dfy` (`TestVectors`): the SQL text and bindings the library's test-suite expects, derived from the model.

The key is split where the operator token FIRST occurs. The column is
`key.substring(0, key.indexOf(token) - 1)`. An end-anchored split would
strip the matched suffix and its separator; the code instead cuts at the
token's first occurrence. The model follows the code. `Filters.ColumnIsEndAnchoredStripIff` states
exactly when the two readings agree. `Filters.FirstOccurrenceMisSplit`
gives a key on which they differ: `frequency_eq` filters on column `f`.

## Model

| member | source | states |
|---|---|---|
| JsStrings.EndsWithIff | src/index.js:60 | `key.endsWith(token)` holds exactly when the key is some string followed by the token. |
| JsStrings.IndexOf | src/index.js:67 | `key.indexOf(token)` is -1 exactly when the token occurs nowhere. Otherwise it is an occurrence and no occurrence lies before it. |
| JsStrings.IndexOfFrom | src/index.js:67 | `indexOf` returns -1 only when there is no occurrence at or after the start. Otherwise it returns an occurrence, and none lies before it. |
| JsStrings.IndexOfSuffix | src/index.js:67 | If the key ends with the token, `indexOf` finds the token at or before the suffix position. |
| JsStrings.IndexOfFromScan | src/index.js:67 | The scan stops at the first position where the token occurs. No earlier position may start with the token's first two characters. |
| JsStrings.Substring | src/index.js:67 | `substring` returns the slice of the string between its two bounds, clamped to `[0, length]` and taken in increasing order: the result occurs at the smaller clamped bound and is as long as the distance between them. |
| JsStrings.SubstringPrefix | src/index.js:67 | `substring(0, end)` is the prefix of the string up to the clamped end, so a negative end gives the empty string. |
| Operators.Operator.Token | src/index.js:1-8 | Each operator's suffix token is two to six characters long. |
| Operators.Operator.Template | src/index.js:21-30 | Each `conditionMap` template starts with a comparison (`=`, `<` or `>`) and is at least three characters long. |
| Operators.Position | src/index.js:10-19 | Every operator has a slot in `filterArray` that holds it. |
| Operators.CatalogueIsComplete | src/index.js:10-30 | Every operator is in `filterArray`. No two operators share a token, so `conditionMap` is a function of the token. |
| Operators.TemplateHasOnePlaceholder | src/index.js:21-30 | Every `conditionMap` template holds exactly one `?` and no quote character. |
| Operators.TokenSuffixPairs | src/index.js:1-19 | If one token is a suffix of another, the two are the same token, or the pair is `in` and `not_in`. |
| Identifiers.Sanitize | src/index.js:52 | `sanitize` yields only `[A-Za-z0-9_]` characters and is never longer than its input. |
| Identifiers.SanitizeConcat | src/index.js:52 | `sanitize` distributes over concatenation. |
| Identifiers.SanitizeIsSubsequence | src/index.js:52 | The output is a subsequence of the input: characters are only deleted, never reordered. |
| Identifiers.SanitizeCounts | src/index.js:52 | Each allowed character is kept as often as it occurs, and every other character is dropped. |
| Identifiers.SanitizeFixesClean | src/index.js:52 | `sanitize(s) == s` exactly when `s` is already clean. |
| Identifiers.SanitizeIdempotent | src/index.js:52 | Sanitizing twice equals sanitizing once. |
| Identifiers.CleanHasNoSpecials | src/index.js:52 | A clean string holds no `?`, `"` or `'`. |
| Identifiers.QuotedIdentifier | src/index.js:54 | The default preprocessor output is a double quote, then exactly `sanitize(column)`, then a double quote. |
| Identifiers.JsonbField | src/index.js:56 | The JSONB preprocessor output is exactly `sanitize(jsonbColumn)`, then `->>'`, then `sanitize(column)`, then a closing `'`. |
| Identifiers.Preprocess | src/index.js:75 | `preprocessor(column)`: the default wraps the sanitized column in double quotes, the JSONB one yields the sanitized container, `->>'`, the sanitized column and `'`, and a caller's function is applied to the column as it is. |
| Identifiers.BuiltInPreprocessorIsInert | src/index.js:54-56 | For any column, a built-in preprocessor's output holds no `?`. It holds exactly two `"` for the default and exactly two `'` for JSONB. |
| Filters.FirstSuffixIndex | src/index.js:60 | `find` stops at the first catalogue entry whose token ends the key, or runs past the end when there is none. |
| Filters.FindOperator | src/index.js:60 | `filterArray.find` yields an operator whose token ends the key, and yields nothing only when no catalogue token ends the key. |
| Filters.FindOperatorAt | src/index.js:60 | If entry `i` ends the key and no earlier entry does, entry `i` is the chosen operator. |
| Filters.SplitColumnAndCondition | src/index.js:58-70 | It fails, naming the key, exactly when no token ends the key. Otherwise the condition is the chosen operator. The column is a prefix of the key whose length is one less than the token's first occurrence (0 when that is 0). |
| Filters.IsDbType | src/index.js:81 | An answer that passes `dbTypes.includes` is a string made only of identifier characters, at most ten long. |
| Filters.ApplyCast | src/index.js:79-85 | Fails exactly when a cast function is given and its answer is not in `dbTypes`, and reports that answer. The expression is unchanged exactly when there is no cast function or the answer is `''`. Otherwise the result is `(expr)::type` with `type` a non-empty allowed type. |
| Filters.ProcessFilter | src/index.js:72-88 | An unparsable key yields the invalid-filter error. A successful fragment ends with a space and the chosen operator's template. |
| Filters.ProcessFilterShape | src/index.js:72-88 | For a key that parses, rendering fails exactly when the cast check fails. Otherwise the fragment is the preprocessed column, cast-wrapped when the cast is non-empty, then a space and the template. |
| Filters.ChosenOperatorIsMostSpecific | src/index.js:60 | Every token that ends the key is a suffix of the chosen token, so the longest applicable token wins. |
| Filters.NotInWinsOverIn | src/index.js:14-15 | A key ending in `not_in` selects `not_in`, never `in`. |
| Filters.UnrecognisedSuffixIsRejected | src/index.js:62-64 | A key that ends in no token is rejected by both the split and the renderer, naming the key. |
| Filters.ColumnIsEndAnchoredStripIff | src/index.js:67 | The column equals the key minus the token and one separator exactly when the token's first occurrence is the trailing one, or the key is at most one character longer than the token. |
| Filters.SplitAtTrailingToken | src/index.js:67 | If the chosen token occurs only at the end of the key, the column is the key without `_token`. |
| Filters.FirstOccurrenceMisSplit | src/index.js:67 | `frequency_eq` splits into column `f` and operator `eq`. |
| Filters.DbTypesAreClean | src/index.js:32-50 | Every allowed cast type is made of identifier characters. |
| Filters.CastWrapCount | src/index.js:84 | Casting to a clean type adds no `?` and no quote. |
| Filters.FragmentCount | src/index.js:87 | A fragment's `?` and quotes are those of its expression plus those of its template. |
| Filters.FragmentHasOnePlaceholder | src/index.js:72-88 | With a built-in preprocessor every fragment holds exactly one `?`, matching the single binding `[value]`. Its only quotes are the identifier's delimiters. |
| FlexFilter.QueryBuilder.constructor | tests/knex-flex-filter.test.js:30 | `knex.table('entities')`: a fresh builder for the named table, with no statements yet. |
| FlexFilter.QueryBuilder.WhereRaw | src/index.js:98 | `whereRaw` appends exactly one raw statement and returns the same builder. |
| FlexFilter.Options.Pre | src/index.js:92 | The preprocessor is the one given in `opts`, or `defaultPreprocessor()` when none is given. |
| FlexFilter.Compile | src/index.js:96-99 | A run never appends more statements than the filter has keys. |
| FlexFilter.CompileStopsAtFailure | src/index.js:96-99 | Once a key has thrown, later keys change nothing. |
| FlexFilter.CompileStep | src/index.js:96-99 | Processing one more key either appends `Raw(fragment, [value])` or stops with that key's error. |
| FlexFilter.CompileAllOk | src/index.js:96-99 | When every key renders, the run appends one statement per key, in key order, the i-th being the i-th fragment bound to `[value]`, and no error. An empty filter appends nothing. |
| FlexFilter.CompileFailsAtFirstBadKey | src/index.js:96-99 | When key `i` is the first that throws, the run reports that key's error after appending exactly the statements of keys `0..i-1`. |
| FlexFilter.CompileAppend | src/index.js:96-99 | When no earlier key has thrown and key `i` renders, the run over keys `0..i` is the run over keys `0..i-1` plus that key's statement, with no error. |
| FlexFilter.CompileStopsAt | src/index.js:96-99 | When no earlier key has thrown and key `i` throws, the whole run ends with the statements of keys `0..i-1` and key `i`'s error. |
| FlexFilter.ApplyFilterKey | src/index.js:96-99 | The `forEach` callback appends `Raw(fragment, [value])` for a key that renders and returns the same builder. For a key that throws it returns the key's error and leaves the builder unchanged. |
| FlexFilter.KnexFlexFilter | src/index.js:91-102 | The builder's statements become the old ones plus exactly what `Compile` appends, and nothing else in the builder changes. The result is the same builder, or the first error. |
| TestVectors.SplitOwnerIdEq | tests/knex-flex-filter.test.js:30 | `ownerId_eq` splits into `ownerId` and `eq`. |
| TestVectors.SplitOwnerIdGt | tests/knex-flex-filter.test.js:41 | `ownerId_gt` splits into `ownerId` and `gt`. |
| TestVectors.SplitOwnerIdNotIn | tests/knex-flex-filter.test.js:107 | `ownerId_not_in` splits into `ownerId` and `not_in`. |
| TestVectors.SplitLastBuyBlockNumberGt | tests/knex-flex-filter.test.js:145 | `lastBuyBlockNumber_gt` splits into `lastBuyBlockNumber` and `gt`. |
| TestVectors.SplitNameEq | src/index.js:58-70 | `name_eq` splits into `name` and `eq`. |
| TestVectors.OwnerIdEq | tests/knex-flex-filter.test.js:30-32 | With the tests' cast function, `ownerId_eq` renders `("ownerId")::bigint = ?`. |
| TestVectors.OwnerIdGt | tests/knex-flex-filter.test.js:41-43 | `ownerId_gt` renders `("ownerId")::bigint > ?`. |
| TestVectors.OwnerIdNotIn | tests/knex-flex-filter.test.js:107-109 | `ownerId_not_in` renders `("ownerId")::bigint <> ANY(?)`. |
| TestVectors.JsonbLastBuyBlockNumberGt | tests/knex-flex-filter.test.js:143-149 | Under `jsonbPreprocessor('data')`, `lastBuyBlockNumber_gt` renders `(data->>'lastBuyBlockNumber')::bigint > ?`. |
| TestVectors.UncastColumnIsRejected | src/index.js:79-83 | A column the cast function answers `undefined` for is rejected with the invalid-cast error. |
| TestVectors.MultipleFilters | tests/knex-flex-filter.test.js:117-130 | `{ ownerId_not_in: [1], ownerId_gt: 2 }` appends the two expected statements in key order, the array bound as one value, and no error. |
| TestVectors.MultipleFiltersOnBuilder | tests/knex-flex-filter.test.js:117-130 | On a fresh builder, the same call leaves exactly those two statements in `_statements`. |
| TestVectors.EmptyFilterOnBuilder | src/index.js:91-102 | An empty filter leaves a fresh builder with no statements. |

## Left out

- The text of error messages is not modelled. The two `Error` values record the offending key or cast answer. The listing of valid suffixes and types is not recorded.
- Bound values are approximated by the `Value` datatype. The model only passes them through, as the code does.
- A cast function answer that is not a string (a number, `null`, `undefined`) is modelled as `None`. All of them fail the `dbTypes.includes` check alike.
- Exceptions raised by a caller's own preprocessor or cast function are not modelled. Both are total functions here.
- The filter object is taken as a sequence of key/value pairs in `Object.keys` order. JavaScript's ordering of integer-like keys is not modelled.
- Strings are sequences of characters. UTF-16 code units and surrogate pairs are not distinguished. `sanitize`'s regular expression is modelled as its character class, applied one character at a time.
- The knex query builder is reduced to its table name and its statement list. SQL execution and knex's own statement objects are not modelled, and neither are the database results the tests check after running the query.
- `processFilter`'s `castFn` truthiness test is modelled as presence (`Option`). Falsy non-function values are not distinguished.
- Operators and features absent from `src/index.js` are not modelled:
  - `contains`, `starts_with`, `ends_with`, `similar_to` operators and their wildcard escaping
  - AND/OR groups
  - ILIKE case folding
  - `conditionMapper`
  - aggregate routing
  - per-column overrides
- The test vectors cover the `eq`, `gt` and `not_in` fragments, the JSONB `gt` fragment and the multiple-filter run. The other operators' tests differ from these only in the template. `Filters.ProcessFilterShape` covers them in general.
