# Moonwater SELECT compiler, translation cache and select pipeline

This project models, in Dafny, the query side of Moonwater (Go package
`fastsql`):

- the SELECT query builder `SQLSelectQueryGenerator`, which records joins,
  selection items, a from-table, where predicates and a limit;
- its `Compile` method, which produces placeholder text and an ordered
  argument list;
- the driver's closed set of where operators and its always-empty `done`
  cursor;
- the query manager's translation cache (`handleTranslationCache`);
- `Select`'s filter constructors, its filter-routing loop, and its compile,
  translate, query and close pipeline.

Compiled text is a sequence of tokens, either literal text `Lit(s)` or a
placeholder `Ph(k)`. `Render` turns the tokens into the query string, with a
natural-number-to-decimal function standing in for `strconv.Itoa`. The meaning
of a compiled query is read from its token sequence by `Placeholders.Bind`,
which replaces each placeholder token `$k` with `args[k-1]` and keeps every
literal as it is. It fails when a marker names no argument.

The main result compares this meaning with `Correspondence.Intended`. That is a
counter-free reference rendering of the generator with every argument written
in place. With the where counter advancing by two (`Compiler.CompileCorrected`),
the two always agree. As written (`Compiler.Compile`, which advances by three),
they agree exactly when there is at most one where predicate. See "Findings".

Modules, one per file:

- `Wrappers`: `Option` and `Result`.
- `Decimal`: `strconv.Itoa` for naturals, with its inverse.
- `Driver`: values, errors, operators and the done cursor.
- `Placeholders`: tokens, rendering and binding.
- `QueryBuilder`: the generator and its builder calls.
- `Compiler`: `Compile`.
- `Correspondence`: the reference rendering and the correspondence proofs.
- `CompileVectors`: the expected outputs of the builder tests.
- `TranslationCache`: the translation cache.
- `Select`: the `select.go` pipeline.

Behaviour of the code worth noting:

- Placeholder numbers do not ascend in text order. With joins, the
  from-table's marker (`$5` when no column is selected, `$(2c+5)` with `c`
  column items) is printed before the first join's own four markers. What
  holds is that each `$k` stands for `args[k-1]`.
- A join's `ON` clause uses the join's own `FromTable` argument. The
  from-table value is appended once, right after the first join's four values.
- The where counter advances by three per predicate, although each predicate
  takes two arguments (see "Findings").

## Model

| member | source | states |
|---|---|---|
| Decimal.ParseDecimalString | driver/sql_query_builders.go:125-129 | the decimal text that stands in for `strconv.Itoa` reads back as the number it was made from |
| Decimal.DecimalStringInjective | driver/sql_query_builders.go:125-129 | different marker numbers give different marker texts |
| Driver.OperatorsClosed | driver/driver.go:7-14 | there are exactly six where operators, each spelled differently, and parsing an operator's spelling gives the operator back |
| Driver.ParseOperatorExact | driver/driver.go:7-14 | the spellings that name an operator are exactly "=", "<>", "<=", ">=", ">", "<" |
| Driver.DoneCursorInert | driver/driver.go:77-86 | in any sequence of calls on the cursor `DoneQueryResult` hands out, every `Next` is false and every `Scan` and `Close` returns no error |
| Placeholders.BindMeaning | driver/driver.go:45-47 | binding succeeds exactly when every marker names an argument, and then each `$k` becomes `args[k-1]` and each literal stays as it is |
| Placeholders.TrimEnd | driver/sql_query_builders.go:132-135 | the trimmed tokens render to the original text with its last `n` characters removed |
| QueryBuilder.NewGenerator | driver/sql_query_builders.go:35-43 | a fresh generator has no joins, selection items or predicates, an empty from-table and limit -1 |
| QueryBuilder.JoinKeywords | driver/sql_query_builders.go:159-170 | the join tags 0 to 3 give INNER JOIN, LEFT JOIN, RIGHT JOIN and FULL OUTER JOIN, and different kinds give different keywords |
| QueryBuilder.InnerJoin | driver/sql_query_builders.go:45-53 | appends one join of kind inner with the given tables and keys; no other field changes |
| QueryBuilder.LeftJoin | driver/sql_query_builders.go:55-63 | appends one join of kind left; no other field changes |
| QueryBuilder.RightJoin | driver/sql_query_builders.go:65-73 | appends one join of kind right; no other field changes |
| QueryBuilder.FullJoin | driver/sql_query_builders.go:75-83 | appends one join of kind full; no other field changes |
| QueryBuilder.SelectColumn | driver/sql_query_builders.go:85-90 | appends one column item (table, column); no other field changes |
| QueryBuilder.SelectRaw | driver/sql_query_builders.go:92-94 | appends one raw item; no other field changes |
| QueryBuilder.From | driver/sql_query_builders.go:96-98 | overwrites the from-table; no other field changes |
| QueryBuilder.Limit | driver/sql_query_builders.go:100-102 | overwrites the limit; no other field changes |
| QueryBuilder.Where | driver/sql_query_builders.go:104-110 | appends one predicate (column, operator, value); no other field changes |
| QueryBuilder.ReplayAppends | driver/sql_query_builders.go:45-110 | after any sequence of builder calls, the joins, selection items and predicates are those the calls requested, in call order |
| QueryBuilder.ReplayFromLastWins | driver/sql_query_builders.go:96-98 | after any sequence of calls, the from-table is the one the last `From` set, or empty if there was none |
| QueryBuilder.ReplayLimitLastWins | driver/sql_query_builders.go:100-102 | after any sequence of calls, the limit is the one the last `Limit` set, or -1 if there was none |
| Compiler.EmitWhereCounter | driver/sql_query_builders.go:182-189 | the where loop moves the counter by its stride once per predicate and ends on the last predicate's value marker |
| Compiler.Compile | driver/sql_query_builders.go:112-196 | the argument count is two per column item, plus one and four per join when there is a from-table, plus two per predicate |
| Compiler.CompileCorrected | driver/sql_query_builders.go:112-196 | the same argument count as `Compile`, with the where counter advancing by two |
| Correspondence.SelectionPhase | driver/sql_query_builders.go:113-136 | the selection phase leaves the counter one past its arguments, its arguments are each column item's table and column in order, and its markers bind to "SELECT" followed by the items separated by ", " (bare "SELECT" when there are none) |
| Correspondence.JoinLoop | driver/sql_query_builders.go:145-176 | the join loop gives the left-deep nesting: the from-table and first join bare, each later join wrapping the text so far in one pair of parentheses, and each join's four values appended in call order with the from-table after the first join's |
| Correspondence.FromPhase | driver/sql_query_builders.go:137-178 | with no from-table nothing is emitted and joins are ignored; with one and no joins "FROM $k" binds to the from-table; with joins the nesting above follows " FROM " |
| Correspondence.WherePhaseBinds | driver/sql_query_builders.go:179-190 | with the counter advancing by two, each predicate's markers bind to its column and value and predicates are separated by " AND " |
| Correspondence.LimitBinds | driver/sql_query_builders.go:191-194 | " LIMIT n" is added only for a positive limit and takes no argument |
| Correspondence.CorrectedCorrespondence | driver/sql_query_builders.go:112-196 | with the counter advancing by two, the arguments are the reference list and every marker `$k` of the text stands for `args[k-1]`, giving the intended query |
| Correspondence.CompileArgs | driver/sql_query_builders.go:114-190 | as written, the arguments are the selected columns' table and column, then the join and from-table values, then each predicate's column and value |
| Correspondence.StrideIrrelevant | driver/sql_query_builders.go:182-189 | with at most one predicate the counter's advance is never read, so the as-written and corrected compilers agree |
| Correspondence.JoinsNeedFrom | driver/sql_query_builders.go:137-178 | without a from-table the joins have no effect on the text or the arguments |
| Correspondence.WhereGap | driver/sql_query_builders.go:186-188 | as written, with two or more predicates the last value marker is past the end of the arguments, so the text has no meaning |
| Correspondence.CompileCorrespondence | driver/sql_query_builders.go:112-196 | as written, the text binds to the intended query if and only if there is at most one predicate |
| CompileVectors.EmptyBuilderVector | driver/sql_query_builders_test.go:5-14 | a fresh builder compiles to "SELECT" with no arguments |
| CompileVectors.SelectRawVector | driver/sql_query_builders_test.go:16-26 | a raw "1" compiles to "SELECT 1" with no arguments |
| CompileVectors.FromVector | driver/sql_query_builders_test.go:28-39 | adding a from-table gives "SELECT 1 FROM $1" with the table as the one argument |
| CompileVectors.WhereVector | driver/sql_query_builders_test.go:41-53 | adding `a = b` gives "SELECT 1 FROM $1 WHERE $2 = $3" with three arguments |
| CompileVectors.LimitVector | driver/sql_query_builders_test.go:55-66 | a limit of 10 gives "SELECT 1 LIMIT 10" with no arguments |
| CompileVectors.SingleJoinVector | driver/sql_query_builders.go:145-176 | one join of any kind after a from-table gives "SELECT 1 FROM $5 KEYWORD $3 ON $1.$2 = $3.$4" with five arguments |
| CompileVectors.FullJoinVector | driver/sql_query_builders_test.go:68-80 | a full join gives "SELECT 1 FROM $5 FULL OUTER JOIN $3 ON $1.$2 = $3.$4" with five arguments |
| CompileVectors.InnerJoinVector | driver/sql_query_builders_test.go:82-94 | an inner join gives "SELECT 1 FROM $5 INNER JOIN $3 ON $1.$2 = $3.$4" with five arguments |
| CompileVectors.LeftJoinVector | driver/sql_query_builders_test.go:96-108 | a left join gives "SELECT 1 FROM $5 LEFT JOIN $3 ON $1.$2 = $3.$4" with five arguments |
| CompileVectors.RightJoinVector | driver/sql_query_builders_test.go:110-122 | a right join gives "SELECT 1 FROM $5 RIGHT JOIN $3 ON $1.$2 = $3.$4" with five arguments |
| CompileVectors.RightJoinWhereVector | driver/sql_query_builders_test.go:124-137 | a right join and a `<>` predicate give "SELECT 1 FROM $5 RIGHT JOIN $3 ON $1.$2 = $3.$4 WHERE $6 <> $7" with seven arguments |
| CompileVectors.MultiJoinVector | driver/sql_query_builders_test.go:139-154 | left, full and right joins with limit 10 give "SELECT 1 FROM (($5 LEFT JOIN $3 ON $1.$2 = $3.$4) FULL OUTER JOIN $8 ON $6.$7 = $8.$9) RIGHT JOIN $12 ON $10.$11 = $12.$13 LIMIT 10" with thirteen arguments |
| CompileVectors.TwoPredicateVector | driver/sql_query_builders.go:179-190 | as written, two predicates give "SELECT WHERE $1 = $2 AND $4 = $5" with four arguments, and the text has no meaning |
| CompileVectors.TwoPredicateCorrected | driver/sql_query_builders.go:179-190 | with the counter advancing by two, the same calls give "SELECT WHERE $1 = $2 AND $3 = $4" with the two columns and values as arguments |
| TranslationCache.Handle | query_manager.go:16-27 | a hit returns the cached translation, leaves the cache alone and does not call `Translate`; a miss calls it; its error is returned and nothing is stored; its success is stored under the statement and returned |
| TranslationCache.HandleThenHit | query_manager.go:16-27 | after a successful lookup, looking up the same statement again is a hit with the same translation |
| TranslationCache.HandleTransparent | query_manager.go:16-27 | when every cached entry is what `Translate` gives for its key, a lookup returns what `Translate` returns, and the cache keeps that property |
| TranslationCache.Evict | query_manager.go:35 | the cache may drop entries: what remains is a sub-map of what was there |
| TranslationCache.TranslatedOnce | query_manager.go:16-27 | over a run of lookups in which every translation succeeds, the number of `Translate` calls equals the number of distinct statements the starting cache lacked |
| TranslationCache.HandleAllTransparent | query_manager.go:16-27 | a run of lookups over such a cache answers, statement by statement, what `Translate` answers |
| TranslationCache.EvictingTransparent | query_manager.go:16-35 | the same holds whatever entries the cache drops before each lookup |
| Select.GoInt | select.go:18-20 | the `int(n)` conversion keeps the 64 bits and reads them as two's complement |
| Select.LimitFilter | select.go:18-20 | a limit filter has an empty column, operator and value, and the count itself as its limit when that fits in an `int` |
| Select.LimitFilterWraps | select.go:18-20 | a limit filter counts as a where filter exactly when its count is the largest `uint`, which converts to -1 |
| Select.Comparison | select.go:22-50 | a comparison filter is a where filter that carries the given column and value and spells the given operator |
| Select.ComparisonFilters | select.go:22-50 | `Equal` to `LessThan` carry "=", "<>", "<=", ">=", ">" and "<" in turn, each with the given column and value |
| Select.Route | select.go:80-91 | the routing loop does not touch joins, selection or the from-table |
| Select.RouteMeaning | select.go:80-91 | the loop appends where filters as predicates in filter order and, for a slice destination only, sets the limit from the last limit filter |
| Select.SelectBuilder | select.go:53-91 | the builder `Select` compiles has no from-table, no joins and no selection |
| Select.SelectArgs | select.go:78-94 | `Select`'s arguments are the where filters' columns and values in order, and every marker of its text stands for the argument it should |
| Select.SelectAsWritten | select.go:93-94 | with `Compile` as written, the statement `Select` compiles equals the corrected one when there is at most one where filter, and has no meaning (a marker names no argument) when there are two or more |
| Select.QueryAndClose | select.go:100-106 | a query error is returned as is; otherwise the cursor's `Close` result is returned |
| Select.SelectErrors | select.go:93-106 | the compiled text is what gets translated and the compiled arguments are what the query receives with the translation; a translation error is returned as is and no query runs; then the query runs on the compiled arguments and its error, or the close result, is returned |
| Select.SelectTransparent | select.go:93-106 | with a cache that agrees with `Translate`, `Select` returns what it would without the cache, and the cache still agrees |
| Select.SelectDone | select.go:93-106 | with a backend whose queries return the done cursor, `Select` succeeds exactly when the statement translates |

## Left out

- `postgres/postgres.go` is not part of this model. It is a thin wrapper over `database/sql` and the PostgreSQL driver, with nothing to state beyond foreign calls.
- The internals of the time-and-size-bounded cache library: expiry, weights, capacity and LRU order, and the constructor constants at `query_manager.go:35`. Eviction is modelled as the loss of an arbitrary set of entries before a lookup (`TranslationCache.Evict`).
- `NewQueryManager` and its `DriverInit` callback: connection setup is I/O.
- The reflection on the destination at `select.go:58-76`. Only its one used result, whether the destination is a slice, is kept, as the `isArray` parameter.
- The unfinished row delivery at `select.go:105-106`: the model only queries and closes, as the code does.
- The driver's `Exec`, and `Scan` into Go pointers. Values are a closed sum type in place of `interface{}`.
- Concurrent use of one query manager and its cache.
- The argument slice's capacity hint at `driver/sql_query_builders.go:114`, which has no effect on the result.
- `Compile` leaves the generator unchanged and gives the same result every time. This holds because it is a function of the generator; it needs no separate lemma.
- TranslationCache.Handle: the driver's `Translate` is a function parameter, so it is assumed to give the same answer for the same statement.
- Select.SelectArgs: it is stated for the pipeline as modelled, which compiles with the corrected where counter (`Compiler.CompileCorrected`, also used by `Select.SelectQuery`). `select.go:94` calls `Compile` as written; for that program the same meaning holds only with at most one where filter, and with two or more the text has no meaning. `Select.SelectAsWritten` proves both halves.
- Placeholders.BindMeaning: meaning is read from the token sequence, not from the rendered string. A raw selection item or an operator spelling (Go's `WhereOperator` is a plain string) that contains `$` and digits renders like a marker but is a literal to `Bind`; the model does not promise that the rendered text alone determines which `$k` are markers.
- Select.SelectBuilder: `Select` asks the driver for its builder (`NewSelectQueryBuilder`, `driver/driver.go:65`); the model uses this package's generator (`QueryBuilder.NewGenerator`), which is what the one driver in the repository returns. Other drivers' builders are not modelled.
- Select.GoInt: Go leaves the width of `uint` and `int` to the platform; the model takes both as 64 bits.
- CompileVectors.MultiJoinVector: the expected query text is written as a concatenation of five string pieces whose characters are exactly the test's string.

## Findings

| source | as written | input that shows it | evidently intended | confidence | as-written member | corrected member |
|---|---|---|---|---|---|---|
| driver/sql_query_builders.go:188 | the where loop advances the placeholder counter by 3 per predicate, but each predicate appends only 2 arguments | `Where("a", =, 1)` then `Where("b", =, 2)` on a fresh builder: text "SELECT WHERE $1 = $2 AND $4 = $5" with 4 arguments, so `$5` names no argument and `$4` names the wrong one | advance by 2, giving "SELECT WHERE $1 = $2 AND $3 = $4" | not executed | Correspondence.WhereGap, CompileVectors.TwoPredicateVector | Compiler.CompileCorrected, Correspondence.CorrectedCorrespondence, CompileVectors.TwoPredicateCorrected |
