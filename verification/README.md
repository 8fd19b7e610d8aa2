# Parameterised query construction of the SurrealDB query builder, in Dafny

This project models the query-construction core of the `surreal_orm` crates:

- the SELECT statement assembler (`QueryBuilder` with its order specs, the target, group, split and order normalisers, and its rendering);
- the graph-traversal `Clause` with its Node, Edge and Object wrappers and the any-other-edges filter;
- the `time::day` and `time::floor` function builders;
- the Relay-style slice pagination of the Star Wars example resolver.

Every value that reaches the database travels as a binding, and the query text refers to it through a placeholder such as `$_param_00000001`.

The binding counter behind `Binding::new` is a process-wide counter in the crate. Here it is an explicit `Allocator` value that construction calls take and hand back. Freshness of placeholders is therefore a theorem about the threading: `Bindings.NewBinding`, `Bindings.AllocManyFresh`, `Bindings.ParamInjective`.

Collaborators whose internals are not part of this model are each an opaque `Fragment` of text, bindings and errors. These are `Filter`/`cond`, `NumberLike`, `DbField` and `SelectStatement`.

The Rust builder mutates `&mut self`. Here it is an immutable record, and each builder call is a pure function.

Modules:

| file | module | what it holds |
|---|---|---|
| wrappers.dfy | `Wrappers` | the optional value standing for Rust's `Option` |
| text.dfy | `Text` | `join`, decimal rendering, zero padding, `trim_end_matches` |
| bindings.dfy | `Bindings` | bindings, placeholders, the counter, fragments |
| query_select.dfy | `QuerySelect` | order specs, normalisers, `QueryBuilder` calls, `Display` |
| select_sections.dfy | `SelectSections` | an independent section-list description of the rendering, proved equal to it |
| select_builder.dfy | `SelectBuilder` | chains of builder calls and chains of order setters |
| clause.dfy | `Clauses` | `Clause`, its kinds, decoration, wrappers, `AnyEdgeFilter` |
| time_functions.dfy | `TimeFunctions` | `day` and `floor` |
| pagination.dfy | `Pagination` | the cursor arithmetic and the connection it yields |

In these places the code behaves differently from what its names and doc comments suggest. The model follows the code:

- **Edge tables are not bound.** `any_other_edges` writes the edge table names into the text as they are and starts with no bindings. It does not bind the table names (`Clauses.AnyOtherEdges`).
- **`with_table` replaces the error list.** It does not append to it. A matching table clears the placeholder error of an id clause, and any other kind ends with no errors (`Clauses.UpdateErrors`).
- **A fresh id clause carries a literal placeholder error.** The text is `lowo aaaa`, not a structured error (`Clauses.IdSentinelError`).
- **Table and id targets use the bare parameter name.** `from` appends `_param_…` without `$`, while a clause for a record id renders the `$` form. Both are modelled as written.
- **Sub-query targets keep their `;`.** A sub-query target of `from` keeps the inner statement's `;` inside the parentheses. A sub-query clause strips every trailing `;` (`SelectBuilder.SubQueryTarget`, `Clauses.SubQueryClause`).

## Model

| member | source | states |
|---|---|---|
| Bindings.NewBinding | rust/surrealdb-query-builder/src/functions/time.rs:78 | a new binding carries the given value, advances the counter by one, and its placeholder differs from that of every binding numbered below the counter |
| Bindings.AllocManyFresh | rust/surrealdb-macros/src/query_select.rs:347-365 | binding a list of values one after another gives pairwise distinct placeholders, each distinct from every earlier binding |
| Bindings.ParamInjective | rust/surrealdb-query-builder/src/types/clause.rs:760-763 | two bindings share a parameter name exactly when they share a number: the zero-padded counter reads back |
| Bindings.DollarisedInjective | rust/surrealdb-query-builder/src/functions/time.rs:148-151 | the same holds for the `$`-prefixed placeholders |
| Text.TrimEndMatches | rust/surrealdb-query-builder/src/types/clause.rs:338 | the result is a prefix of the input, does not end in the trimmed character, and everything removed is that character |
| QuerySelect.OrderNew | rust/surrealdb-macros/src/query_select.rs:121-127 | a new order spec keeps its field and renders as the field, a double space and ASC |
| QuerySelect.OrderAsc | rust/surrealdb-macros/src/query_select.rs:137-143 | `asc` sets the direction to ascending and keeps field and option, so the rendering ends in ASC |
| QuerySelect.OrderDesc | rust/surrealdb-macros/src/query_select.rs:153-159 | `desc` sets the direction to descending and keeps field and option, so the rendering ends in DESC |
| QuerySelect.OrderRand | rust/surrealdb-macros/src/query_select.rs:169-175 | `rand` sets the option to random ordering and keeps field and direction |
| QuerySelect.OrderCollate | rust/surrealdb-macros/src/query_select.rs:185-191 | `collate` sets the option to collation and keeps field and direction |
| QuerySelect.OrderNumeric | rust/surrealdb-macros/src/query_select.rs:201-209 | `numeric` sets the option to numeric ordering and keeps field and direction |
| QuerySelect.OrdersBindings | rust/surrealdb-macros/src/query_select.rs:57-63 | an empty order list has no bindings and a one-order list has exactly that order's field bindings |
| QuerySelect.OrdersBindingsAppend | rust/surrealdb-macros/src/query_select.rs:57-63 | the bindings of two order lists in sequence are the first list's followed by the second's, so each order contributes its field bindings once, in list order |
| QuerySelect.OrderablesBindings | rust/surrealdb-macros/src/query_select.rs:65-72 | the bindings of an orderable are those of the order list it stands for |
| QuerySelect.TargetBindings | rust/surrealdb-macros/src/query_select.rs:340-367 | one table or id gives exactly one fresh binding; a list gives one per element in input order, numbered consecutively; a sub-query gives exactly its accumulated bindings and draws nothing from the counter |
| QuerySelect.New | rust/surrealdb-macros/src/query_select.rs:526-541 | a new builder has no bindings and renders `SELECT  FROM ;` |
| QuerySelect.SelectAll | rust/surrealdb-macros/src/query_select.rs:553-556 | `*` is appended to the projections; no bindings are added |
| QuerySelect.Select | rust/surrealdb-macros/src/query_select.rs:572-579 | the field's name is appended to the projections; its bindings are not added |
| QuerySelect.SelectMany | rust/surrealdb-macros/src/query_select.rs:596-608 | the fields' names are appended in order; no bindings are added |
| QuerySelect.From | rust/surrealdb-macros/src/query_select.rs:626-647 | the accumulator and the targets grow by the same bindings: one target per binding, namely its parameter name, or for a sub-query the single target `(` + its rendering + `)`; projections and condition are untouched |
| QuerySelect.Where | rust/surrealdb-macros/src/query_select.rs:666-671 | the condition text replaces the old one while its bindings are appended |
| QuerySelect.UpdateBindings | rust/surrealdb-macros/src/query_select.rs:673-679 | the accumulator keeps its old contents as a prefix and gains exactly the new bindings after them |
| QuerySelect.Split | rust/surrealdb-macros/src/query_select.rs:710-725 | split fields are appended in order; the accumulator is unchanged |
| QuerySelect.GroupBy | rust/surrealdb-macros/src/query_select.rs:752-767 | group-by fields are appended in order; the accumulator is unchanged |
| QuerySelect.OrderBy | rust/surrealdb-macros/src/query_select.rs:788-795 | order specs are appended in order and their fields' bindings are appended to the accumulator |
| QuerySelect.Limit | rust/surrealdb-macros/src/query_select.rs:810-813 | the limit slot holds the given value |
| QuerySelect.Start | rust/surrealdb-macros/src/query_select.rs:851-854 | the start slot holds the given value |
| QuerySelect.Fetch | rust/surrealdb-macros/src/query_select.rs:890-897 | the field is appended to the fetch list; no bindings are added |
| QuerySelect.FetchMany | rust/surrealdb-macros/src/query_select.rs:935-947 | the fields are appended to the fetch list in order; no bindings are added |
| QuerySelect.Timeout | rust/surrealdb-macros/src/query_select.rs:976-979 | the timeout slot holds the given duration |
| QuerySelect.Parallel | rust/surrealdb-macros/src/query_select.rs:991-994 | the parallel flag is set |
| SelectSections.DisplaySections | rust/surrealdb-macros/src/query_select.rs:1016-1076 | the rendering is exactly the present sections, each keyword followed by its list joined with `, ` (or its value), joined by single spaces and followed by `;` |
| SelectSections.SectionPresence | rust/surrealdb-macros/src/query_select.rs:1025-1072 | an optional section appears exactly when its list is non-empty or its slot is set; SELECT and FROM always appear |
| SelectSections.SectionsOrdered | rust/surrealdb-macros/src/query_select.rs:1016-1072 | sections come in the fixed order SELECT, FROM, WHERE, SPLIT, GROUP BY, ORDER BY, LIMIT, START AT, FETCH, TIMEOUT, PARALLEL, SELECT first and FROM second |
| SelectSections.DisplayFrame | rust/surrealdb-macros/src/query_select.rs:1018-1074 | every statement starts with `SELECT ` and the projections and ends with `;` |
| SelectBuilder.Apply | rust/surrealdb-macros/src/query_select.rs:553-994 | every builder call only extends the lists and the accumulator; only `from` draws from the counter; only `from`, `where_` and `order_by` touch the accumulator; each list and each slot changes only under its own call, and PARALLEL is set exactly by `parallel` or stays as it was |
| SelectBuilder.RunExtends | rust/surrealdb-macros/src/query_select.rs:673-679 | after any chain of calls every list and the accumulator extend their old contents and the counter has not gone back |
| SelectBuilder.RunSlots | rust/surrealdb-macros/src/query_select.rs:810-854 | WHERE, LIMIT, START AT and TIMEOUT hold the value of the last call that set them, or their old value |
| SelectBuilder.RunWithoutBindingCalls | rust/surrealdb-macros/src/query_select.rs:710-767 | a chain without `from`, `where_` or `order_by` adds no bindings and draws nothing from the counter |
| SelectBuilder.WhereTwice | rust/surrealdb-macros/src/query_select.rs:666-671 | after two `where_` calls the second text is kept but the bindings of both conditions are in the accumulator, in call order |
| SelectBuilder.SubQueryTarget | rust/surrealdb-macros/src/query_select.rs:640-641 | a sub-query target is parenthesised and ends with `;)`, and the outer accumulator gains exactly the sub-query's bindings |
| SelectBuilder.RunOrderSlots | rust/surrealdb-macros/src/query_select.rs:140-209 | after any chain of order setters the direction is the last one set and the option the last one set, independently, and the field is untouched |
| SelectBuilder.OrderTextShape | rust/surrealdb-macros/src/query_select.rs:212-221 | an order renders as its field and a space first, a space and its direction (ASC when unset) last, with a double space when no option is set and the option's keyword between field and direction when one is |
| Clauses.AnyOtherEdges | rust/surrealdb-query-builder/src/types/clause.rs:630-637 | an edge filter starts with its tables, no condition, no bindings and no errors |
| Clauses.EdgeWhere | rust/surrealdb-query-builder/src/types/clause.rs:587-595 | `where_` appends the condition's bindings and errors and replaces the condition text |
| Clauses.EdgeWheresAccumulate | rust/surrealdb-query-builder/src/types/clause.rs:587-595 | after any chain of `where_` calls the last condition's text is kept and the bindings and errors of all of them are accumulated in call order |
| Clauses.EdgeFilterRendering | rust/surrealdb-query-builder/src/types/clause.rs:598-615 | a filtered edge list renders as the tables joined with `, `, two spaces, WHERE and the last condition, and carries exactly the conditions' bindings and errors |
| Clauses.EdgeFilterUnfiltered | rust/surrealdb-query-builder/src/types/clause.rs:598-615 | an unfiltered edge list renders as its joined tables and one trailing space |
| Clauses.NewClause | rust/surrealdb-query-builder/src/types/clause.rs:313-363 | a clause starts with no arrow and no name; only an id draws a binding (one, of the record id) and starts with the placeholder error; where, sub-query and edge-filter clauses inherit bindings and errors; an index inherits only bindings; all, last and empty have neither |
| Clauses.WithArrow | rust/surrealdb-query-builder/src/types/clause.rs:365-368 | only the arrow changes |
| Clauses.UpdateErrors | rust/surrealdb-query-builder/src/types/clause.rs:384-399 | the error list is replaced: it is empty exactly when the clause is not an id or the id starts with the table and `:`, and never holds more than one error |
| Clauses.WithTable | rust/surrealdb-query-builder/src/types/clause.rs:370-375 | the clause is named after the table and its errors are the id check's: none exactly when the id belongs to the table, otherwise exactly the mismatch message |
| Clauses.WithField | rust/surrealdb-query-builder/src/types/clause.rs:377-382 | only the name changes; errors are left as they are |
| Clauses.ModifyAllKeeps | rust/surrealdb-query-builder/src/types/clause.rs:365-382 | after any chain of arrows, tables and fields the kind, text and bindings are unchanged, the arrow and name are the last set, and the errors are those of the last table check or the original ones |
| Clauses.BuildDecorated | rust/surrealdb-query-builder/src/types/clause.rs:63-103 | a decorated clause renders as the arrow followed by what its kind dictates: name and `[*]`, `[$]`, nothing, the index or `[WHERE …]`; the trimmed sub-query in parentheses; the id's placeholder; or `(name, edge filter)` |
| Clauses.IdClause | rust/surrealdb-query-builder/src/types/clause.rs:327-334 | an id clause has exactly one binding and the placeholder error, renders as that binding's placeholder even after a table is given, and a table clears the error exactly when the id belongs to it |
| Clauses.TrimmedSelect | rust/surrealdb-query-builder/src/types/clause.rs:335-339 | a sub-query clause of a text starting `SELECT ` renders `(SELECT …)` with no `;` before the closing parenthesis |
| Clauses.SubQueryClause | rust/surrealdb-query-builder/src/types/clause.rs:335-339 | for a statement text shaped like a SELECT rendering (here stood in for by `Display for QueryBuilder`), the sub-query clause starts `(SELECT `, ends `)` and has no `;` before the `)` |
| Clauses.NodeFromId | rust/surrealdb-query-builder/src/types/clause.rs:159-163 | a node clause from a record id binds the id once and renders as its placeholder |
| Clauses.EdgeFromFilter | rust/surrealdb-query-builder/src/types/clause.rs:624-628 | an edge clause from an edge filter renders `(, <filter>)` and carries the filter's bindings and errors |
| Clauses.WrappersDelegate | rust/surrealdb-query-builder/src/types/clause.rs:125-286 | node, object and edge clauses decorated by a chain hold exactly the bare clause decorated by the same chain; edge clauses are never given a field name |
| TimeFunctions.Day | rust/surrealdb-query-builder/src/functions/time.rs:77-85 | `day` binds its argument once, as a field reference or a datetime, and renders `time::day(` + that binding's placeholder + `)` |
| TimeFunctions.Floor | rust/surrealdb-query-builder/src/functions/time.rs:96-109 | `floor` binds the datetime then the duration, numbered consecutively, and renders their placeholders in that order |
| TimeFunctions.FloorFresh | rust/surrealdb-query-builder/src/functions/time.rs:97-107 | the two `floor` placeholders differ from each other and from every binding made before |
| TimeFunctions.TextIndependentOfArguments | rust/surrealdb-query-builder/src/functions/time.rs:78-81 | no argument text reaches the query text: a field and a literal render the same call, and only the bound value differs |
| TimeFunctions.DayFirstPlaceholder | rust/surrealdb-query-builder/src/functions/time.rs:120-140 | with a fresh counter `day` renders `time::day($_param_00000001)` |
| TimeFunctions.FloorFirstPlaceholders | rust/surrealdb-query-builder/src/functions/time.rs:142-174 | with a fresh counter `floor` renders `time::floor($_param_00000001, $_param_00000002)` |
| Pagination.WindowAsWritten | rust/backend-main/src/starwars/resolvers.rs:207-232 | the page the source settles on lies within the list and starts at its adjusted start; with `AsWrittenSameItems` it holds the same items as `Window` |
| Pagination.Window | rust/backend-main/src/starwars/resolvers.rs:207-232 | the corrected page lies within the list, starting at its start and ending at its end |
| Pagination.Connect | rust/backend-main/src/starwars/resolvers.rs:234-241 | an early return is an empty connection with both flags false; otherwise the flags come from start and end, and there is one edge per item with cursor = start + position and node = that item |
| Pagination.QueryCharacters | rust/backend-main/src/starwars/resolvers.rs:206-242 | with the corrected window: early returns give an empty connection; otherwise the edges are exactly the window's items in order, each with its absolute index as cursor, the previous flag says an item precedes the page and the next flag says an item follows it |
| Pagination.QueryCharactersAsWritten | rust/backend-main/src/starwars/resolvers.rs:206-242 | the source's connection: early returns are empty; otherwise the edges are exactly the items of the source's window in order with their absolute indices, and both flags come from the source's `start` and `end` |
| Pagination.WindowSlice | rust/backend-main/src/starwars/resolvers.rs:210-232 | the early returns happen exactly for `after` past the end or `before` zero; `first` keeps the leading `min(first, n)` items and wins over `last`, `last` keeps the trailing `min(last, n)`, neither keeps all |
| Pagination.FlagsMatchNeighbours | rust/backend-main/src/starwars/resolvers.rs:234 | with the corrected arithmetic the flags are true exactly when items exist before or after the page |
| Pagination.AsWrittenSameItems | rust/backend-main/src/starwars/resolvers.rs:207-232 | for every admissible input the source keeps the same items as `Window` and returns nothing in the same cases; with `first`, `end` is lowered from the `before` bound by the number of items kept, and without `first` it equals `Window`'s |
| Pagination.AsWrittenAgreesWithoutFirst | rust/backend-main/src/starwars/resolvers.rs:229-232 | without `first` the source and the corrected arithmetic agree |
| Pagination.AsWrittenFirstClaimsNext | rust/backend-main/src/starwars/resolvers.rs:226-228 | three items with `first` five: the source returns all three but its `end` is 0, so has_next is true; the corrected page ends at 3 and has_next is false |
| Pagination.AsWrittenFirstAlwaysNext | rust/backend-main/src/starwars/resolvers.rs:226-234 | with `first` and no `before`, the source sets has_next for every non-empty page, while the corrected page sets it exactly when items remain |

## Left out

- `Binding::new`, `get_param` and `get_param_dollarised` live in a file that is not part of this model. Placeholders are modelled as `_param_` followed by the counter zero-padded to eight digits, the form the crate's own examples show. The counter is an explicit `Allocator` rather than global state.
- `Filter`, `cond`, `Operation`, `NumberLike`, `DbField`, `SelectStatement` and `DbFilter`: their internals are not part of this model. Each is an opaque text with bindings and errors. `Filter::new(c).build()` and `DbFilter::to_string` are taken to be that text.
- The free function `where_` in `clause.rs` only wraps `Filter::new`, and `Filter` is opaque here.
- Raw rendering (`to_raw`, `fine_tune_params`) and the literal formatting of datetimes and durations: these belong to the database driver's value printing.
- `SelectStatement` of the query-builder crate (the payload of a sub-query clause) is a different type from the macros crate's `QueryBuilder`; its text is opaque here. `Clauses.SubQueryClause` uses a `QueryBuilder` rendering only as a stand-in for a SELECT statement text, and promises nothing about `SelectStatement`'s own rendering (such as the literal table name in the crate's sub-query example).
- `fine_tune_params` renumbers the placeholders of one statement from 1, and the crate's examples compare that renumbered text. The model has no renumbering; `TimeFunctions.DayFirstPlaceholder` and `TimeFunctions.FloorFirstPlaceholders` start the counter at 1 instead, which yields the same text for a single call.
- The `From` conversions into `Targettables`, `Groupables`, `Splittables`, `Orderables`, `Datetime`, `Duration` and `Clause`. They only choose a variant, and the model takes the variant directly.
- `Parametric for &[Order]`: its body is `todo!()` and it is never reached by the modelled calls.
- The `dbg!` printing at the end of `Display for QueryBuilder`: it is output only and does not change the returned text.
- `NodeAliasClause` (`into_inner` around a `NodeClause`): it adds no behaviour.
- The commented-out `format_with_model` and `format_with_object`.
- The GraphQL resolver objects (`Human`, `Droid`, `QueryRoot`), context lookups and the async `query` helper of the GraphQL library. Cursor decoding and the conversion of `first`/`last` from `i32` (negative counts are rejected there) are not modelled; cursors and counts are naturals.
- `Pagination.QueryCharacters`: indexing outside `characters[start..end]` makes the source panic. The model requires `Pagination.Admissible` instead of modelling the panic.
- `Clauses.Build`: the source panics when an id clause has no binding. The model requires `Clauses.Buildable` instead; every id clause made by `NewClause` has one.
- `Order` fields that are not plain field names: an order's field is an opaque fragment.
- The procedural-macro code generation, the migrator, the health checks, the GraphQL app wiring and the Kubernetes TypeScript files: they are outside the query-construction core.

## Findings

| source | as written | input that shows it | evidently intended | confidence | as-written member | corrected member |
|---|---|---|---|---|---|---|
| rust/backend-main/src/starwars/resolvers.rs:226-228 | with `first`, `end -= first.min(slice.len())` lowers `end` by the number of items kept | three characters, no cursors, `first` = 5: all three are returned, `end` becomes 0, and `has_next` is true although nothing follows | `end = start + k`, so `has_next` is true exactly when an item follows the page | medium, not executed | Pagination.AsWrittenFirstClaimsNext | Pagination.QueryCharacters |
