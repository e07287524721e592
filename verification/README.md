# A verified model of BusTub's query compiler and its smaller protocols

The project models, in Dafny, the parts of the repository that carry out real work: the query compiler of `bustub`
(binder, planner, rule-based optimizer), the batched executors, the version-link map of the transaction manager, the
OR-set driver, the count-min sketch, the arena allocator and the growing vector. Each part is given a meaning of its
own, and the operations are proved against that meaning for all inputs, all runs or all schedules.

Verify everything with `dafny verify dfyconfig.toml`.

## How it is organised

- **Optimizer.** `Values`, `Expressions`, `Ordering` and `Plans` give plans a meaning: `Produces(plan, database, rows)`
  says that `rows` is one of the results the plan may give (sorts leave ties open, aggregations the order of groups).
  `Rules` holds the rules as written, `WellFormed` what planner and catalog guarantee, `Soundness` and `Pipeline` the
  proof that every rule and both pipelines only give results of the plan they were given. `NormalForms` shows what one
  pass reaches, and `Settled` which patterns are gone from the plan that each pipeline returns. `RuleOrder` shows that a rule sequence is sound exactly when no rule that rebuilds a scan without its
  filter runs after the rule that moves filters into scans. `SideConditions` says exactly when merging a filter into a
  join, and replacing a sort by an index scan, are right, with the inputs on which they are not.
- **Aggregates.** `Aggregates` has the bound expressions, their meaning on a group, and the two planning walks;
  `AggregateMeaning` and `AggregateSelect` prove that the plan of a select with aggregates has exactly the answers of the
  statement; `Planner` is the planner object whose context the two walks share. `PlainSelects` does the same for WHERE and
  a select list without aggregates. `OperatorLaws` says on values what operator names, aggregate names and sort keys mean.
- **FROM clauses.** `FromRows` says which rows a FROM clause gives, without plans (all pairs, the pairs that satisfy ON,
  padded left rows), proves that its plan gives exactly those, and states both kinds of select on them; `Queries` carries
  the results through the optimizer.
- **Names.** `Binder` resolves column names over a tree of table references, `Naming` and `TablePlans` plan references
  and find the resolved columns again by string, `SelectStar` follows `SELECT *` to the plan without its projection and
  shows what the planner guarantees to the optimizer.
- **Executors.** Filter, projection and values executors as objects with leftover offsets, polled to the end.
- **Version links.** `VersionLinks` and `Linearizability` are the two-level map under hand-over-hand locks as
  interleaved steps; `TuplePairs` is the tuple-and-link update over an atomic link map, and `PairLocks` the same over the
  two-level map with all three kinds of locks; `Histories` holds what it means for a list of operations to order a
  concurrent history.
- **Gossip**, **CountMin**, **Arena**, **Vector**: the OR-set driver, the sketch with its concurrent inserts and counts,
  the allocator and the growing vector.

## Where the code does less than its documentation suggests

Each of these is a lemma (or a method) with a concrete input, beside the exact condition under which the code keeps its
promise.

- Evaluating an array over a pair of rows puts one zero per element before its elements, because the buffer is resized
  where it should be reserved (`Expressions.ArrayGainsZero`; exactly for non-empty arrays of columns and decimal
  constants, `Expressions.JoinRewriteKeepsValue`).
- Merging a filter into an always-true LEFT join changes the rows (`SideConditions.LeftMergeExample`) unless the filter
  keeps a row for every left row (`SideConditions.MergeIntoJoinIff`). A join on the boolean null counts as always true
  (`SideConditions.NullJoinMergeExample`), which is harmless if and only if no pair passes the filter
  (`SideConditions.ConstantJoinMergeIff`). Removing a filter on it keeps the rows if and only if there are none
  (`SideConditions.TrueFilterIff`).
- Replacing a sort by an index scan checks neither that the index is ordered nor the null order: it is right if and only
  if the index is ordered and no NULLS LAST decides (`SideConditions.IndexServesIff`, `SideConditions.SortRuleSoundIff`).
- Initialising a filter or projection does not forget the unread part of its child's batch: a restart in the middle
  yields those rows again (`Executors.RestartInTheMiddle`); it is a fresh start if and only if no row was held
  (`BatchedPlans.RestartedRemaining`).
- A column of a renamed common table expression is bound under the expression's own name and planned under the alias: it
  can be planned to a column of another reference (`TablePlans.RenamedReadsOtherColumn`). With dots in identifiers two
  columns may get one joined name, and a name that the binder resolves is refused as duplicated
  (`TablePlans.DottedNamesCollide`). A resolved column is planned to itself if and only if it goes by the name it was bound
  under and no other column has its joined name (`TablePlans.ResolvedIsPlanned`, for joins
  `TablePlans.ResolvedIsPlannedInJoin`).
- A column of a subquery may match a name both as it stands and behind the alias, and is then reported as ambiguous
  although it is the only column meant (`Binder.OneColumnTwoWays`). The answer is right if and only if a column that is
  alone meant does not match in both ways (`Binder.RightAnswerIff`).
- When a 32-bit version counter wraps, a node takes a new copy for an old one (`Gossip.WrapLosesAnUpdate`,
  `Gossip.SyncLosesAnUpdate`): skipping and Sync are right if and only if the saves of each node stay below 2^32
  (`Gossip.SkippingSafeIff`, `Gossip.SyncSafeIff`).
- When a sketch cell wraps, the estimate falls below the true count (`Sketches.WrapForgets`,
  `SketchConcurrency.CountForgets`): the bounds hold if and only if fewer than 2^32 items are inserted
  (`Sketches.NeverUnderestimatesIff`, `Sketches.MergeAddsUpIff`, `SketchConcurrency.CountsSafeIff`).
- When a padded size wraps, the arena grants a block that is not in its buffer (`Arenas.HugeRequestSucceeds`): the blocks
  of a run are in order if and only if no granted request wrapped (`Arenas.BlocksApartIff`).

## Model

| member | source | states |
|---|---|---|
| Expressions.JoinRewriteMeaning | bustub/src/optimizer/merge_filter_nlj.cpp:39-58 | the join rewrite succeeds if and only if all columns are in range, and then evaluates on two rows to what the expression is on their concatenation (arrays gain leading zeros) |
| Expressions.JoinRewriteKeepsValue | bustub/src/include/execution/expressions/array_expression.h:47-59 | the rewrite keeps the value on all pairs of rows if and only if the expression is not a non-empty array of columns and decimal constants |
| Expressions.VectorSomewhere | bustub/src/include/execution/expressions/array_expression.h:34-45 | an array with columns in range is a vector on some pair of rows exactly when all its elements are columns or decimal constants |
| Expressions.ArrayGainsZero | bustub/src/include/execution/expressions/array_expression.h:47-59 | the array of one constant has one element on one row and two on a pair |
| Rules.MatchIndex | bustub/src/optimizer/nlj_as_index_join.cpp:37-46 | the search loop returns the first index whose key is exactly that column, or nothing if there is none |
| Rules.IsIdenticalProjection | bustub/src/optimizer/merge_projection.cpp:53-63 | the flag loop decides whether every expression is its own column |
| Rules.CollectSortColumns | bustub/src/optimizer/order_by_index_scan.cpp:50-64 | the loop collects the sort columns, or gives up exactly at a descending or computed key |
| RowLemmas.FilterOverCrossJoin | bustub/src/optimizer/merge_filter_nlj.cpp:73-102 | a filter over an always-true inner join is the inner join with the rewritten predicate, row for row |
| RowLemmas.IndexJoinIsLoopJoin | bustub/src/optimizer/nlj_as_index_join.cpp:77-98 | probing an index that agrees with its table joins the same rows in the same order as the nested loop |
| RowLemmas.ProbeIsTableOrder | bustub/src/optimizer/nlj_as_index_join.cpp:77-98 | an index probe returns the matching rows in table order |
| RowLemmas.IndexScanPermutes | bustub/src/optimizer/order_by_index_scan.cpp:70-80 | an index scan returns a permutation of the table |
| WellFormed.RewriteSucceeds | bustub/src/optimizer/merge_filter_nlj.cpp:73-102 | no rule throws on a well-formed plan |
| WellFormed.RewriteKeepsSchema | bustub/src/optimizer/merge_projection.cpp:64-68 | rules keep the number and types of the output columns, and all but one keep the names |
| WellFormed.RewriteKeepsSpine | bustub/src/optimizer/order_by_index_scan.cpp:66-82 | no rule brings the plain scan of another table under a sort |
| WellFormed.RewriteKeepsOk | bustub/src/optimizer/nlj_as_index_join.cpp:51-107 | rules keep plans well-formed |
| Soundness.ProjectionRefines | bustub/src/optimizer/merge_projection.cpp:36-69 | removing an identity projection keeps the results |
| Soundness.FilterNLJRefines | bustub/src/optimizer/merge_filter_nlj.cpp:73-102 | merging a filter into an always-true inner join keeps the results |
| Soundness.NLJRefines | bustub/src/optimizer/nlj_as_index_join.cpp:51-107 | turning a loop join into an index join keeps the results when the right scan has no filter |
| Soundness.SortRefines | bustub/src/optimizer/order_by_index_scan.cpp:39-86 | turning a sort into an index scan gives a result of the sort when the scan has no filter |
| Soundness.SortOrderIsKeyOrder | bustub/src/optimizer/order_by_index_scan.cpp:50-64 | the sort's order on rows is the index's key order when no NULLS LAST decides |
| Soundness.FilterScanRefines | bustub/src/optimizer/merge_filter_scan.cpp:28-50 | moving a filter into a scan keeps the results |
| Soundness.TrueFilterRefines | bustub/src/optimizer/eliminate_true_filter.cpp:26-43 | removing a constant-true filter keeps the results |
| Soundness.RewriteRefines | bustub/src/optimizer/optimizer.cpp:20-34 | every rule on every well-formed node only gives results of the node |
| Pipeline.RewriteKeepsNoScanFilters | bustub/src/optimizer/merge_filter_scan.cpp:40-45 | no rule but the one that moves filters into scans creates a scan with a filter |
| Pipeline.PassSound | bustub/src/optimizer/merge_projection.cpp:29-72 | a whole bottom-up pass of a rule succeeds, keeps well-formedness and gives only results of the plan |
| Pipeline.PipelineSound | bustub/src/optimizer/optimizer.cpp:20-34 | any rule sequence in safe order succeeds and only gives results of the plan |
| Pipeline.OptimizeSound | bustub/src/optimizer/optimizer_custom_rules.cpp:22-32 | both pipelines accept every well-formed planner output, keep its schema, and give only results of it; of sorts only those are excluded for which an index on a table they could come to scan is unordered or has the wrong null order |
| Pipeline.OptimizedSortStaysSorted | bustub/src/optimizer/order_by_index_scan.cpp:39-86 | a sorted query stays sorted and keeps its rows through the whole pipeline |
| Pipeline.Answers | bustub/src/optimizer/optimizer.cpp:20-34 | every well-formed plan has a result, so the refinements are never empty |
| Pipeline.OptimizedPlanAnswers | bustub/src/optimizer/optimizer.cpp:20-34 | the optimized plan has a result, and it is one of the original plan |
| Pipeline.RulesKeepNoOthers | bustub/src/optimizer/optimizer_custom_rules.cpp:22-32 | no rule brings an opaque node into a plan |
| NormalForms.PassReachesNormalForm | bustub/src/optimizer/eliminate_true_filter.cpp:26-43 | one bottom-up pass leaves no node of the rule's pattern, and a second pass changes nothing |
| Settled.RulesFree | bustub/src/optimizer/optimizer.cpp:20-34 | a rule sequence that holds the rule for a pattern, and after it only rules that cannot bring the pattern back, leaves no node of the pattern |
| Settled.OptimizedIsSettled | bustub/src/optimizer/optimizer.cpp:20-34 | in the plan that Optimize returns no identity projection, no filter over an always-true join, no filter over a plain scan and no ascending column sort over a plain scan with a matching index is left; with the starter rules no loop join on an indexed column of a plain scan either, and without them a plan without index joins gets none |
| RuleOrder.KeepsMeaningIffOrderSafe | bustub/src/optimizer/optimizer.cpp:20-34 | a rule sequence keeps the meaning of all well-formed plans if and only if no filter-dropping rule runs after filters were moved into scans |
| RuleOrder.SortLosesFilter | bustub/src/optimizer/order_by_index_scan.cpp:70-80 | the index scan of a filtered scan returns a row the sort does not |
| RuleOrder.JoinLosesFilter | bustub/src/optimizer/nlj_as_index_join.cpp:77-98 | the index join over a filtered scan returns a row the join does not |
| SideConditions.MergeIntoJoinIff | bustub/src/optimizer/merge_filter_nlj.cpp:90-97 | merging a filter into an always-true join keeps the rows if and only if the join is inner or the filter keeps a row of every left row |
| SideConditions.LeftMergeExample | bustub/src/optimizer/merge_filter_nlj.cpp:90-97 | a left join on which the rule changes the result |
| SideConditions.NullJoinMergeExample | bustub/src/optimizer/merge_filter_nlj.cpp:61-66 | a join on the boolean null, whose stored byte is not zero, counts as always true, and the merged join keeps pairs that the filter over it does not |
| SideConditions.ConstantJoinMergeIff | bustub/src/optimizer/merge_filter_nlj.cpp:61-102 | merging a filter into an inner join on a constant that is taken for true without being true keeps the rows if and only if no pair passes the filter |
| SideConditions.TrueFilterIff | bustub/src/optimizer/eliminate_true_filter.cpp:26-43 | the rule removes a filter on any constant taken for true, which keeps the rows if and only if it is true or there are none |
| SideConditions.IndexServesIff | bustub/src/optimizer/order_by_index_scan.cpp:51-79 | an index on the sort's columns serves the sort on all data if and only if it is ordered and no NULLS LAST decides |
| SideConditions.SortRuleSoundIff | bustub/src/optimizer/order_by_index_scan.cpp:66-82 | the rule fires on a scan of a table with such an index in any case, and its plan gives only results of the sort on all agreeing data if and only if the index is ordered and no NULLS LAST decides |
| SideConditions.ResultUnique | bustub/src/optimizer/optimizer.cpp:20-34 | plans without sorts, aggregations and opaque operators have one result |
| SideConditions.OptimizedRowsEqual | bustub/src/optimizer/optimizer.cpp:20-34 | for such plans the optimized plan has exactly the same row sequence |
| Naming.TryGetColIdx | bustub/src/include/catalog/schema.h:71-78 | the first column of that name, or none |
| Naming.PlanColumnRef | bustub/src/planner/plan_expression.cpp:49-113 | the scan for duplicates and the lookups over one or two children: found, not found, duplicated or ambiguous |
| Naming.DecimalReadsBack | bustub/src/planner/plan_aggregation.cpp:141-141 | the number in a generated name is written in digits without a leading zero and reads back |
| PlannerObject.Planner.AddAggregation | bustub/src/planner/planner.cpp:74-79 | appends a call to the context, or refuses when aggregation is not allowed |
| PlannerObject.Planner.AddAggCallToContext | bustub/src/planner/plan_expression.cpp:120-159 | the collecting walk appends exactly the calls of the expression in order and returns it with numbered placeholders |
| PlannerObject.Planner.AddAllToContext | bustub/src/planner/plan_aggregation.cpp:114-116 | the same over a list |
| PlannerObject.Planner.PlanExpression | bustub/src/planner/plan_expression.cpp:161-198 | the consuming walk computes the specified expression and advances the context past the calls it used |
| PlannerObject.Planner.PlanAggCall | bustub/src/planner/plan_aggregation.cpp:39-57 | a call becomes an aggregation type and an input, its arguments planned in a context without aggregates |
| PlannerObject.Planner.PlanCollectedCalls | bustub/src/planner/plan_aggregation.cpp:118-146 | the collected calls become inputs, types and output columns in order |
| PlannerObject.Planner.PlanSelectAgg | bustub/src/planner/plan_aggregation.cpp:92-178 | both phases give the specified plan, and the caller's context is put back |
| PlannerObject.Planner.PlanPhaseTwo | bustub/src/planner/plan_aggregation.cpp:156-177 | HAVING and the select list over the aggregation, with the placeholders of the collecting walk |
| AggregateMeaning.PlannedOnRow | bustub/src/planner/plan_expression.cpp:161-198 | a planned expression without aggregates has the value of the bound expression on every row |
| AggregateMeaning.WalksAgree | bustub/src/planner/plan_expression.cpp:120-198 | the consuming walk takes exactly the calls the collecting walk found, each once, in the same order |
| AggregateMeaning.SubstitutedOnGroup | bustub/src/planner/plan_aggregation.cpp:92-177 | the planned expression has, on the aggregation's row of a group, the value of the original on the group |
| OperatorLaws.OperatorComputes | bustub/src/planner/expression_factory.cpp:82-117 | twelve operator names are known, and each computes on any two values what it says: the comparisons on values of one kind (strings lexicographically) and null otherwise, the sum and difference wrapped at 32 bits, and the three-valued tables of `and` and `or` |
| OperatorLaws.BinaryPlannedIff | bustub/src/planner/expression_factory.cpp:82-117 | a binary operation is planned if and only if its name is known and its operands have the types that arithmetic or logic asks for |
| OperatorLaws.BinaryPlannedComputes | bustub/src/planner/expression_factory.cpp:82-117 | the planned expression of a binary operation computes, on every row and every pair of rows, what the name says of the values of the planned operands |
| OperatorLaws.CallPlanned | bustub/src/planner/expression_factory.cpp:28-51 | an aggregate call is planned to the aggregation its name and number of arguments stand for, over its argument or the constant 1, and means that aggregation of the values on the group |
| OperatorLaws.SortedByOneKey | bustub/src/optimizer/order_by_index_scan.cpp:50-64 | under one key, ascending rows never fall, descending rows never rise, and nulls come at the end the null order names |
| OperatorLaws.SortedByKeys | bustub/src/optimizer/order_by_index_scan.cpp:50-64 | rows are sorted by several keys if and only if they are sorted by the first and rows that tie under it are in order by the others |
| AggregateSelect.AggregateRowIsGroupRow | bustub/src/planner/plan_aggregation.cpp:118-154 | a row of the aggregation holds the group-by values and the value of every collected call of its group |
| AggregateSelect.PlanAnswersStatement | bustub/src/planner/plan_aggregation.cpp:92-178 | the results of the plan are exactly the answers of the statement with its grouping, HAVING and select list |
| AggregateSelect.AggregateNames | bustub/src/planner/plan_aggregation.cpp:164-177 | the output columns go by the alias or the joined path of the items of the statement, placeholders notwithstanding |
| Queries.PlannedReadsSchema | bustub/src/planner/plan_expression.cpp:161-198 | planned expressions read only columns of the schema they were planned over |
| Queries.AggregatePlanOk | bustub/src/planner/plan_aggregation.cpp:148-178 | the plan of a select with aggregates is well-formed |
| Queries.OptimizedAggregateAnswers | bustub/src/optimizer/optimizer.cpp:20-34 | a select with aggregates, planned and optimized, gives only answers of the statement |
| PlainSelects.PlanSelectAnswers | bustub/src/planner/plan_select.cpp:66-113 | the results of a plain select's plan are exactly the answers of the statement: the select list on the rows that satisfy WHERE |
| PlainSelects.SelectNames | bustub/src/planner/plan_select.cpp:102-112 | the output columns go by the alias or the joined path of their items, and those without a name are numbered from left to right |
| PlainSelects.SelectKeepsScansPlain | bustub/src/planner/plan_select.cpp:66-113 | planning a plain select adds no scan filters |
| Queries.SelectPlanOk | bustub/src/planner/plan_select.cpp:66-113 | the plan of a plain select with a boolean WHERE is well-formed |
| Queries.OptimizedSelectAnswers | bustub/src/optimizer/optimizer.cpp:20-34 | a plain select, planned and optimized, gives only answers of the statement |
| FromRows.PlanSchema | bustub/src/execution/plan_node.cpp:29-47 | the plan of a reference has the types of the columns in scope, under their names behind their aliases |
| FromRows.PlannedOnPair | bustub/src/planner/plan_expression.cpp:82-110 | a planned ON condition has on a pair of rows the value of the bound condition on their concatenation, up to the length of vectors |
| FromRows.TableRefAnswers | bustub/src/planner/plan_table_ref.cpp:87-160 | the plan of a FROM clause gives exactly its rows: a stored table its own, a cross product all pairs, a join the pairs on which the bound condition is true and with LEFT the padded left rows without one, a subquery those of its body |
| FromRows.SelectFromAnswers | bustub/src/planner/plan_select.cpp:53-113 | over every FROM clause, the plan of a plain select gives rows if and only if they answer the statement on rows of the clause |
| FromRows.AggregateFromAnswers | bustub/src/planner/plan_aggregation.cpp:92-178 | over every FROM clause, the plan of a select with aggregates gives rows if and only if they answer the statement on rows of the clause |
| Queries.OptimizedSelectFrom | bustub/src/optimizer/optimizer.cpp:20-34 | a plain select over a FROM clause, planned and optimized, gives only answers of the statement on rows of the clause |
| Queries.OptimizedAggregateFrom | bustub/src/optimizer/optimizer.cpp:20-34 | the same for a select with aggregates |
| Binder.ResolveInSchema | bustub/src/binder/bind_select.cpp:610-626 | one matching column, none, or ambiguity at the second |
| Binder.ResolveInSelectList | bustub/src/binder/bind_select.cpp:672-686 | the same by suffix over the names of a select list |
| Binder.ResolveInBaseTable | bustub/src/binder/bind_select.cpp:630-658 | resolution over a stored table, as the name stands or behind the table's name |
| Binder.AliasFound | bustub/src/include/binder/table_ref/bound_base_table_ref.h:44-49 | over a stored table with an alias, every resolution of a column alone or behind the alias finds it under the alias |
| Binder.HiddenNameNotFound | bustub/src/include/binder/table_ref/bound_base_table_ref.h:44-49 | the name that the alias hides finds nothing |
| Binder.OwnNameFound | bustub/src/include/binder/table_ref/bound_base_table_ref.h:44-49 | without an alias, a column alone or behind the name of the table is found under that name |
| Binder.OtherNameNotFound | bustub/src/binder/bind_select.cpp:630-658 | behind any other name nothing is found |
| Binder.ResolveInSubquery | bustub/src/binder/bind_select.cpp:687-714 | resolution over a subquery under an alias |
| Binder.ResolveColumn | bustub/src/binder/bind_select.cpp:716-774 | over every tree of references: success if and only if the name means one column in one way, ambiguity if and only if there are two ways or more |
| Binder.ReferenceAnswersTo | bustub/src/binder/bind_select.cpp:751-760 | a reference to a common table expression answers to its alias, finds the column under the name of the expression, and does not answer to that name |
| Binder.WaysAreColumns | bustub/src/binder/bind_select.cpp:687-714 | ways and columns coincide exactly when no column matches in both ways |
| Binder.RightAnswerIff | bustub/src/binder/bind_select.cpp:716-774 | resolution answers found, not found or ambiguous as one, no or several columns are meant, if and only if a column that is alone meant does not match in both ways |
| Binder.StoredColumnsMeanOnce | bustub/src/binder/bind_select.cpp:630-658 | over stored tables, cross products and joins ways are columns, so resolution always gives the right answer |
| Binder.OneColumnTwoWays | bustub/src/binder/bind_select.cpp:705-708 | a subquery column meant in two ways is refused as ambiguous |
| Binder.BindFrom | bustub/src/binder/bind_select.cpp:234-279 | a FROM list becomes a left-deep tree whose columns are those of the tables in order |
| Binder.GetAllColumns | bustub/src/binder/bind_select.cpp:360-414 | a star lists every column in scope in order, behind the alias it goes by |
| Binder.StarOfStoredTable | bustub/src/binder/bind_select.cpp:362-371 | a star lists the columns of a stored table behind its alias, or behind its name if it has none |
| TablePlans.PlanNamesLeaves | bustub/src/planner/plan_table_ref.cpp:87-160 | the plan of a reference has one column per column in scope, in order, under its qualified name |
| TablePlans.JoinPathInjective | bustub/src/include/binder/expressions/bound_column_ref.h:45-45 | joined names of dot-free parts tell paths apart |
| TablePlans.JoinedNameSplits | bustub/src/include/binder/expressions/bound_column_ref.h:45-45 | a joined name of dot-free parts falls apart at its dots into those parts |
| TablePlans.ResolvedIsPlanned | bustub/src/planner/plan_expression.cpp:49-81 | for all identifiers, the path of a column in scope is planned to that very column if and only if the column goes by the name it was bound under and its joined name is unique |
| TablePlans.ResolvedIsPlannedInJoin | bustub/src/planner/plan_expression.cpp:82-110 | the same over the two sides of a join: if and only if the joined name is not shadowed by an earlier column or by one on the other side |
| TablePlans.DotFreeUnique | bustub/src/planner/plan_expression.cpp:49-113 | without dots in identifiers the joined name of a resolved column neither repeats nor is shadowed |
| TablePlans.ResolvedColumnFound | bustub/src/execution/plan_node.cpp:29-47 | over every scope, the planner finds the very column the binder resolved if and only if the column goes by the name it was bound under and its joined name is unique; without renamed common table expressions and dots it always does |
| TablePlans.DottedNamesCollide | bustub/src/planner/plan_expression.cpp:62-72 | a scope of two tables with dots in identifiers in which a resolved name is refused as duplicated |
| TablePlans.RenamedReadsOtherColumn | bustub/src/planner/plan_table_ref.cpp:143-150 | a renamed common table expression whose column is planned to a column of another reference |
| SelectStar.StarPlansToIdentity | bustub/src/planner/plan_select.cpp:97-113 | over any plan with the columns in scope (also under a WHERE filter) a star plans if and only if the qualified names are distinct, and then to the identity projection, with no name numbered |
| SelectStar.StarIsTheTable | bustub/src/optimizer/merge_projection.cpp:29-72 | over every scope, renamed common table expressions included, a star plans exactly when the names are distinct, and the bottom-up pass that merges projections leaves of it just what it leaves of the FROM plan |
| SelectStar.StarAnswers | bustub/src/planner/plan_select.cpp:97-113 | the plan of SELECT * gives exactly the rows of its FROM clause |
| SelectStar.StarSubqueryNamed | bustub/src/binder/bind_select.cpp:82-105 | a star select gives every column a name, so it can be a subquery again |
| SelectStar.PlannedTableOk | bustub/src/planner/plan_table_ref.cpp:109-160 | plans of references are well-formed and carry no scan filters |
| SelectStar.AggregatesKeepScansPlain | bustub/src/planner/plan_aggregation.cpp:148-178 | planning aggregates adds no scan filters |
| SelectStar.StarOptimized | bustub/src/optimizer/optimizer.cpp:20-34 | a star query is optimized to the same plan as its FROM clause and gives only rows of the clause, under the same names |
| BatchedPlans.ItemsAreTheResult | bustub/src/execution/filter_executor.cpp:42-101 | the rows the executors compute are the one result of the plan |
| BatchedPlans.FreshState | bustub/src/execution/filter_executor.cpp:25-27 | new executors have the whole result to come and hold nothing |
| BatchedPlans.FreshRestarted | bustub/src/execution/filter_executor.cpp:30-33 | initialising new executors leaves them new |
| BatchedPlans.RestartedRemaining | bustub/src/execution/filter_executor.cpp:30-33 | after a restart the rows held from earlier batches come again, then the whole result; it is a fresh start if and only if none were held |
| BatchedPlans.HeldComesFirst | bustub/src/execution/projection_executor.cpp:28-31 | held rows come first, so a drained executor holds none |
| Executors.Executor.constructor | bustub/src/execution/executor_factory.cpp:151-168 | builds the tree of executors of a plan, each before its first row |
| Executors.Executor.Init | bustub/src/execution/values_executor.cpp:26-26 | moves the leaf back and leaves the fetched batches |
| Executors.Executor.NextValues | bustub/src/execution/values_executor.cpp:35-54 | the next rows of the list, full unless last |
| Executors.Executor.NextFiltered | bustub/src/execution/filter_executor.cpp:42-101 | the next passing rows in order; the loop ends; the batch is not empty unless all is read, is full unless last, and not larger than a constant batch size |
| Executors.Executor.NextProjected | bustub/src/execution/projection_executor.cpp:40-103 | the next projected rows in order, with the same bounds |
| Executors.Executor.Next | bustub/src/execution/filter_executor.cpp:42-101 | tuples and record ids stay aligned, the batch is the first part of what was to come |
| Executors.Poll | bustub/src/include/execution/execution_engine.h:95-104 | the batches up to the first false concatenate to what was to come; none is empty, all but the last are full, none exceeds a constant batch size |
| Executors.Execute | bustub/src/include/execution/execution_engine.h:54-76 | building, starting and polling the executors gives the plan's one result, in batches of which none is empty or larger than the batch size and all but the last are full |
| Executors.RestartInTheMiddle | bustub/src/execution/filter_executor.cpp:30-33 | a restart after one batch yields a row twice |
| VersionLinks.GlobalStep | bustub/src/concurrency/transaction_manager_impl.cpp:44-90 | every step keeps the map's mutex exclusive for updates and shared for reads |
| VersionLinks.PagesStep | bustub/src/concurrency/transaction_manager_impl.cpp:44-90 | every step keeps each page's mutex with the thread inside it |
| Linearizability.CommitStep | bustub/src/concurrency/transaction_manager_impl.cpp:55-74 | the deciding step of a call has the result and the effect of the atomic operation on the flat map |
| Linearizability.SchedulesLinearizable | bustub/src/concurrency/transaction_manager_impl.cpp:44-90 | every schedule is linearizable to atomic check-and-set and read on one flat map, and the two-level map always shows that flat map |
| Linearizability.ReturnedCallMeans | bustub/src/concurrency/transaction_manager_impl.cpp:44-90 | over every schedule, a returned update has a place in the order of calls at which it gave true if and only if it has no check or its check is true of the link then stored for the record; true stores its link, false changes nothing; a returned read gave the stored link |
| Linearizability.SomeCallCanStep | bustub/src/concurrency/transaction_manager_impl.cpp:44-90 | while a call is unfinished, some unfinished call can take its next step |
| Linearizability.SomeThreadCanStep | bustub/src/concurrency/transaction_manager_impl.cpp:44-90 | the thread that holds up an unfinished call can itself take a step |
| Linearizability.StepLowersWork | bustub/src/concurrency/transaction_manager_impl.cpp:44-90 | every step of a call brings it closer to its end |
| Histories.RecordStep | bustub/src/concurrency/transaction_manager_impl.cpp:44-90 | making, settling and finishing calls keeps the list of settled calls an ordering of the history |
| TuplePairs.PairsLinearizable | bustub/src/concurrency/transaction_manager_impl.cpp:129-162 | with an atomic link map, every schedule of tuple-and-link updates and reads is linearizable to atomic operations on pairs of tuple and link |
| TuplePairs.ReturnedPairMeans | bustub/src/concurrency/transaction_manager_impl.cpp:129-162 | over every schedule, a returned update was stored if and only if it has no check or its check is true of the stored tuple and the new link, and the lengths agree; it stores tuple and link together or nothing; a returned read gave the stored pair |
| TuplePairs.FailedPutChangesNothing | bustub/src/concurrency/transaction_manager_impl.cpp:137-140 | an update that failed its check, or was refused, changed neither tuple nor link |
| TuplePairs.StoredIsReplayed | bustub/src/concurrency/transaction_manager_impl.cpp:129-162 | whenever no update is between its two writes, heap and link map hold exactly the pairs that the order of calls leaves |
| TuplePairs.PairsHaveOneSource | bustub/src/concurrency/transaction_manager_impl.cpp:129-150 | a stored pair was stored as a whole by one update or stood from the start |
| TuplePairs.FetchNeverTorn | bustub/src/concurrency/transaction_manager_impl.cpp:154-162 | a read returns a tuple and a link that were current together |
| PairLocks.LocksShowPairs | bustub/src/concurrency/transaction_manager_impl.cpp:44-162 | every schedule over the two-level map, with the page lock, the map mutex and the page entry mutex, shows a schedule over the atomic map |
| PairLocks.DecisionIsAtomic | bustub/src/concurrency/transaction_manager_impl.cpp:55-90 | the deciding step inside the link map has the outcome and the effect of the operation on the flat map |
| PairLocks.LockedPairsLinearizable | bustub/src/concurrency/transaction_manager_impl.cpp:129-162 | over the two-level map with all its locks, every schedule of updates and reads is linearizable to atomic operations on pairs |
| PairLocks.LockedPairMeans | bustub/src/concurrency/transaction_manager_impl.cpp:129-162 | the same over the two-level map with all its locks |
| PairLocks.LockedFetchNeverTorn | bustub/src/concurrency/transaction_manager_impl.cpp:154-162 | over the two-level map too, a read returns a tuple and a link that were current together |
| PairLocks.LocksNeverStuck | bustub/src/concurrency/transaction_manager_impl.cpp:44-162 | no deadlock across the three kinds of locks: while a put or fetch is unfinished, some unfinished one can take its next step |
| PairLocks.LockStepLowersWork | bustub/src/concurrency/transaction_manager_impl.cpp:44-162 | every step of a put or fetch brings it closer to its end |
| Gossip.PeerSafe | bustub/src/primer/orset_driver.cpp:22-33 | skipping a peer whose version has not advanced is the same as merging its copy |
| Gossip.SkippingIsMerging | bustub/src/primer/orset_driver.cpp:22-42 | over every run in which no counter wraps, nodes and copies are as if every load merged every copy |
| Gossip.SyncConverges | bustub/src/primer/orset_driver.cpp:58-65 | one Sync from any reachable state leaves each node with the join of all states before it |
| Gossip.WrapLosesAnUpdate | bustub/src/primer/orset_driver.cpp:27-30 | for every join of more than one state, a run of 2^32 saves after which an update is not loaded |
| Gossip.SkippingSafeIff | bustub/src/primer/orset_driver.cpp:22-42 | skipping gives the same nodes and copies as merging in all runs with at most so many saves per node if and only if the bound is below 2^32 (or there is only one state) |
| Gossip.SyncLosesAnUpdate | bustub/src/primer/orset_driver.cpp:58-65 | a Sync whose save wraps a counter leaves a node without an update |
| Gossip.SyncSafeIff | bustub/src/primer/orset_driver.cpp:58-65 | Sync leaves the join everywhere after all runs with at most so many saves per node if and only if one more save stays below 2^32 |
| Gossip.ORSetDriver.constructor | bustub/src/primer/orset_driver.cpp:44-52 | all nodes and copies at the bottom, all versions zero |
| Gossip.ORSetDriver.Save | bustub/src/primer/orset_driver.cpp:39-42 | publishes the node's state under the next version |
| Gossip.ORSetDriver.Load | bustub/src/primer/orset_driver.cpp:22-33 | merges the newer copies of all peers and notes their versions |
| Gossip.ORSetDriver.Sync | bustub/src/primer/orset_driver.cpp:58-65 | all saves, then all loads |
| Sketches.EstimateBounds | bustub/src/primer/count_min_sketch.cpp:139-148 | with fewer than 2^32 items the count lies between the item's occurrences and the stream's length |
| Sketches.EstimateExactIff | bustub/src/include/primer/count_min_sketch.h:101-107 | with fewer than 2^32 items the count is exact if and only if in some row no other item of the stream has the hash of the item modulo the width |
| Sketches.LeastCellIsLeast | bustub/src/primer/count_min_sketch.cpp:139-148 | the count is one of the item's cells, and none is less |
| Sketches.MergedEstimate | bustub/src/primer/count_min_sketch.cpp:125-136 | the count after a merge is at least the sum of the counts when no cell wraps |
| Sketches.WrapForgets | bustub/src/primer/count_min_sketch.cpp:114-122 | an item inserted 2^32 times is counted zero times |
| Sketches.NeverUnderestimatesIff | bustub/src/primer/count_min_sketch.cpp:114-148 | for every hash family, counts of streams of up to n items are never below the occurrences if and only if n is below 2^32 |
| Sketches.MergeAddsUpIff | bustub/src/primer/count_min_sketch.cpp:125-136 | merging streams of up to n items together never loses against the sum of the counts if and only if n is below 2^32 |
| SketchObject.CountMinSketch.Create | bustub/src/primer/count_min_sketch.cpp:30-54 | a sketch of the empty stream, refused without buckets or rows |
| SketchObject.CountMinSketch.Insert | bustub/src/primer/count_min_sketch.cpp:114-122 | the sketch of the stream with the item appended, modulo 2^32 |
| SketchObject.CountMinSketch.Merge | bustub/src/primer/count_min_sketch.cpp:125-136 | the sketch of the concatenated streams modulo 2^32, or refused for other sizes with nothing changed |
| SketchObject.CountMinSketch.Count | bustub/src/primer/count_min_sketch.cpp:139-148 | the estimate of the stream |
| SketchObject.CountMinSketch.Clear | bustub/src/primer/count_min_sketch.cpp:151-159 | the sketch of the empty stream |
| SketchObject.CountMinSketch.TopK | bustub/src/primer/count_min_sketch.cpp:162-185 | a descending list of the right length whose entries no omitted candidate outranks |
| SketchConcurrency.InsertsCommute | bustub/src/primer/count_min_sketch.cpp:114-122 | every interleaving of inserts ends in the matrix of the same inserts in sequence: the completed items are, one by one, those that the schedule began |
| SketchConcurrency.InsertsAccounted | bustub/src/primer/count_min_sketch.cpp:114-122 | at any time the inserts of an item begun are those completed and those under way |
| SketchConcurrency.CountsBetween | bustub/src/primer/count_min_sketch.cpp:114-148 | a count among concurrent inserts lies between the inserts of the item completed before it began and all inserts begun |
| SketchConcurrency.CountForgets | bustub/src/primer/count_min_sketch.cpp:114-148 | a schedule of 2^32 inserts after which a count answers zero |
| SketchConcurrency.CountsSafeIff | bustub/src/primer/count_min_sketch.cpp:114-148 | counts keep their bounds in all schedules with at most so many inserts if and only if the bound is below 2^32 |
| Arenas.AlignUpLeast | Allocator/Arena.h:52-58 | the least aligned address from the given one on |
| Arenas.Arena.constructor | Allocator/Arena.h:34-34 | an arena with nothing in use |
| Arenas.Arena.Allocate | Allocator/Arena.h:68-91 | the block after the padding, or failure with nothing changed; sums wrap at 64 bits |
| Arenas.Arena.Used | Allocator/Arena.h:45-45 | the bytes in use, never more than the buffer |
| Arenas.InsideIffFits | Allocator/Arena.h:73-91 | a granted block lies in the buffer if and only if its padded size did not wrap |
| Arenas.HugeRequestSucceeds | Allocator/Arena.h:76-83 | a request of 2^64 - 1 bytes that succeeds |
| Arenas.RunKeepsBlocksApart | Allocator/Arena.h:45-91 | while no granted request wraps, blocks are aligned, disjoint and inside the buffer, and the space used is exactly their sizes and paddings |
| Arenas.BlocksApartIff | Allocator/Arena.h:45-91 | over every run the blocks are in order if and only if no granted request wrapped |
| Vectors.AppendedBounds | Containers/vector/Vector.h:183-207 | after n appends the capacity is a power of two from n to below 2n, and growth has copied one element less than the capacity |
| Vectors.CapacityFitsIff | Containers/vector/Vector.h:183-190 | capacities stay within a 32-bit integer on the way to n elements if and only if n is at most 2^30 |
| Vectors.Vector.constructor | Containers/vector/Vector.h:51-56 | an empty vector without capacity |
| Vectors.Vector.PushBack | Containers/vector/Vector.h:183-190 | appends the value and grows by doubling |
| Vectors.Vector.Reserve | Containers/vector/Vector.h:193-207 | keeps the contents; copies them once into a buffer of the new capacity, or does nothing |
| Vectors.Vector.CopyFrom | Containers/vector/Vector.h:97-111 | copies the contents into a buffer of its own; assigning a vector to itself changes nothing |
| Vectors.Vector.MoveFrom | Containers/vector/Vector.h:124-140 | takes the buffer and leaves the other vector empty |
| Vectors.Vector.At | Containers/vector/Vector.h:143-158 | the element, or failure outside the bounds |
| Vectors.Collect | Containers/vector/Vector.h:183-207 | n appends to an empty vector hold exactly the values, with capacity and copies below 2n |

## Left out

- Stubs: the buffer pool, replacers, lock manager, log and checkpoint managers, watermarks, trie, skip list, HyperLogLog,
  the join, sort, aggregation, scan and modification executors, and the bodies of OR-sets have nothing to model; the
  stub optimizer rules return their plan.
- Values: comparing values of different types gives null, and an array of something other than decimals evaluates to
  null, where the original casts or throws; decimals are real numbers, strings compare by code.
- Optimizer: an index lists the rows of one key in table order; the predicate keys of an index scan, cardinality
  estimates and column lengths are not modelled; aggregate functions and the plan nodes gathered under `Other` have any
  meaning whatsoever. Predicates of filters and joins that are not of type BOOLEAN, or are the boolean null constant, are
  excluded from well-formed plans; the planner's NULL is an integer. So are sorts over the scan of a table, directly or
  under true filters and identity projections, whose first index on the sort's columns is unordered or has a null order
  that decides: there the rule is wrong (`SideConditions.SortRuleSoundIff`).
- Join types: RIGHT and OUTER joins have no meaning here, so no plan with them is well-formed.
- Planner: window functions, DISTINCT, LIMIT planning, unary operators, INSERT, DELETE, UPDATE and DDL. A subquery is
  known by the plan of its statement and the names of its columns; its own planning is not nested into the reference's.
- PlainSelects: the counter that numbers columns without a name is a parameter; DISTINCT, ORDER BY and LIMIT above the
  select list are not planned.
- Binder: parsing, expression binding and the messages of exceptions; all exceptions of column resolution count as
  ambiguity, and a reference to a common table expression is in scope when it is resolved.
- Naming.PlanColumnRef: the lookup of a missing column over one child, which aborts in the original, is an error value.
- Executors: exceptions during evaluation, and the C++ default batch size; the values, filter and projection executors
  are one class whose plan says which it is, and the loop body that filter and projection share is one method.
- TuplePairs.PairsLinearizable: takes the link map's operations as single steps; `PairLocks` proves the same for the
  locks of the two-level map. The check of an update is given the new link, as the code passes it. Other writers of the
  same records are excluded.
- PairLocks: starts from an empty link map, as the transaction manager does.
- VersionLinks: mutexes are the only synchronisation; timestamps and garbage collection are not modelled.
- Gossip: the nodes share one object with the driver; merging is any join and updates only grow a state.
- SketchObject: hash values are any numbers, taken modulo the width; sorting is by insertion, for which the original
  calls the library; moves and destruction are left out.
- SketchConcurrency: a cell is read and incremented atomically; Merge and Clear beside other calls are left out.
- Arenas: the contents of the buffer, and an alignment of zero, on which the original divides by zero.
- Vectors: object lifetime, allocation failure, capacities beyond a 32-bit integer, and an argument that refers into the
  vector's own buffer.
- The remaining directories (shapes, smart pointers, serializer, call_once, stack, parallel accumulation, shell, parser
  and scripts) would only add easy members or depend on library code.
