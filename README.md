# Backbone decision core in Dafny

This project models the decision core of the Backbone portfolio engine and
proves properties of the model:

- **The computation graph** (`runtime/graph.js`). This is the layered DAG of
  named engine stages and its depth-first topological sort. The sort visits
  names in sorted order and throws on a cycle or an unknown dependency. The
  graph also has a validator, a dependency lookup, and a transitive
  `dependsOn` search.
- **The value vector** (`predict/valueVector.js`). For each action it computes
  eight scores: direct impact, downside protection, ripple effect,
  optionality gain, probability, cost, time sensitivity and trust risk. It
  also computes the value density (at most 100) and a fixed-order list of
  explanation lines.
- **The weekly value exercise** (`predict/weeklyValue.js`). Each company gets:
  - its primary goal, the active goal due soonest;
  - its actions, given value vectors and sorted by density;
  - the best network move (an introduction) and the best operational move,
    each explained under six headings;
  - a two-line summary verdict from a 1.2× dominance rule.

  The portfolio rollup sorts companies by their best density and keeps the
  top three moves of each class.
- **The API server's event log and cache** (`api/server.js`):
  - the filter that hides completed or skipped actions;
  - the recording of completions, which refuses duplicates, and of skips,
    which never does;
  - the one-entry engine cache, with a 60-second time-to-live and cleared
    by every write;
  - the "today" reply, and the reply with no action;
  - the route matcher.
- **The mock "today" endpoint** (`ui/pages/api/actions/today.js`). Two id
  lists sit over a fixed list of three actions. A GET serves the first action
  in neither list. When none is left, it empties both lists and serves the
  first action again.

Files:

| file | contents |
|---|---|
| `common.dfy` | `Option`/`Result`, JavaScript truthiness (`||` defaults), `Min`/`Max`/`Round`, substring search, rank-ordered lists |
| `sequences.dfy` | order-preserving `filter`, the stable descending sort, `slice(0, n)`, and their laws |
| `graph.dfy` | `runtime/graph.js` |
| `value_vector.dfy` | `predict/valueVector.js` |
| `weekly_value.dfy` | `predict/weeklyValue.js` |
| `server.dfy` | `api/server.js` |
| `mock_today.dfy` | `ui/pages/api/actions/today.js` |

How the model takes the source's form:

- **`topoSort` and `dependsOn`.** Their recursive closures become methods with
  loops. The closures' shared `visited`/`visiting` sets and `order` array are
  passed in and returned as values (a `Search` record). The call stack is a
  ghost path.
- **The value-vector calculators.** They accumulate points and reasons step
  by step, so each is a method. A pure function on the input says which
  grants apply, in what order, and what they sum to. Each method is proved
  equal to that function.
- **`buildExplanation`.** It becomes a method that appends lines. It is
  proved equal to `ExplanationLines`, and the lemmas are about
  `ExplanationLines`.
- **The server's module-level state.** `events`, `cachedResult` and
  `cacheTimestamp` become the fields of the class `Server.ApiServer`. The
  handlers are its methods. Each handler's decision is a pure function of
  the log (`CompleteOutcome`, `SkipOutcome`), so lemmas can relate
  successive requests.
- **Key order of a JavaScript object.** The graph is a map, which has no
  order. `validateGraph` walks `Object.entries(graph)`, so `ValidateGraph`
  takes that insertion order of the keys as the parameter `entries`.
- **`today.js`'s module-level lists** become the fields of
  `MockToday.TodayStore`.
- **Text becomes tags.** Every piece of human-readable text is a constructor
  of a tag datatype carrying the numbers it shows, for example
  `PrimaryDriver(Ripple, 45)` or `HighEffort(70)`.
- **The JavaScript `type` field** is called `kind`, because `type` is a
  Dafny keyword. For the same reason the HTTP method is called `verb`.

Behaviour of the code that the model keeps, and that a reader might not
expect:

- Ripple effect and optionality gain are capped at 100 but not clamped
  below (predict/valueVector.js:133, 156, 160, 181). An attached negative
  leverage or optionality figure makes them negative.
  `RippleSumNonNegative` states the condition under which ripple is
  non-negative.
- Probability (`action.probability ?? impact.probabilityOfSuccess ?? 0.5`,
  predict/valueVector.js:233) is not clamped to [0, 1].
- Direct impact is the type's contribution rate times 100, whatever the
  size of the gap (predict/valueVector.js:93). An introduction toward a
  goal that is neither a fundraise nor a partnership takes the rate 0.1
  (predict/valueVector.js:77), so its direct impact is exactly 10
  (`IntroductionOnPlainGoal`).
- The summary's dominance test is strict: `nDensity > opDensity * 1.2`
  (predict/weeklyValue.js:230, 233).
- The branch that gives density 0 when the denominator is not positive
  (predict/valueVector.js:239) cannot be reached. Cost is at least 10
  (predict/valueVector.js:222) and the time multiplier at least 0.7
  (predict/valueVector.js:30-35), so the denominator is at least 7
  (`DenominatorBound`).

## Model

| member | source | states |
|---|---|---|
| Graph.LessIrreflexive | runtime/graph.js:120 | the default string order used by `nodes.sort()` never puts a name before itself |
| Graph.LessTransitive | runtime/graph.js:120 | the string order is transitive |
| Graph.LessTotal | runtime/graph.js:120 | any two distinct names are ordered one way or the other |
| Graph.InsertSorted | runtime/graph.js:120 | inserting a new name into a strictly sorted list keeps it strictly sorted, adds exactly that name, and grows it by one |
| Graph.SortedKeys | runtime/graph.js:90-120 | `Object.keys(graph).sort()` lists every key exactly once in strictly increasing order |
| Graph.SortedUnique | runtime/graph.js:120 | two strictly sorted lists of the same names are equal, so the visiting order is determined by the key set |
| Graph.Visit | runtime/graph.js:95-117 | the result is `VisitOf`, the recursive `visit` written as a function; on success the node and everything it depends on are visited and ordered dependencies-first, and the stack of calls in progress is unchanged; a cycle error names a node on a cycle, and an unknown-dependency error names a listed dependency that is not a key |
| Graph.VisitDependencies | runtime/graph.js:106-112 | the result is `DependenciesOf`, the dependency loop from its start; on success every dependency of the node is visited and the node itself is not yet; errors are sound as for `Visit` |
| Graph.CycleThroughPath | runtime/graph.js:100-102 | meeting a node that is still being visited means that node lies on a cycle |
| Graph.TopoSort | runtime/graph.js:89-125 | the result is `RootsOf` over the keys in sorted order: each root is visited in turn from an empty search, the first error met is the one thrown, and otherwise the order built is returned; it succeeds exactly when every dependency is a key and the graph is acyclic, the order then lists every key once with dependencies first, and a thrown error is true of the graph |
| Graph.SortResultUnique | runtime/graph.js:119-122 | any two strictly sorted lists of all the keys give the same result, so the order returned, or the error thrown, is determined by the graph alone |
| Graph.ErrorRefutes | runtime/graph.js:100-110 | a graph that provokes either error is not a closed DAG |
| Graph.TopoOrderClosed | runtime/graph.js:104-116 | a graph that has a topological order lists only keys as dependencies |
| Graph.TopoOrderAcyclic | runtime/graph.js:89-125 | a graph that has a topological order has no cycle |
| Graph.DependencyPrecedes | runtime/graph.js:104-116 | in a topological order each dependency comes before every name that lists it |
| Graph.MissingDependencies | runtime/graph.js:137-143 | the error list is `MissingOver(g, entries)`: node by node in the key order `entries`, and dependency by dependency in listed order, one error for each dependency that is not a key |
| Graph.MissingOfMembers | runtime/graph.js:138-142 | one node's errors name that node and a listed dependency that is not a key, and every such dependency has an error |
| Graph.MissingOverMembers | runtime/graph.js:137-143 | every error is a true missing dependency of a node walked, and every missing dependency of a node walked is reported |
| Graph.MissingOfCount | runtime/graph.js:138-142 | a missing dependency is reported once for each time the node lists it, and a present one never |
| Graph.MissingOverCount | runtime/graph.js:137-143 | over distinct keys, the error for (n, d) occurs as many times as n lists the missing d, and never for a node not walked |
| Graph.ValidateGraph | runtime/graph.js:132-153 | the errors are exactly `MissingOver(g, entries)` followed by the message of the error `topoSort(graph)` throws, if any (the same `RootsOf` result TopoSort returns); each (n, d) error occurs as many times as n lists the missing d; a sort failure is only ever last, and present whenever the graph is not a closed DAG; `valid` holds exactly when there are no errors, exactly when the graph is closed and acyclic |
| Graph.ShippedClosed | runtime/graph.js:31-74 | every dependency in the shipped `GRAPH` is itself a stage |
| Graph.ShippedEdgesDescend | runtime/graph.js:31-74 | the shipped stages admit a layering in which every stage sits above its dependencies |
| Graph.ShippedGraphIsDag | runtime/graph.js:31-74 | the shipped graph is closed and acyclic |
| Graph.GetExecutionOrder | runtime/graph.js:159-161 | `topoSort(GRAPH)` cannot throw and yields a topological order in which `valueVector` precedes `actionRanker`, which precedes `weeklyValue` |
| Graph.GetDependencies | runtime/graph.js:168-170 | the result lists exactly the stage's dependencies, and is empty for an unknown name |
| Graph.Check | runtime/graph.js:181-191 | `true` only when the target is reachable from the current stage; on `false` the visited set is closed under dependencies apart from the calls in progress |
| Graph.DependsOn | runtime/graph.js:178-194 | `dependsOn(a, b)` holds exactly when `b` is reachable from `a` along dependency edges (including `a == b`) |
| Sequences.Filter | predict/weeklyValue.js:121-123 | `filter` keeps exactly the elements that pass, and never grows the list |
| Sequences.FilterAppend | predict/weeklyValue.js:121-123 | filtering distributes over concatenation, so kept elements keep their order |
| Sequences.FilterIdempotent | api/server.js:85 | filtering twice by the same test is filtering once |
| Sequences.FilterAll | api/server.js:85 | a test every element passes keeps the list whole |
| Sequences.FilterCongruent | api/server.js:85 | tests that agree on the list's elements filter it alike |
| Sequences.FilterThen | api/server.js:85 | filtering by one test and then another is filtering by their conjunction |
| Sequences.FilterSplit | predict/weeklyValue.js:121-148 | a test and its negation partition a list: the two filtered parts together are a permutation of it |
| Sequences.FilterSplitCounts | predict/weeklyValue.js:121-148 | the two filtered parts together hold every element exactly as often as the list does |
| Sequences.FilterFirst | predict/weeklyValue.js:125-128 | the head of a filtered list is the first element of the list that passes, and everything before it fails |
| Sequences.FilterFirstPrecedes | predict/weeklyValue.js:175-179 | the first element that passes comes no later than any element that passes |
| Sequences.FilterDescending | predict/weeklyValue.js:290-293 | a filtered descending list is descending |
| Sequences.FilterHeadIsMax | predict/weeklyValue.js:127-128 | in a list sorted by descending density, the first element that passes has the largest density of all that pass |
| Sequences.InsertBy | predict/weeklyValue.js:187 | insertion adds exactly the one element (as a multiset) |
| Sequences.InsertByDescending | predict/weeklyValue.js:187 | insertion into a descending list keeps it descending |
| Sequences.SortByHeadIsMax | predict/weeklyValue.js:277-287 | the head of the descending sort has the largest key of its input |
| Sequences.SortBy | predict/weeklyValue.js:187 | the sort by descending key is a permutation of its input, and is descending |
| Sequences.InsertByStable | predict/weeklyValue.js:187 | insertion puts the new element ahead of the existing ones of equal key and keeps their order |
| Sequences.SortByStable | predict/weeklyValue.js:187 | the sort is stable: the elements of any one key keep their input order |
| Sequences.Take | predict/weeklyValue.js:129 | `slice(0, n)` is the first `min(n, length)` elements |
| Sequences.TopOfDescending | predict/weeklyValue.js:290-298 | the first n of a descending list are taken from it, and everything not taken has a key no greater than the last one taken |
| Sequences.DescendingTail | predict/weeklyValue.js:290-298 | in a descending list every element after a position has a key no greater than the one there |
| Sequences.PrefixRest | predict/weeklyValue.js:290-298 | a prefix and the rest of a list split its elements between them |
| ValueVector.CalculateTimeSensitivity | predict/valueVector.js:37-59 | without a due date: medium, no days; otherwise days is the floor of the time left in days, and the band is critical/high/medium/low exactly for days ≤7 / 8–21 / 22–45 / >45, with multiplier 2.0/1.5/1.0/0.7 |
| ValueVector.UrgencyMonotone | predict/valueVector.js:44-56 | an earlier due date never yields a smaller multiplier |
| ValueVector.MultiplierBounds | predict/valueVector.js:30-35 | every multiplier lies in [0.7, 2.0] |
| ValueVector.ContributionRate | predict/valueVector.js:70-91 | the contribution rate of any type lies in [0.1, 0.3] |
| ValueVector.CalculateDirectImpact | predict/valueVector.js:61-95 | direct impact lies in [0, 100]; it is 0 exactly when there is no goal or no open gap; otherwise it is 100 × the type's contribution rate |
| ValueVector.DirectImpactIgnoresGapSize | predict/valueVector.js:93-94 | with an open gap, the size of the gap does not change direct impact |
| ValueVector.IntroductionOnPlainGoal | predict/valueVector.js:71-78 | an introduction toward a goal that is neither fundraise nor partnership scores exactly 10 |
| ValueVector.DownsideReasonsMembers | predict/valueVector.js:101-123 | a reason is recorded exactly when its condition holds; "missed deadline" and "deadline risk" are never both recorded |
| ValueVector.DownsideReasonsOrdered | predict/valueVector.js:101-123 | reasons appear at most once each, in the fixed order of the grants |
| ValueVector.DownsideGrantsRecorded | predict/valueVector.js:101-123 | a grant contributes points exactly when its reason is recorded |
| ValueVector.CalculateDownsideProtection | predict/valueVector.js:97-126 | the reasons are the applicable grants in order, and the score is the sum of their points capped at 100, in [0, 100] |
| ValueVector.RippleDeltasMembers | predict/valueVector.js:136-154 | a delta is recorded exactly when its condition holds; the portfolio delta only comes with the new-connection delta |
| ValueVector.RippleDeltasOrdered | predict/valueVector.js:136-154 | deltas appear at most once each, in the fixed order |
| ValueVector.RippleSumNonNegative | predict/valueVector.js:132-156 | with a non-negative leverage figure the ripple sum is non-negative |
| ValueVector.CalculateRippleEffect | predict/valueVector.js:128-157 | the deltas are the applicable ones in order, and the score is leverage plus the grants (25, 20, 15 per unlocked goal, 10 per extra resolved issue) capped at 100 |
| ValueVector.OptionTagsMembers | predict/valueVector.js:163-179 | an option is recorded exactly when its condition holds; senior access only for introductions; fixed order |
| ValueVector.CalculateOptionalityGain | predict/valueVector.js:159-182 | the options are the applicable ones in order, and the score is the base figure plus the grants capped at 100 |
| ValueVector.CalculateCost | predict/valueVector.js:184-223 | cost is effort (the attached figure, else the type baseline) plus 30% of a truthy trust-risk score, clamped to [10, 100]; the components are exactly `CostComponents`: one effort component with that effort figure, then a trust component with the trust cost exactly when the trust score is truthy |
| ValueVector.EffortOverridesType | predict/valueVector.js:188-191 | with a truthy effort figure the action's type plays no part in the cost |
| ValueVector.Density | predict/valueVector.js:237-240 | density is at most 100; 0 when the denominator is not positive; non-negative for non-negative inputs |
| ValueVector.DensityMonotone | predict/valueVector.js:237-240 | with the same probability, cost and multiplier, raising any of direct impact, downside protection, ripple effect or optionality gain never lowers density |
| ValueVector.DenominatorBound | predict/valueVector.js:222-238 | since cost is at least 10, the denominator is at least 7, so the zero-denominator branch is unreachable |
| ValueVector.ComputeValueVector | predict/valueVector.js:225-254 | every field is the corresponding calculator applied to the action and goal, the cost's score and its components alike, the density follows the formula, and the explanation is `ExplanationLines` of the vector; direct impact in [0, 100], cost in [10, 100], density ≤ 100 |
| ValueVector.DriverScores | predict/valueVector.js:258-263 | the four driver scores in their listed order |
| ValueVector.FirstMax | predict/valueVector.js:258-266 | the stable descending sort's head is the first driver of maximal score |
| ValueVector.DriverLines | predict/valueVector.js:265-267 | at most one primary-driver line |
| ValueVector.ProbabilityLines | predict/valueVector.js:269-273 | at most one probability line |
| ValueVector.TimeLines | predict/valueVector.js:275-277 | at most one time-critical line |
| ValueVector.EffortLines | predict/valueVector.js:279-283 | at most one effort line |
| ValueVector.TrustLines | predict/valueVector.js:285-287 | at most one trust-risk line |
| ValueVector.ExplanationShape | predict/valueVector.js:256-291 | one to six lines, in the fixed order, each kind at most once, ending with the density line |
| ValueVector.ExplanationPrimaryDriver | predict/valueVector.js:258-267 | a primary-driver line appears exactly when the top score is positive, and names the first driver of maximal score with its rounded score |
| ValueVector.ExplanationThresholds | predict/valueVector.js:269-283 | high probability iff p ≥ 0.7, uncertain iff p ≤ 0.3, high effort iff cost > 60, low effort iff cost < 30, time-critical iff the band is critical |
| ValueVector.BuildExplanation | predict/valueVector.js:256-291 | the lines pushed are exactly `ExplanationLines(v)` |
| WeeklyValue.RippleUnlocks | predict/weeklyValue.js:46-48 | one unlock per ripple delta, in order |
| WeeklyValue.OptionUnlocks | predict/weeklyValue.js:49-51 | one unlock per option, in order |
| WeeklyValue.Preventions | predict/weeklyValue.js:59-62 | one prevention per downside reason, in order |
| WeeklyValue.WhyNowOf | predict/weeklyValue.js:29-39 | critical deadline iff the band is critical, high urgency iff high, relationship capital iff neither and an introduction; the deadline forms carry the days remaining |
| WeeklyValue.CollectUnlocks | predict/weeklyValue.js:41-56 | the pushes build exactly `UnlocksOf`: one unlock per ripple delta, then one per option, then the contact for an introduction, or the default pair when that is empty |
| WeeklyValue.UnlocksOfMembers | predict/weeklyValue.js:41-56 | every ripple effect and every option is listed; the contact unlock iff an introduction; each default unlock iff there are no deltas, no options and no introduction |
| WeeklyValue.UnlocksOfOrder | predict/weeklyValue.js:41-52 | when something is listed, the list is the deltas in order, then the options in order, then the contact for an introduction, and nothing else |
| WeeklyValue.PreventedBy | predict/weeklyValue.js:58-62 | never empty; the recorded downside reasons if any, else the default pair |
| WeeklyValue.BeatsOf | predict/weeklyValue.js:64-80 | "only viable" iff there are no alternatives; "higher density" iff the rounded gap to the first alternative exceeds 10, with that gap; the network argument only for an introduction over a non-introduction |
| WeeklyValue.IfDelayedOf | predict/weeklyValue.js:82-91 | the delay consequence follows the same band and type cases as "why now" |
| WeeklyValue.NextSteps | predict/weeklyValue.js:93-112 | three steps; the introduction follow-ups iff an introduction, the pipeline steps iff not and the goal is a fundraise |
| WeeklyValue.GenerateExplanation | predict/weeklyValue.js:25-115 | the explanation is `ExplanationOf`: why-now, unlocks, prevents, why-it-beats, if-delayed and next steps are `WhyNowOf`, `UnlocksOf`, `PreventedBy`, `BeatsOf` against the given alternatives, `IfDelayedOf` and `NextSteps`; the unlock and prevention lists are never empty and there are three next steps |
| WeeklyValue.NetworkSplit | predict/weeklyValue.js:121-148 | every action is network or operational and never both: the two classes partition the list |
| WeeklyValue.NetworkAlternatives | predict/weeklyValue.js:134-138 | one alternative per action, with its id and density |
| WeeklyValue.OperationalAlternatives | predict/weeklyValue.js:158-162 | one alternative per action, with its id and density |
| WeeklyValue.SelectBestNetworkAction | predict/weeklyValue.js:120-140 | the result is `NetworkSelection`: null iff there is no introduction; otherwise the first introduction in list order, explained by `ExplanationOf` against the next (at most) three introductions, which are listed as its alternatives with their ids, contact names and densities |
| WeeklyValue.SelectBestNonNetworkAction | predict/weeklyValue.js:145-164 | the result is `OperationalSelection`: null iff there is no non-introduction; otherwise the first one in list order, explained by `ExplanationOf` against the next (at most) three, which are listed as its alternatives with their ids, titles and densities |
| WeeklyValue.PrimaryGoal | predict/weeklyValue.js:173-179 | none iff no goal is active; otherwise an active goal of the company |
| WeeklyValue.PrimaryGoalSoonest | predict/weeklyValue.js:175-179 | the primary goal is due no later than any active goal |
| WeeklyValue.PrimaryGoalFirstOfTies | predict/weeklyValue.js:175-179 | among active goals due at the same time it is the first in the company's list (the sort is stable) |
| WeeklyValue.PrimaryGoalEarliest | predict/weeklyValue.js:173-179 | both of the above, stated on due dates |
| WeeklyValue.DominanceExclusive | predict/weeklyValue.js:230-233 | for non-negative densities the two 1.2× dominance tests never both hold |
| WeeklyValue.BuildSummary | predict/weeklyValue.js:223-252 | two lines; with both moves, network priority iff n > 1.2·op, operational iff op > 1.2·n and not the former, balanced otherwise, and in each case the exact pair: the rounded density of the network move and its contact (`targetPersonName \|\| 'Contact'`), the rounded density of the operational move and its `title \|\| id`, or the rounded mean and the time-limited advice; the fixed single-class and empty verdicts otherwise |
| WeeklyValue.SummarizeGoal | predict/weeklyValue.js:197-203 | days remaining present iff a due date is, and is the floor of the time left in days; progress is absent iff the target is 0 |
| WeeklyValue.AttachVectors | predict/weeklyValue.js:184-186 | each action keeps an attached vector, or gets exactly the vector `computeValueVector` gives it under the primary goal; nothing else changes, order is kept |
| WeeklyValue.AttachedKeepsClasses | predict/weeklyValue.js:184-186 | attaching vectors does not change which actions are introductions |
| WeeklyValue.SortKeepsClasses | predict/weeklyValue.js:187 | sorting by density does not change whether a class is present |
| WeeklyValue.SelectMoves | predict/weeklyValue.js:184-191 | the two moves are `NetworkSelection` and `OperationalSelection` of the actions sorted stably by descending density, explanations and alternatives included; each is absent iff the actions hold none of its class |
| WeeklyValue.SelectedIsDensest | predict/weeklyValue.js:127-128 | the selected move has the highest density of its class |
| WeeklyValue.GenerateCompanyWeeklyValue | predict/weeklyValue.js:169-218 | `CompanyWeeklyOf`: the id, name and action count; the summary of the primary goal; the vectors attached as `Attached` states; both moves, with their explanations and alternatives, are the selections over the attached actions sorted by density, each absent iff the ranked actions hold none of its class; the summary is exactly the two lines of the verdict rule for those two moves |
| WeeklyValue.ActionsOf | predict/weeklyValue.js:261-268 | a company's group holds exactly the actions keyed to it, in order |
| WeeklyValue.GroupByCompany | predict/weeklyValue.js:260-268 | every key present maps to its non-empty group in input order; absent keys have no actions |
| WeeklyValue.GroupStep | predict/weeklyValue.js:262-267 | pushing one more action onto its key's group, created empty when missing, keeps every group exact |
| WeeklyValue.GroupLookup | predict/weeklyValue.js:272 | `actionsByCompany.get(company.id) \|\| []` is the company's own actions, in order |
| WeeklyValue.NetworkMoves | predict/weeklyValue.js:309-313 | one move per company, with the company's name, its network density and, when it has one, the move named `targetPersonName \|\| id` |
| WeeklyValue.OperationalMoves | predict/weeklyValue.js:314-318 | one move per company, with the company's name, its operational density and, when it has one, the move named `title \|\| id` |
| WeeklyValue.TopNetworkMoves | predict/weeklyValue.js:290-293 | the moves of `NetworkLeaders`, the first three companies with a network move in the stable density sort; at most three, by non-increasing density |
| WeeklyValue.NetworkMovesDescending | predict/weeklyValue.js:290-293 | moves listed from companies in descending network density are in descending order |
| WeeklyValue.TopNetworkMovesDensest | predict/weeklyValue.js:290-293 | the leaders are min(3, k) of the k companies with a network move, each a distinct occurrence of one of them; the first is at least as dense as every company with a network move, and every such company left out is no denser than the last leader |
| WeeklyValue.TopOperationalMoves | predict/weeklyValue.js:295-298 | the moves of `OperationalLeaders`, the first three companies with an operational move in the stable density sort; at most three, by non-increasing density |
| WeeklyValue.OperationalMovesDescending | predict/weeklyValue.js:295-298 | moves listed from companies in descending operational density are in descending order |
| WeeklyValue.TopOperationalMovesDensest | predict/weeklyValue.js:295-298 | the leaders are min(3, k) of the k companies with an operational move, each a distinct occurrence of one of them; the first is at least as dense as every company with an operational move, and every such company left out is no denser than the last leader |
| WeeklyValue.GeneratePortfolioWeeklyValue | predict/weeklyValue.js:257-328 | each company's value is `CompanyWeeklyOf` over exactly its own actions (all of `generateCompanyWeeklyValue`'s guarantees); each summary is exactly the verdict rule's two lines; companies are those values sorted stably by best density, descending, and a permutation of them; the top-move lists are `TopNetworkMoves` and `TopOperationalMoves` of that order; the stats count the companies with each class of move; the action total is the input count |
| Server.FilterCompletedActions | api/server.js:78-86 | keeps exactly the actions whose id no completion or skip names, never more than given |
| Server.FilterCompletedIdempotent | api/server.js:78-86 | filtering the available list again against the same log changes nothing |
| Server.EmptyLogKeepsAll | api/server.js:78-86 | with an empty log (as after DELETE) every action is available in engine order |
| Server.ClosingEventRemoves | api/server.js:78-86 | appending a completion or skip removes exactly the actions of that id and keeps the rest in order |
| Server.OtherEventKeeps | api/server.js:79-82 | a log entry of another kind changes nothing |
| Server.TopAction | api/server.js:109-121 | the `{action: null}` reply iff every action is closed; otherwise an open action from the engine output |
| Server.TopActionIsFirstOpen | api/server.js:112-120 | the served action is the first open one in engine order |
| Server.CompleteAccepts | api/server.js:139-158 | a completion is recorded iff the ids agree, `completedAt` is present, and the id has no completion yet |
| Server.SecondCompletionConflicts | api/server.js:151-167 | after a completion is recorded, the same request is a 409 conflict |
| Server.SkipKeepsCompletion | api/server.js:151-153 | appending a skip leaves every completion decision unchanged, so a skipped action can still be completed |
| Server.StoredIsFresh | api/server.js:49-58 | a result stored at a non-zero time is served for the next 60000 ms and no longer; an emptied cache is never served |
| Server.ApiServer.constructor | api/server.js:49-50 | the server starts with the loaded log and nothing cached |
| Server.ApiServer.GetEngineOutput | api/server.js:53-67 | the result is `Served(now)`: the stored result while fresh, else the engine's result; while fresh, or when the engine throws, the cache is untouched; otherwise the new result is stored stamped `now`; the log is unchanged |
| Server.ApiServer.InvalidateCache | api/server.js:69-72 | both cache fields are cleared, so the next read computes |
| Server.ApiServer.Today | api/server.js:109-121 | when the engine output is served, the reply is `TopAction` of it against the log (the first open action, or the `{action: null}` reply); when the engine throws, the 500 reply of the request handler (api/server.js:336-340); the cache afterwards is as `GetEngineOutput` leaves it, and the log is unchanged |
| Server.ApiServer.Complete | api/server.js:135-174 | the outcome is `CompleteOutcome` of the log; when recorded, exactly one completion event is appended and the cache is cleared; otherwise log and cache are unchanged |
| Server.ApiServer.Skip | api/server.js:176-207 | the outcome depends only on the request; when valid, exactly one skip event (with an empty reason stored as null) is appended and the cache is cleared; otherwise nothing changes |
| Server.ApiServer.ClearEvents | api/server.js:234-238 | the log and the cache are emptied |
| Server.Split | api/server.js:282-286 | `split` yields at least one piece, and no piece contains the separator |
| Server.SplitJoin | api/server.js:285-286 | joining the pieces with the separator gives the string back |
| Server.JoinSplit | api/server.js:285-286 | splitting a join of separator-free pieces gives the pieces back |
| Server.Lookup | api/server.js:276-279 | the exact-key lookup finds an entry with that key, or none exists |
| Server.FirstPattern | api/server.js:281-305 | none iff no pattern matches; otherwise the first matching pattern in table order, with its bound parameters |
| Server.RouteForNone | api/server.js:275-308 | `matchRoute` returns null iff no key equals the request and no pattern matches it |
| Server.RouteForSound | api/server.js:275-308 | a route found is in the table and is either the exact entry with no parameters or a matching pattern with its parameters |
| Server.BindLast | api/server.js:293-296 | each parameter name is bound to the path segment under its last occurrence |
| Server.BindNames | api/server.js:293-296 | every bound name comes from a `:` segment |
| Server.MatchSegments | api/server.js:290-300 | the segment loop succeeds iff every literal segment agrees, and then binds every parameter |
| Server.MatchPattern | api/server.js:282-300 | a pattern matches iff the method agrees, the segment counts agree and the literal segments agree |
| Server.MatchRoute | api/server.js:275-308 | the result is `RouteFor`: the exact entry first, else the first matching pattern, else null |
| MockToday.Available | ui/pages/api/actions/today.js:72-75 | keeps exactly the actions whose id is in neither list, in list order |
| MockToday.NothingProcessedKeepsAll | ui/pages/api/actions/today.js:77-81 | with both lists empty every action is available, so after a reset the first action is served again |
| MockToday.AvailableFirst | ui/pages/api/actions/today.js:72-85 | the action served is the first of the list in neither id list |
| MockToday.TodayStore.constructor | ui/pages/api/actions/today.js:63-64 | the store starts with the fixed list and both id lists empty |
| MockToday.TodayStore.Handler | ui/pages/api/actions/today.js:66-86 | non-GET: 405 and nothing changes; GET: always 200 with an action of the list, the first available one with the lists kept, or the first action with both lists emptied when none is available; the handler never adds an id |

## Left out

- File I/O: `loadPortfolioData`, `loadActionEvents` and `saveActionEvents` are not modelled. The log is an in-memory field, and the parsed portfolio is a constant the engine is applied to.
- HTTP transport is not modelled: `http.createServer`, the `json` helper, CORS headers, `parseBody` and `listen`. Request bodies arrive already parsed.
- Server routes: `GET /api/health`, `GET /api/actions`, `GET /api/actions/:id`, the company routes, `GET /api/events` and `GET /api/meta` only read and return data. They are in the route table, but their handlers are not modelled.
- `compute` and the ranking it performs are outside this model. The engine is the function-valued field `ApiServer.compute`; it gives no output when loading the portfolio or computing throws.
- Clocks and randomness become inputs. `Date.now()` is the `now` parameter, in milliseconds. The event id and the ISO timestamp an event records are parameters. `generateCompanyWeeklyValue` defaults `now` only locally and does not copy it into the context it hands to `computeValueVector`, which therefore reads the clock again when the caller's context has no `now` (predict/weeklyValue.js:169, 180; predict/valueVector.js:226). The model passes the same `now` to both.
- Server.ApiServer.GetEngineOutput: `compute` is called with the same `now` as the cache test, although the source takes a second `new Date()`.
- The `weekOf` and `generatedAt` strings are not modelled: they are date formatting.
- Display text is not modelled: every message is a tag with its numbers. `Math.round` in text is `Round`, which rounds halves up.
- Floating point: numbers are exact reals, and NaN and infinities are not modelled.
- WeeklyValue.SummarizeGoal: a zero target gives no progress figure, where the source would compute `Infinity` or `NaN`.
- WeeklyValue.PrimaryGoal: a goal without a due date sorts with key 0. In the source, `new Date(undefined)` makes the comparator return `NaN`, and the resulting order depends on the engine.
- WeeklyValue.PrimaryGoalSoonest, WeeklyValue.PrimaryGoalFirstOfTies, WeeklyValue.PrimaryGoalEarliest: these assume every active goal has a due date.
- Ripple deltas carry tags instead of effect strings. The count in "Unlocks N downstream goals" and "Resolves N issues" is kept as a number.
- Graph.TopoSort: JavaScript compares UTF-16 code units, while Dafny characters are code points. The two orders agree on the ASCII stage names.
- Route-table entries are (method, path) pairs rather than `"METHOD path"` strings split at the space. The exact-key lookup still compares `method + " " + path`.
- The message strings of errors are not modelled: `SortError` and `ValidationError` carry the names they would print.
- Graph.GetDependencies: `GRAPH[node] || []` also finds the names `Object.prototype` supplies, such as `constructor` or `toString`, and returns that property instead of a list; the model treats every name that is not a stage as having no dependencies.
- Graph.DependsOn: the same lookup inside `check` makes `dependsOn` throw a `TypeError` for such a name, since the property found is not iterable; the model treats such a name as a stage-less leaf.
- MockToday.TodayStore.Handler: requires a non-empty action list. The constructor sets the list to the three fixed actions.
