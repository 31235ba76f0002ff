# Code-assessment server core in Dafny

This project models the computational core of a code-assessment server. The server analyses
GitHub projects with static analysers, ranks the projects and filters them against
user constraints. The model covers four parts:

- **The metric normaliser** (`MetricCalculationService.applyUtf` and its helpers).
  - It turns a raw quality-metrics report, plus the issue and hotspot lists of the analysis, into a report of utility scores.
  - Ratios are rewritten as `1 - x`.
  - Complexity and security remediation effort are rewritten relative to LINES_OF_CODE.
  - Three composite scores are computed by a tier cascade over severity or probability counts: BUG_SEVERITY, VULNERABILITY_SEVERITY and HOTSPOT_PRIORITY.
  - Metric values are exact reals.
  - For a valid raw report every utility it stores lies in [0, 1]. Valid means a positive LINES_OF_CODE, ratios in [0, 1], complexities at most LINES_OF_CODE and security effort within 0.06 per line.
  - `applyUtf` works by updating a fresh map step by step, so it is a method. Its forEach becomes the loop of `RewriteMetrics`.
  - The helpers are functions.
- **The constraint filter** (`FilteringService.filter`).
  - A loop that appends each analysis report to a compliant or a non-compliant list.
  - A report is compliant when every constraint accepts the value it has for the constraint's metric.
  - The per-constraint comparison (`Constraint.matchOperatorToCondition`) is a parameter.
- **The ranking tree builder** (`TreeService.buildTree`, `addChildren`).
  - It allocates the 19 `TreeNode` objects of the quality-attribute tree and links them by appending children.
  - `TreeNode` is a class whose `children` sequence is updated in place.
  - The tree it builds is proved to realise the value `TreeShape.RankingShape`. Facts about names, distinctness and the 11 leaves are proved about that value.
- **The operator deserializer** (`OperatorDeserializer.deserialize`).
  - A linear scan of the comparison operators that returns the first one whose symbol equals the parsed string.
  - It fails with `"Invalid operator symbol: " + symbol` otherwise.

Modules, one per file:

| module | file |
|---|---|
| `Wrappers` | `wrappers.dfy` |
| `QualityModel` | `quality_model.dfy` |
| `MetricCalculation` | `metric_calculation.dfy` |
| `Operators` | `operator_deserializer.dfy` |
| `Filtering` | `filtering.dfy` |
| `TreeShape` | `tree_shape.dfy` |
| `RankingTree` | `tree.dfy` |

Two behaviours of the code are modelled as written:

- **Hotspot priority, MEDIUM band.** In the MEDIUM branch (MetricCalculationService.java:177-180) the 0.33 stands inside the denominator, beside the damped LOW term, and no band offset is added.
  - The band is therefore (0, 0.33/1.33], which overlaps the HIGH band.
  - `HighAfterMediumRaisesPriority` shows the consequence: adding a HIGH hotspot to a list holding one MEDIUM hotspot raises the score.
- **COMMENT_RATE.** applyUtf stores `metricsReport.get(COMMENT_RATE)` (line 28), which is `null` when the input has no such entry.
  - The model leaves the key out in that case.
  - A later lookup of an absent key and of a `null` value give the same answer.

## Model

| member | source | states |
|---|---|---|
| MetricCalculation.DuplicationUtf | src/main/java/gr/aegean/service/analysis/MetricCalculationService.java:59-61 | a duplication ratio in [0, 1] gives a utility in [0, 1]; the utility is 1 exactly when there is no duplication |
| MetricCalculation.TechnicalDebtRatioUtf | src/main/java/gr/aegean/service/analysis/MetricCalculationService.java:67-69 | a debt ratio in [0, 1] gives a utility in [0, 1]; the utility is 1 exactly when the ratio is 0 |
| MetricCalculation.ReliabilityRemediationEffortUtf | src/main/java/gr/aegean/service/analysis/MetricCalculationService.java:71-73 | an effort within the budget of 0.06 per line gives a utility in [0, 1]; the utility is 1 exactly when the effort is 0 |
| MetricCalculation.ComplexityUtf | src/main/java/gr/aegean/service/analysis/MetricCalculationService.java:75-77 | a complexity between 0 and the line count gives a utility in [0, 1]; the utility is 1 exactly when the complexity is 0 |
| MetricCalculation.SecurityRemediationEffortUtf | src/main/java/gr/aegean/service/analysis/MetricCalculationService.java:79-81 | an effort within the budget of 0.06 per line gives a utility in [0, 1]; the utility is 1 exactly when the effort is 0 |
| MetricCalculation.ComplexityUtfAntitone | src/main/java/gr/aegean/service/analysis/MetricCalculationService.java:75-77 | for a positive line count, more complexity never gives a higher utility |
| MetricCalculation.SecurityRemediationEffortUtfAntitone | src/main/java/gr/aegean/service/analysis/MetricCalculationService.java:79-81 | for a positive line count, more remediation effort never gives a higher utility |
| MetricCalculation.Utf | src/main/java/gr/aegean/service/analysis/MetricCalculationService.java:205-207 | the damping of an empty tier is 0; for a count of at least 1 it lies in [2/3, 1) |
| MetricCalculation.UtfClosedForm | src/main/java/gr/aegean/service/analysis/MetricCalculationService.java:206 | 1 / (1 + 1 / (1 + n)) equals (n + 1) / (n + 2), which lies in [2/3, 1) for n >= 1 |
| MetricCalculation.UtfStrictlyIncreasing | src/main/java/gr/aegean/service/analysis/MetricCalculationService.java:205-207 | the damping strictly increases with the count |
| MetricCalculation.GroupCount | src/main/java/gr/aegean/service/analysis/MetricCalculationService.java:155-156 | groupingBy/counting has a key exactly for each element that occurs, with a count of at least 1 |
| MetricCalculation.GroupCountMultiplicity | src/main/java/gr/aegean/service/analysis/MetricCalculationService.java:155-156 | the count read from the grouping with getOrDefault(key, 0), as at lines 94-98 and 167-169, is the number of occurrences of the key |
| MetricCalculation.SeveritiesOfType | src/main/java/gr/aegean/service/analysis/MetricCalculationService.java:141-144 | the filtered severity list holds a severity exactly when an issue of the requested type has it, and is no longer than the issue list |
| MetricCalculation.SeveritiesOfTypeAppend | src/main/java/gr/aegean/service/analysis/MetricCalculationService.java:141-144 | the filter-and-map over a concatenation is the concatenation of the results |
| MetricCalculation.CountSeverityByType | src/main/java/gr/aegean/service/analysis/MetricCalculationService.java:136-157 | a severity has a count exactly when an issue of the requested type has it; every count is at least 1 |
| MetricCalculation.ProbabilitiesOf | src/main/java/gr/aegean/service/analysis/MetricCalculationService.java:197-199 | the mapped list has one probability per hotspot and holds a probability exactly when some hotspot has it |
| MetricCalculation.CountVulnerabilityProbabilityByType | src/main/java/gr/aegean/service/analysis/MetricCalculationService.java:192-203 | a probability has a count exactly when some hotspot has it; every count is at least 1 |
| MetricCalculation.Share | src/main/java/gr/aegean/service/analysis/MetricCalculationService.java:101-105 | the quotient unit * 1 / (count * correction) is positive and at most unit / correction, which is at most unit |
| MetricCalculation.ShareCountAntitone | src/main/java/gr/aegean/service/analysis/MetricCalculationService.java:100-127 | a larger count of the deciding tier gives a strictly smaller quotient |
| MetricCalculation.ShareCorrectionAntitone | src/main/java/gr/aegean/service/analysis/MetricCalculationService.java:100-124 | a larger damped correction gives a strictly smaller quotient |
| MetricCalculation.BlockerCorrection | src/main/java/gr/aegean/service/analysis/MetricCalculationService.java:101-105 | the factor beside the BLOCKER count lies in [1, 1.1111) and is 1 exactly when no CRITICAL, MAJOR, MINOR or INFO issue is counted |
| MetricCalculation.CriticalCorrection | src/main/java/gr/aegean/service/analysis/MetricCalculationService.java:109-112 | the factor beside the CRITICAL count lies in [1, 1.111) and is 1 exactly when no MAJOR, MINOR or INFO issue is counted |
| MetricCalculation.MajorCorrection | src/main/java/gr/aegean/service/analysis/MetricCalculationService.java:116-118 | the factor beside the MAJOR count lies in [1, 1.11) and is 1 exactly when no MINOR or INFO issue is counted |
| MetricCalculation.MinorCorrection | src/main/java/gr/aegean/service/analysis/MetricCalculationService.java:122-123 | the factor beside the MINOR count lies in [1, 1.1) and is 1 exactly when no INFO issue is counted |
| MetricCalculation.SeverityCascade | src/main/java/gr/aegean/service/analysis/MetricCalculationService.java:100-133 | the most severe populated tier picks the band: BLOCKER (0, 0.2], CRITICAL (0.2, 0.4], MAJOR (0.4, 0.6], MINOR (0.6, 0.8], INFO (0.8, 1.0]; no issue gives exactly 1.0 |
| MetricCalculation.SeverityCascadeAntitone | src/main/java/gr/aegean/service/analysis/MetricCalculationService.java:100-133 | one more issue of any severity never raises the score, and strictly lowers it unless it is a single INFO issue on an empty tally |
| MetricCalculation.SeverityCascadeTopTierStrict | src/main/java/gr/aegean/service/analysis/MetricCalculationService.java:100-127 | holding the lower tiers fixed, more issues in the most severe populated tier give a strictly lower score |
| MetricCalculation.TallyOfCounts | src/main/java/gr/aegean/service/analysis/MetricCalculationService.java:94-98 | the five getOrDefault(severity, 0) reads give the empty tally exactly when no severity has a positive count |
| MetricCalculation.SeverityTallyOf | src/main/java/gr/aegean/service/analysis/MetricCalculationService.java:88-98 | a severity tier is populated exactly when an issue of the requested type has that severity; the tally is empty exactly when no issue has the type |
| MetricCalculation.ApplyMetricsUtf | src/main/java/gr/aegean/service/analysis/MetricCalculationService.java:86-134 | the score lies in (0, 1]; with no issue of the type it is 1.0; otherwise the most severe severity present among issues of that type picks the band of the score |
| MetricCalculation.OtherTypesIgnored | src/main/java/gr/aegean/service/analysis/MetricCalculationService.java:141-144 | inserting an issue of another type anywhere in the list leaves the score of the requested type unchanged |
| MetricCalculation.GroupCountAppend | src/main/java/gr/aegean/service/analysis/MetricCalculationService.java:155-156 | appending an element adds one to its own count and leaves every other count as it was |
| MetricCalculation.TallyOfCountsAppend | src/main/java/gr/aegean/service/analysis/MetricCalculationService.java:94-98 | the five default-0 counts of a severity list with one more severity are the old counts with that tier bumped |
| MetricCalculation.SeverityTallyAppend | src/main/java/gr/aegean/service/analysis/MetricCalculationService.java:88-98 | appending an issue of the requested type adds one to the count of its severity |
| MetricCalculation.MoreIssuesNeverRaiseScore | src/main/java/gr/aegean/service/analysis/MetricCalculationService.java:86-157 | one more issue of the requested type never raises its severity score, and strictly lowers it unless it is a single INFO issue on a list with no issue of that type |
| MetricCalculation.HotspotCascade | src/main/java/gr/aegean/service/analysis/MetricCalculationService.java:171-189 | HIGH present gives (0, 0.33]; else MEDIUM present gives (0, 0.33/1.33]; else LOW present gives (0.66, 0.99]; no hotspot gives exactly 1.0 |
| MetricCalculation.HighCorrection | src/main/java/gr/aegean/service/analysis/MetricCalculationService.java:172-174 | the factor beside the HIGH count lies in [1, 1.11) and is 1 exactly when no MEDIUM or LOW hotspot is counted |
| MetricCalculation.MediumCorrection | src/main/java/gr/aegean/service/analysis/MetricCalculationService.java:178-179 | the factor beside the MEDIUM count, with its extra 0.33, lies in [1.33, 1.43) and is 1.33 exactly when no LOW hotspot is counted |
| MetricCalculation.HighAfterMediumRaisesCascade | src/main/java/gr/aegean/service/analysis/MetricCalculationService.java:171-180 | one MEDIUM hotspot scores 0.33/1.33; one HIGH plus one MEDIUM scores 0.33/(1 + 0.1 * 2/3), which is higher |
| MetricCalculation.HotspotCascadeAntitone | src/main/java/gr/aegean/service/analysis/MetricCalculationService.java:171-189 | one more hotspot strictly lowers the score, except a HIGH hotspot added to a tally with MEDIUM and no HIGH |
| MetricCalculation.ProbabilityTallyOf | src/main/java/gr/aegean/service/analysis/MetricCalculationService.java:160-169 | a probability tier is populated exactly when some hotspot has that probability; the tally is empty exactly when there is no hotspot |
| MetricCalculation.ApplyHotSpotPriorityUtf | src/main/java/gr/aegean/service/analysis/MetricCalculationService.java:159-190 | the score lies in (0, 1]; no hotspot gives 1.0; the most likely probability present picks the band as in HotspotCascade |
| MetricCalculation.ProbabilityTallyAppend | src/main/java/gr/aegean/service/analysis/MetricCalculationService.java:192-203 | appending a hotspot adds one to the count of its probability |
| MetricCalculation.HighAfterMediumRaisesPriority | src/main/java/gr/aegean/service/analysis/MetricCalculationService.java:171-180 | the list [MEDIUM, HIGH] scores higher than [MEDIUM]: a more likely vulnerability can improve the hotspot priority |
| MetricCalculation.MoreHotspotsLowerPriority | src/main/java/gr/aegean/service/analysis/MetricCalculationService.java:159-203 | one more hotspot strictly lowers the priority score, except a HIGH hotspot added to a list with MEDIUM and no HIGH hotspots |
| MetricCalculation.RewrittenValue | src/main/java/gr/aegean/service/analysis/MetricCalculationService.java:31-44 | the utility the switch stores for a rewritten metric is 1 exactly when the raw value is 0, and lies in [0, 1] when the raw value is in its range (a ratio in [0, 1], a complexity in [0, LINES_OF_CODE], a security effort in [0, 0.06 * LINES_OF_CODE]) |
| MetricCalculation.CompositeUpdates | src/main/java/gr/aegean/service/analysis/MetricCalculationService.java:47-54 | the three composite puts add exactly those keys with the given scores and leave every other key as it was |
| MetricCalculation.RewriteMetrics | src/main/java/gr/aegean/service/analysis/MetricCalculationService.java:26-45 | fails exactly when a complexity or security-effort metric is present and LINES_OF_CODE is absent (MissingLinesOfCode) or 0 (ZeroLinesOfCode); otherwise it holds COMMENT_RATE unchanged and exactly the rewritten metrics of the input, each with its transform's utility; for a valid report every stored value lies in [0, 1] |
| MetricCalculation.ApplyUtf | src/main/java/gr/aegean/service/analysis/MetricCalculationService.java:23-57 | the same failure cases; on success the new report holds exactly COMMENT_RATE (unchanged), the rewritten input metrics and the three composite scores, and drops METHOD_SIZE, RELIABILITY_REMEDIATION_EFFORT and LINES_OF_CODE; for a valid report (a positive LINES_OF_CODE and every value in its range) every stored utility lies in [0, 1] |
| Filtering.IsCompliant | src/main/java/gr/aegean/service/assessment/FilteringService.java:25-27 | allMatch, applying each constraint to the Map.get value of its metric (None when the report lacks the metric), holds over an empty constraint list |
| Filtering.Select | src/main/java/gr/aegean/service/assessment/FilteringService.java:24-34 | the selection of one compliance is no longer than the input, and every selected report has that compliance |
| Filtering.Filter | src/main/java/gr/aegean/service/assessment/FilteringService.java:15-37 | returns [compliant, nonCompliant]: the stable selections of compliant and non-compliant reports; together they hold every input report exactly as often as it occurs; a report is in the first list exactly when every constraint accepts it; no constraints make every report compliant |
| Filtering.SelectSizes | src/main/java/gr/aegean/service/assessment/FilteringService.java:24-34 | the two list lengths add up to the number of reports |
| Filtering.SelectPartition | src/main/java/gr/aegean/service/assessment/FilteringService.java:24-34 | the two lists together are a permutation of the input |
| Filtering.SelectMembers | src/main/java/gr/aegean/service/assessment/FilteringService.java:25-33 | a report is in a list exactly when it is an input report of that list's compliance |
| Filtering.SelectPositions | src/main/java/gr/aegean/service/assessment/FilteringService.java:24-34 | each list embeds into the input at strictly increasing positions |
| Filtering.SelectKeepsOrder | src/main/java/gr/aegean/service/assessment/FilteringService.java:24-34 | each list is a subsequence of the input, keeping relative order |
| Filtering.NoConstraintsAllCompliant | src/main/java/gr/aegean/service/assessment/FilteringService.java:25 | with an empty constraint list the compliant list is the input and the non-compliant list is empty |
| Filtering.ComplianceWithExtra | src/main/java/gr/aegean/service/assessment/FilteringService.java:25-27 | allMatch over one more constraint holds exactly when allMatch over the old ones holds and the new one accepts |
| Filtering.Narrowed | src/main/java/gr/aegean/service/assessment/FilteringService.java:25-33 | the position maps behind ExtraConstraintOnlyRemoves |
| Filtering.ExtraConstraintOnlyRemoves | src/main/java/gr/aegean/service/assessment/FilteringService.java:25-27 | adding a constraint shrinks the compliant list to a subsequence of itself and grows the non-compliant list to a supersequence: reports only move from compliant to non-compliant |
| Operators.QualityMetricOperator.Symbol | src/main/java/gr/aegean/deserializer/OperatorDeserializer.java:20 | every operator symbol has one or two characters and no space |
| Operators.Values | src/main/java/gr/aegean/deserializer/OperatorDeserializer.java:19 | values() lists every operator exactly once, six in all |
| Operators.SymbolsDistinct | src/main/java/gr/aegean/deserializer/OperatorDeserializer.java:19-21 | no two operators share a symbol |
| Operators.KnownSymbolIffSomeOperator | src/main/java/gr/aegean/deserializer/OperatorDeserializer.java:19-21 | a string is matched in the scan exactly when it is the symbol of some operator |
| Operators.NoTrimming | src/main/java/gr/aegean/deserializer/OperatorDeserializer.java:20 | an empty string or one containing a space matches no operator, since the comparison is exact |
| Operators.Deserialize | src/main/java/gr/aegean/deserializer/OperatorDeserializer.java:13-25 | succeeds exactly for a non-null known symbol, with the first operator in values() order whose symbol equals it; deserializing op's symbol yields op for every operator; otherwise fails with "Invalid operator symbol: " followed by the string ("null" when getValueAsString returns null) |
| TreeShape.RankingShapeNames | src/main/java/gr/aegean/service/assessment/TreeService.java:14-41 | the built shape lists its 19 node names in preorder (Rank, QUALITY, COMPREHENSION, COMMENT_RATE, ...) and its 11 leaf names left to right |
| TreeShape.RankingNamesDistinct | src/main/java/gr/aegean/service/assessment/TreeService.java:14-32 | the 19 names given to the nodes are pairwise different |
| TreeShape.RankingLeafNamesDistinct | src/main/java/gr/aegean/service/assessment/TreeService.java:22-32 | the 11 leaf names are pairwise different |
| TreeShape.RankingShapeNamesDistinct | src/main/java/gr/aegean/service/assessment/TreeService.java:14-41 | the tree has 19 nodes with pairwise distinct names, 11 of them leaves with pairwise distinct names |
| RankingTree.TreeNode.constructor | src/main/java/gr/aegean/service/assessment/TreeService.java:14-32 | a new node has the given name and no children |
| RankingTree.TreeNode.AddChild | src/main/java/gr/aegean/service/assessment/TreeService.java:48 | appends the child to the end of the children list |
| RankingTree.AddChildren | src/main/java/gr/aegean/service/assessment/TreeService.java:46-50 | the parent's children become the old children followed by the given ones, each once, in list order, and nothing else changes |
| RankingTree.LeafParentRealizes | src/main/java/gr/aegean/service/assessment/TreeService.java:37-41 | a node whose children are childless nodes with the given names realises the corresponding parent-of-leaves shape |
| RankingTree.RankingTreeRealized | src/main/java/gr/aegean/service/assessment/TreeService.java:34-41 | the eight addChildren links (Rank to QUALITY and SECURITY, QUALITY to its five attributes, and so on) together give exactly the ranking shape |
| RankingTree.BuildComprehension | src/main/java/gr/aegean/service/assessment/TreeService.java:17-37 | a fresh COMPREHENSION node with one fresh childless child COMMENT_RATE |
| RankingTree.BuildSimplicity | src/main/java/gr/aegean/service/assessment/TreeService.java:18-38 | a fresh SIMPLICITY node with one fresh childless child METHOD_SIZE |
| RankingTree.BuildMaintainability | src/main/java/gr/aegean/service/assessment/TreeService.java:19-39 | a fresh MAINTAINABILITY node with fresh childless children DUPLICATION and TECHNICAL_DEBT_RATIO, in that order |
| RankingTree.BuildReliability | src/main/java/gr/aegean/service/assessment/TreeService.java:20-40 | a fresh RELIABILITY node with fresh childless children BUG_SEVERITY and RELIABILITY_REMEDIATION_EFFORT, in that order |
| RankingTree.BuildComplexity | src/main/java/gr/aegean/service/assessment/TreeService.java:21-41 | a fresh COMPLEXITY node with fresh childless children CYCLOMATIC_COMPLEXITY and COGNITIVE_COMPLEXITY, in that order |
| RankingTree.BuildSecurity | src/main/java/gr/aegean/service/assessment/TreeService.java:16-36 | a fresh SECURITY node with fresh childless children VULNERABILITY_SEVERITY, HOTSPOT_PRIORITY and SECURITY_REMEDIATION_EFFORT, in that order |
| RankingTree.BuildQualityAttributes | src/main/java/gr/aegean/service/assessment/TreeService.java:17-41 | the five fresh attribute subtrees of QUALITY in the order COMPREHENSION, SIMPLICITY, MAINTAINABILITY, RELIABILITY, COMPLEXITY |
| RankingTree.BuildQuality | src/main/java/gr/aegean/service/assessment/TreeService.java:15-35 | a fresh QUALITY node whose five children are those attribute subtrees |
| RankingTree.BuildTree | src/main/java/gr/aegean/service/assessment/TreeService.java:13-44 | every node of the returned tree is newly allocated, so trees from different calls share no node, and the tree realises the ranking shape: root Rank with children [QUALITY, SECURITY], and so on down to the leaves |
| RankingTree.NodesOfNames | src/main/java/gr/aegean/service/assessment/TreeService.java:13-44 | the preorder walk of a realised tree visits nodes of the tree's footprint carrying the shape's names, position by position |
| RankingTree.NodesFromNames | src/main/java/gr/aegean/service/assessment/TreeService.java:34-41 | the same for the walk over a list of subtrees |
| RankingTree.NoSharedNodes | src/main/java/gr/aegean/service/assessment/TreeService.java:34-41 | with distinct names no node appears twice in the preorder walk: each non-root node hangs under exactly one parent, with no sharing and no cycle |
| RankingTree.RankingTreeNodes | src/main/java/gr/aegean/service/assessment/TreeService.java:14-41 | a realised ranking tree consists of 19 pairwise different nodes, all in its footprint |

## Left out

- AsyncService is not part of this model. Its point is concurrency and I/O: parallel analysis futures, project directories, cookies.
- Ranking evaluation is not part of this model: RankingService and the `weight` and `value` fields of TreeNode. Only the topology of the tree is modelled.
- TreeNode.java is not part of this model: its `name` is modelled as a constant field and `addChild` as an append to `children`.
- RankingTree.BuildTree: the source allocates all 19 nodes first and then makes the eight `addChildren` calls. The model allocates and links one subtree at a time (the Build* helpers). The order is not visible in the result.
- RankingTree.RankingTreeNodes: the node count is stated over the preorder walk, not as the size of the footprint set `repr`.
- TreeShape.RankingShapeNamesDistinct: the 11 leaves are stated on the shape value. No lemma counts the childless nodes of the heap tree; `Realizes` carries the shape's child counts down to each node.
- `applyMethodSizeUtf` is left out: it raises 2 to a real exponent, and its case in the switch is disabled.
- The case for RELIABILITY_REMEDIATION_EFFORT in the switch is also disabled. Its transform is modelled as a function that ApplyUtf does not call.
- Doubles are modelled as exact reals:
  - `Math.pow(10, -k)` is the exact 10^-k;
  - rounding is not modelled;
  - counts (Java `long`) are unbounded naturals, so overflow is not modelled.
- MetricCalculation.ApplyUtf: a zero LINES_OF_CODE makes Java divide by zero, which yields an infinity or NaN. The model fails with ZeroLinesOfCode instead.
- MetricCalculation.ApplyUtf: an absent LINES_OF_CODE makes Java throw on unboxing `null`. The model fails with MissingLinesOfCode instead.
- MetricCalculation.ApplyUtf: Java stores a `null` COMMENT_RATE when the input has none. The model leaves the key out.
- MetricCalculation.RewriteMetrics: the order of the forEach is not modelled. Every rewritten value depends only on its own entry and LINES_OF_CODE, and a failure does not depend on which failing entry comes first.
- `Constraint.matchOperatorToCondition` is not part of this model (Constraint.java is not among the modelled files). The filter takes it as a parameter applied to the constraint and the report's value for its metric. An absent value is passed as None, as Java passes `null`.
- Filtering.Filter: reports are values, so the model cannot state that Java leaves them unmodified or returns the same objects. The model's filter only reads them.
- QualityMetricOperator.java is not part of this model.
  - The operators are modelled as LT, LTE, GT, GTE, EQ, NEQ with symbols `<`, `<=`, `>`, `>=`, `==`, `!=`, in that order.
  - The request bodies in the tests use `<=` and `>`.
- The Jackson parser becomes the value `getValueAsString()` returns. None stands for that call returning null, for example on a JSON object or array; a number or boolean token yields its text and fails as an unknown symbol. A JSON `null` operator or a missing one never reaches the deserializer: the request is rejected before it with "Quality metric operator is required" (src/test/java/gr/aegean/controller/AnalysisControllerTest.java:199-220).
- The Dafny types rule out null inputs that make MetricCalculationService.java throw. In each case below the model has a value where Java would have null:
  - an issue's type is a string, where Java's `issue.getType().equals` would throw a NullPointerException (line 142);
  - an issue's severity and a hotspot's probability are enumeration values, where `groupingBy` throws on a null key (lines 155-156 and 201-202);
  - every metric in a report has a real value, where a null value would throw when unboxed in the switch (lines 33-43).
- Operators.Deserialize: the thrown IllegalArgumentException is modelled as a Failure that carries its message.
- Report data classes keep only the fields the core reads:
  - an issue's type and severity;
  - a hotspot's vulnerability probability;
  - a report's metrics map.
  Location, flow, rule and link metadata are dropped.
