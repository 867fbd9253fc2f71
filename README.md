# Multi-commodity flow instances: normalisation, LP structure and log summaries

This project models the data-handling core of a small research toolkit for
multi-commodity flow (MMCF) problems. The core has three parts.

**scripts/construct_mmcf_problem.py.** The `Network` constructor turns an
instance with many sources and targets per commodity into one with a single
source and a single target per commodity:

- Every non-zero demand entry gets a zero-cost bridging arc of capacity
  `|demand|`. The arc runs to the commodity's target vertex or from its source
  vertex. That vertex is allocated the next node id the first time the
  commodity needs it.
- Each commodity's supply and demand are balanced to the smaller of the two
  magnitudes.
- The adjacency index is built by `build_graph`.
- The cost of each (arc, commodity) is resolved by `CommodityCost`.
- The set of valid (arc, commodity) pairs is derived from those costs.

`build_model_mmcf` then builds the flow variables, the objective, one capacity
row per arc and one conservation ("Kirchhoff") row per vertex and commodity.
`build_model_network` writes the normalised network as lines of integers.

**mmcf2mps.py.** `build_model` is an older soft-capacity formulation:

- one violation variable per arc pair;
- one flow variable per arc pair and commodity, with commodities numbered 1..n;
- conservation rows only at vertices that are neither a supply nor a target
  vertex of the commodity;
- `>=` rows at targets and `<=` rows at sources.

**scripts/summarize.py.** `file_summary` folds a solver log into per-column
count, sum, maximum and floor average. It keeps separate statistics for the
lines before and after the `---` line that ends the first simplex phase.
`read_info` reads the `key : value` header of an `.info` file. A result file's
stem is split into the instance name and the pivot rule.

The model is in Dafny. Modules follow the scripts:

- `Wrappers` holds `Option` and `Result`. `Result` carries the kind of Python
  exception raised: KeyError, ValueError, TypeError, AssertionError, or the
  `sys.exit(1)` abort.
- `Strings` and `Decimal` hold the Python string and `str(int)` operations the
  scripts use.
- `Lp` holds a linear row: a coefficient map, a relation and a right-hand
  side. It stands in for a pulp constraint.
- `MmcfNetwork` holds the network construction as values.
- `MmcfConstruct` holds the `Network` class and `build_graph`. Their methods
  update fields and variables step by step, like the script. Each is proved to
  compute the value-level definition.
- `MmcfModel` models `build_model_mmcf`.
- `MmcfText` models `build_model_network`.
- `Mmcf2Mps` models mmcf2mps.py.
- `Summarize` models `file_summary`.
- `SummarizeInfo` models `read_info` and the name split.

Where a Python exception can escape, the model returns the corresponding
`Err`.

Two behaviours of the code are easy to miss; the model follows the code:

- A per-commodity cost table is indexed with an integer commodity
  (scripts/construct_mmcf_problem.py:31,39). A missing key therefore raises a
  KeyError instead of marking the pair invalid. A table read from JSON has
  only string keys, so every lookup in it raises (`JsonTableAlwaysRaises`).
- `build_model_mmcf` raises a KeyError when there is a commodity and some arc
  pair has no valid commodity. This happens in the Kirchhoff walk over
  `variables[(u, v)]`.

## Model

| member | source | states |
|---|---|---|
| `MmcfNetwork.CostOf` | scripts/construct_mmcf_problem.py:30-41 | An arc id outside the arcs or a `None` cost gives `None`. A scalar cost resolves to itself for every commodity. A table is looked up with the integer commodity key, and a missing key is exactly the KeyError case. |
| `MmcfNetwork.JsonTableAlwaysRaises` | scripts/construct_mmcf_problem.py:31-39 | A cost table with only string keys, as JSON produces, makes every lookup raise a KeyError. |
| `MmcfNetwork.AddDemand` | scripts/construct_mmcf_problem.py:59-102 | A zero entry changes nothing. A non-zero entry appends one arc of cost 0 and capacity `abs(demand)` and grows `no_arcs` by one. A positive entry runs from the vertex to the target; a negative one runs from the source to the vertex. The endpoint keeps its id, or gets `no_nodes` (which then grows by one) on first use. Its demand gains the signed entry, and no other commodity changes. |
| `MmcfNetwork.AddDemandTarget` | scripts/construct_mmcf_problem.py:70-83 | A positive entry gives, in closed form, the new state with the target allocated if new, the demand added and the arc appended. |
| `MmcfNetwork.AddDemandSource` | scripts/construct_mmcf_problem.py:86-99 | The same closed form for a negative entry and the source. |
| `MmcfNetwork.AddAllExtends` | scripts/construct_mmcf_problem.py:59-102 | The aggregation loop only appends: existing arcs and endpoint ids are kept, and exactly one arc is added per non-zero entry. |
| `MmcfNetwork.AddAllTotals` | scripts/construct_mmcf_problem.py:59-102 | A commodity has a target iff some entry demands it, and a source iff some entry supplies it. Their demands are the sums of the positive and of the negative entries. |
| `MmcfNetwork.AddAllFreshIds` | scripts/construct_mmcf_problem.py:71-92 | Each endpoint id is allocated once, from the node counter. Ids stay distinct, lie at or above the original `no_nodes` and below the current one. |
| `MmcfNetwork.AddAllConcat` | scripts/construct_mmcf_problem.py:59-60 | Folding two runs of entries is folding the first, then the second (the nested loop over vertices and their entries). |
| `MmcfNetwork.BalanceFromMeaning` | scripts/construct_mmcf_problem.py:106-111 | A commodity in range without a source or a target is exactly the KeyError case. Otherwise each commodity's source gets `-d` and its target `d`, where `d = min(abs(supply), abs(demand))`. Ids and every other entry are kept. |
| `MmcfNetwork.NormalisedEndpoints` | scripts/construct_mmcf_problem.py:106-111 | After balancing, a commodity's target carries `d`, where `d` is the smaller of the absolute aggregated source and target demands. Its source carries `-d`. Both keep the ids they were given by the aggregation loop. |
| `MmcfNetwork.AddEdgeEffect` | scripts/construct_mmcf_problem.py:14-18 | Adding arc u->v adds v to u's out-set and u to v's in-set, and nothing else. |
| `MmcfNetwork.GraphOfAdjacency` | scripts/construct_mmcf_problem.py:9-20 | The index holds exactly the arc endpoints. v is in u's out-set iff u is in v's in-set iff some arc runs u->v. |
| `MmcfNetwork.ValidArcs` | scripts/construct_mmcf_problem.py:118-127 | A KeyError iff some (arc, commodity) lookup raises. Otherwise `(id, u, v, c)` is valid iff arc id runs u->v, c is in `range(no_commodities)` and the resolved cost is not `None`. |
| `MmcfNetwork.NetworkData.IsSourceNode` | scripts/construct_mmcf_problem.py:129-131 | A KeyError iff the commodity has no source; otherwise true iff the vertex is its source. |
| `MmcfNetwork.NetworkData.IsTargetNode` | scripts/construct_mmcf_problem.py:133-135 | A KeyError iff the commodity has no target; otherwise true iff the vertex is its target. |
| `MmcfNetwork.NetworkData.GetDemand` | scripts/construct_mmcf_problem.py:137-146 | The target's demand at the target (looked up first), else the source's demand at the source, else 0. It fails exactly when a needed lookup raises. |
| `MmcfNetwork.NormaliseSucceeds` | scripts/construct_mmcf_problem.py:46-127 | Construction succeeds iff every commodity in range is both supplied and demanded by some entry and no cost lookup raises. |
| `MmcfNetwork.BalancedEndpoints` | scripts/construct_mmcf_problem.py:56-111 | After construction each commodity has distinct new source and target vertices. Their demands are `-d` and `d >= 0`, where `d` is the smaller of total supply and total demand. |
| `MmcfNetwork.AggregatedEndpoints` | scripts/construct_mmcf_problem.py:56-102 | Before balancing, a commodity's source holds the (non-positive) total supply and its target the (non-negative) total demand, at distinct new ids. |
| `MmcfNetwork.EndpointDemands` | scripts/construct_mmcf_problem.py:137-146 | On a constructed network `get_demand` gives `d` at the target, `-d` at the source and 0 at every original vertex. |
| `MmcfNetwork.ArcsAppended` | scripts/construct_mmcf_problem.py:53-104 | The input arcs keep their ids (positions). One arc per non-zero entry is appended, with cost 0 and positive capacity, and `no_arcs` grows by the same number. |
| `MmcfConstruct.BuildGraph` | scripts/construct_mmcf_problem.py:9-20 | The setdefault/add loop yields an index whose keys are the arc endpoints and whose out- and in-sets agree with the arcs. |
| `MmcfConstruct.Network.constructor` | scripts/construct_mmcf_problem.py:47-58 | The counts and arcs come from the instance, with empty endpoint tables. |
| `MmcfConstruct.Network.MakeSingleSourced` | scripts/construct_mmcf_problem.py:56-102 | The object's aggregation fields become the fold of every demand entry; the other fields are unchanged. |
| `MmcfConstruct.Network.AddVertex` | scripts/construct_mmcf_problem.py:60-102 | The same for the entries of one vertex. |
| `MmcfConstruct.Network.AddEntry` | scripts/construct_mmcf_problem.py:61-102 | One entry updates the fields as `AddDemand` says. |
| `MmcfConstruct.Network.Balance` | scripts/construct_mmcf_problem.py:106-111 | Succeeds iff `BalanceFrom` does, and then leaves its endpoint tables in the fields. Nothing else changes. |
| `MmcfConstruct.Network.Index` | scripts/construct_mmcf_problem.py:113-127 | The graph field becomes the adjacency index. It succeeds iff no cost lookup raises, and then the valid-arc field holds `ValidArcs`. |
| `MmcfConstruct.BalanceAll` | scripts/construct_mmcf_problem.py:106-111 | The balancing loop computes `BalanceFrom` from commodity 0. |
| `MmcfConstruct.CollectValidArcs` | scripts/construct_mmcf_problem.py:118-127 | The nested arc/commodity loop computes `ValidArcs`, stopping at the first raising lookup. |
| `MmcfConstruct.NewNetwork` | scripts/construct_mmcf_problem.py:46-127 | `Network(contents)` yields a fresh object whose fields are `Normalise(inst)` exactly when that succeeds, and a KeyError otherwise. |
| `MmcfModel.NormaliseConsistent` | scripts/construct_mmcf_problem.py:46-127 | Every constructed network is consistent: graph, valid arcs and arcs agree. |
| `MmcfModel.VariablesMembership` | scripts/construct_mmcf_problem.py:152-156 | Pair (u, v) has variables iff some valid arc joins it, and `(id, c)` is among them iff `(id, u, v, c)` is valid. |
| `MmcfModel.VariablesAdd` | scripts/construct_mmcf_problem.py:153-156 | One loop iteration is `setdefault` followed by an insert. |
| `MmcfModel.ObjectiveTerms` | scripts/construct_mmcf_problem.py:158-163 | The objective has a term exactly for the valid arcs whose cost is not 0, with the resolved cost as coefficient. |
| `MmcfModel.CapRowTerms` | scripts/construct_mmcf_problem.py:165-174 | Capacity row id sums exactly the valid arcs numbered id, each with coefficient 1, `<= capacity`. |
| `MmcfModel.ModelCaps` | scripts/construct_mmcf_problem.py:165-174 | A built model has one capacity row per arc, each with a non-negative right-hand side. |
| `MmcfModel.WalksMatchFlows` | scripts/construct_mmcf_problem.py:177-193 | The adjacency walks collect exactly the flows into and out of x. They fail only when some arc pair has no variables. |
| `MmcfModel.MissingPairFails` | scripts/construct_mmcf_problem.py:179-185 | An arc pair without variables makes the walk out of its tail raise. |
| `MmcfModel.KirRowTerms` | scripts/construct_mmcf_problem.py:176-204 | Row `(x, c)` exists iff x is a graph vertex, c a commodity, and x is not a source or target of c with demand 0. Its terms are +1 for each flow entering x and -1 for each flow leaving it, `== get_demand(x, c)`. |
| `MmcfModel.ModelErrors` | scripts/construct_mmcf_problem.py:149-206 | `build_model_mmcf` fails iff some capacity is negative, or there is a commodity and some arc has no valid commodity on any arc between its two vertices. |
| `MmcfModel.CollectVariables` | scripts/construct_mmcf_problem.py:152-156 | The loop over `valid_arcs` builds `VariablesOf(valid_arcs)`. |
| `MmcfModel.CapacityRows` | scripts/construct_mmcf_problem.py:165-174 | An AssertionError iff some capacity is negative; otherwise the rows of every arc. |
| `MmcfModel.AddKirRow` | scripts/construct_mmcf_problem.py:179-204 | One pass for vertex x and commodity c: a KeyError only when some arc pair has no variables; otherwise the rows so far plus the row of (x, c) unless x is the source or target of c with demand 0, which is the reference map of rows one commodity further; the walk out of x found all its pairs. |
| `MmcfModel.VertexRows` | scripts/construct_mmcf_problem.py:178-204 | The Kirchhoff rows of one vertex are added, or a KeyError occurs, which needs a commodity and a missing pair. |
| `MmcfModel.KirchhoffRows` | scripts/construct_mmcf_problem.py:176-204 | A KeyError iff there is a commodity and a missing pair; otherwise every Kirchhoff row. |
| `MmcfModel.BuildModelMmcf` | scripts/construct_mmcf_problem.py:149-206 | `build_model_mmcf` computes `ModelOf`: the AssertionError first, then the KeyError, else the model. |
| `MmcfModel.ModelOfFails` | scripts/construct_mmcf_problem.py:165-204 | `build_model_mmcf` raises exactly when some arc has a negative capacity, or when there is a commodity and some arc pair has no valid commodity (the Kirchhoff walk then looks that pair up). |
| `MmcfText.NodeLines` | scripts/construct_mmcf_problem.py:213-214 | Line i is `i 0 0`. |
| `MmcfText.ArcLines` | scripts/construct_mmcf_problem.py:217-224 | Line i is `i from to capacity cost` of arc i. |
| `MmcfText.CommodityLines` | scripts/construct_mmcf_problem.py:227-232 | Line c is `c source target demand`. |
| `MmcfText.ArcSection` | scripts/construct_mmcf_problem.py:217-224 | The arc loop aborts iff some arc has a cost table; otherwise it gives one line per arc. |
| `MmcfText.BuildModelNetwork` | scripts/construct_mmcf_problem.py:209-234 | The intended function computes `NetworkText`: the lines joined with newlines, or the abort. |
| `MmcfText.BuildModelNetworkAsWritten` | scripts/construct_mmcf_problem.py:209-234 | The function as written computes `NetworkTextAsWritten`: a TypeError on the first arc. |
| `MmcfText.AsWrittenFailsOnNormalised` | scripts/construct_mmcf_problem.py:217-219 | Every constructed network with a commodity has an arc, so the function as written fails on it. The intended one produces text when no arc has a cost table. |
| `MmcfText.NodeLineRoundTrip` | scripts/construct_mmcf_problem.py:214-214 | A node line reads back as `[i, 0, 0]`. |
| `MmcfText.ArcLineRoundTrip` | scripts/construct_mmcf_problem.py:224-224 | An arc line reads back as its id, endpoints, capacity and cost, and holds no newline. |
| `MmcfText.CommodityLineRoundTrip` | scripts/construct_mmcf_problem.py:232-232 | A commodity line reads back as commodity, source, target and demand. |
| `MmcfText.CountLineRoundTrip` | scripts/construct_mmcf_problem.py:212-212 | A count line reads back as the count. |
| `MmcfText.IntsRoundTrip` | scripts/construct_mmcf_problem.py:214-232 | A space-joined line of rendered integers reads back as those integers. |
| `MmcfText.LinesSplit` | scripts/construct_mmcf_problem.py:210-232 | The line list is the node, arc and commodity sections in that order, each led by its count. |
| `MmcfText.LinesWithoutNewline` | scripts/construct_mmcf_problem.py:210-232 | No line contains a newline. |
| `MmcfText.TextRoundTrip` | scripts/construct_mmcf_problem.py:209-234 | Splitting the text on newlines gives back the lines. Every line reads back as the numbers it was written from. |
| `Mmcf2Mps.IsSupplyNode` | mmcf2mps.py:9-13 | A KeyError iff the vertex has no demand entry; otherwise true iff its demand for the commodity (0 when the commodity is missing) is negative. |
| `Mmcf2Mps.IsTargetNode` | mmcf2mps.py:16-20 | A KeyError iff the vertex has no demand entry; otherwise true iff its demand for the commodity (0 when the commodity is missing) is positive. |
| `Mmcf2Mps.NodeKinds` | mmcf2mps.py:9-20 | A vertex is never both a supply and a target vertex of a commodity. A missing commodity counts as demand 0. It is either kind iff its demand is non-zero. |
| `Mmcf2Mps.AddArcEffect` | mmcf2mps.py:26-34 | One arc creates u's out slot and v's in slot and adds v and u to them. |
| `Mmcf2Mps.GraphShape` | mmcf2mps.py:23-36 | The index keys are the arc endpoints. A vertex has an out slot iff it is a tail and an in slot iff it is a head. The sets agree with the arcs. |
| `Mmcf2Mps.BuildGraph` | mmcf2mps.py:23-36 | The setdefault loop builds `GraphOf(arcs)`. |
| `Mmcf2Mps.VariablesMembership` | mmcf2mps.py:50-59 | A violation variable exists for (u, v) iff an arc runs u->v. A flow variable exists for (u, v, c) iff moreover 1 <= c <= n. |
| `Mmcf2Mps.ParallelArcShares` | mmcf2mps.py:51-59 | A parallel arc adds no variable. |
| `Mmcf2Mps.AddArcVariables` | mmcf2mps.py:52-59 | One arc adds its violation variable and its flows for commodities 1..n. |
| `Mmcf2Mps.CollectVariables` | mmcf2mps.py:50-59 | The variables loop builds `VariablesOf(arcs, n)`. |
| `Mmcf2Mps.ObjectiveCoefficients` | mmcf2mps.py:62-67 | The objective has only violation variables, one per joined pair. The coefficient is the number of arcs in the list between that pair (at least 1). |
| `Mmcf2Mps.BuildObjective` | mmcf2mps.py:62-67 | The objective loop builds `ObjectiveOf(arcs)`. |
| `Mmcf2Mps.CapacityRows` | mmcf2mps.py:70-82 | One capacity row per arc, in arc order. |
| `Mmcf2Mps.CapacityRowTerms` | mmcf2mps.py:70-82 | Row k is the flows of arc k's pair for commodities 1..n (coefficient 1) minus its violation (coefficient -1), `<= capacity`. |
| `Mmcf2Mps.BuildCapacityRows` | mmcf2mps.py:70-82 | The capacity loop builds `CapacityRows`. |
| `Mmcf2Mps.CommodityConservation` | mmcf2mps.py:86-107 | One commodity's conservation rows, or a KeyError iff a graph vertex has no demand entry. |
| `Mmcf2Mps.BuildConservationRows` | mmcf2mps.py:85-107 | A KeyError iff there is a commodity and an unlisted vertex; otherwise every conservation row. |
| `Mmcf2Mps.AddEndRow` | mmcf2mps.py:110-121 | One (vertex, commodity) step: a KeyError iff the vertex has no demand entry; otherwise its target or supply row is added exactly when the vertex is on that side. |
| `Mmcf2Mps.VertexEndRows` | mmcf2mps.py:110-134 | One vertex's target or supply rows, or a KeyError iff there is a commodity and the vertex has no entry. |
| `Mmcf2Mps.BuildEndRows` | mmcf2mps.py:109-134 | The target or supply loop: a KeyError iff there is a commodity and an unlisted vertex; otherwise every such row. |
| `Mmcf2Mps.BuildModel` | mmcf2mps.py:39-136 | `build_model` computes `ModelOf`. |
| `Mmcf2Mps.ModelFails` | mmcf2mps.py:39-136 | `build_model` fails iff there is a commodity and some arc endpoint has no demand entry. |
| `Mmcf2Mps.RowPlacement` | mmcf2mps.py:85-134 | `(x, c)` has a conservation row iff x is neither kind. It has a target row iff x is a target vertex and a supply row iff x is a supply vertex, for graph vertices x and 1 <= c <= n. |
| `Mmcf2Mps.ConservationKeys` | mmcf2mps.py:86-91 | A conservation row exists exactly at neutral (vertex, commodity) pairs. |
| `Mmcf2Mps.EndRowsKeys` | mmcf2mps.py:109-134 | A target or supply row exists exactly on that side. |
| `Mmcf2Mps.ConservationTerms` | mmcf2mps.py:93-107 | A conservation row is `out - in == 0` over the flows of c on the arcs at x. |
| `Mmcf2Mps.EndRowTerms` | mmcf2mps.py:109-134 | A target row is `in >= demand_scale * demand`, at a positive demand. A supply row is `out <= -demand`, with a positive right-hand side and no scale. |
| `Mmcf2Mps.RowsUseDeclaredVariables` | mmcf2mps.py:50-134 | The objective and every row use only declared variables, so no lookup in `variables` raises. |
| `Summarize.InitialPhase` | scripts/summarize.py:15-24 | The initial dict: `it = 0`, and sum 0, average `None` and maximum `None` for each typed field. |
| `Summarize.ReadLine` | scripts/summarize.py:42-54 | One data line adds each typed column's value to its sum and maximum and increments `it` once. |
| `Summarize.SetAverage` | scripts/summarize.py:35-37 | One field's average becomes `sum // it`. |
| `Summarize.SetAverages` | scripts/summarize.py:30-37 | Every typed field's average becomes `sum // it`. |
| `Summarize.FileSummary` | scripts/summarize.py:14-64 | The line loop returns `SummaryOf(fields, lines)`. |
| `Summarize.MaxOfBounds` | scripts/summarize.py:50-52 | The running maximum is `None` iff no value was read; otherwise it is one of the values and bounds them all. |
| `Summarize.MaxOfConcat` | scripts/summarize.py:50-52 | The maximum of two runs combines their maxima. |
| `Summarize.SumConcat` | scripts/summarize.py:48-48 | The sum of two runs is the sum of their sums. |
| `Summarize.Columns` | scripts/summarize.py:43-43 | `zip` pairs no more columns than there are fields or words. |
| `Summarize.ColumnsKeys` | scripts/summarize.py:43-52 | A line changes only sums and maxima, and keeps their keys the typed fields. |
| `Summarize.ColumnsEffect` | scripts/summarize.py:43-52 | A line adds its values for the field to the sum and combines their maximum into the maximum. |
| `Summarize.TotalsMeaning` | scripts/summarize.py:42-54 | After data lines, `it` is their number. For each typed field the sum is the sum of its values and the maximum their maximum. |
| `Summarize.FirstSeparator` | scripts/summarize.py:28-29 | The index of the first `---` line, or the length if there is none. |
| `Summarize.ScanState` | scripts/summarize.py:26-54 | The loop's invariant holds after every prefix. Before the first separator phase1 holds the totals. After it phase1 is final, and phase2 matches the totals of the later data lines up to averages. |
| `Summarize.AveragesAgree` | scripts/summarize.py:30-37 | Setting averages ignores earlier averages, so a second `---` does not change the end result. |
| `Summarize.SummaryPhases` | scripts/summarize.py:14-64 | phase1 is the final dict of the lines before the first `---`. phase2 is the final dict of the data lines after it. |
| `Summarize.FileSummaryMeaning` | scripts/summarize.py:14-64 | Each returned dict counts its phase's data lines, has keys for typed fields only, and holds sum, maximum and (when it read a line) the floor average of each field. |
| `Summarize.EveryDataLineCounted` | scripts/summarize.py:28-54 | The two counts add up to the number of lines other than `---`. |
| `SummarizeInfo.FieldTableEntries` | scripts/summarize.py:76-76 | `dict(fields)` has a key iff some field has that name, and the last such field's converter wins. |
| `SummarizeInfo.HeaderEnd` | scripts/summarize.py:79-81 | The header ends at the first line containing `BEGIN VARIABLES`. |
| `SummarizeInfo.ReadInfo` | scripts/summarize.py:75-88 | The loop with its early `break` computes `InfoOf(fields, lines)`. |
| `SummarizeInfo.InfoErrors` | scripts/summarize.py:83-84 | `read_info` fails, with a ValueError, iff some header line does not split into exactly two parts on `' : '` after stripping. |
| `SummarizeInfo.InfoEntries` | scripts/summarize.py:75-88 | A key is present iff a field lists it and the header gives it. Its value is the last listed converter applied to the last header value for that key. |
| `SummarizeInfo.InfoIgnoresRest` | scripts/summarize.py:79-81 | Lines after the marker do not affect the result. |
| `SummarizeInfo.SplitNameParts` | scripts/summarize.py:134-135 | The pivot rule has no dot. A stem with a dot is `basename + "." + pivot_rule`; a stem without one has an empty basename. |
| `SummarizeInfo.SplitNameOfJoin` | scripts/summarize.py:134-135 | Splitting `basename + "." + pivot_rule` gives them back when the pivot rule has no dot. |
| `Strings.JoinSplit` | scripts/summarize.py:134-135 | Joining the parts of a split gives the string back. |
| `Strings.SplitJoin` | scripts/construct_mmcf_problem.py:234-234 | Splitting a join on a one-character separator that no part contains gives the parts back. |
| `Strings.SplitOnParts` | scripts/summarize.py:84-84 | No part of a split contains the separator. |
| `Strings.IndexOfFirst` | scripts/summarize.py:80-80 | A substring test finds the first occurrence, and succeeds iff there is one. |
| `Strings.WordsOfJoin` | scripts/summarize.py:42-42 | `split()` of words joined by spaces gives the words back. |
| `Strings.StripMeaning` | scripts/summarize.py:83-83 | `strip()` gives the middle part, with only whitespace removed at both ends and no whitespace left at either end. |
| `Decimal.ParseIntToString` | scripts/construct_mmcf_problem.py:212-232 | `int(str(i)) == i`, so the text export is injective on numbers. |

## Left out

- pulp: an `LpProblem` is replaced by its content (variables, objective, rows). The problem name, the constraint names, variable bounds and the `.lp`/`.mps` writers are not modelled.
- JSON loading, file reads and writes, `argparse`, every `main`, and the debug `print`s of the `Network` constructor are not modelled. Files are given as sequences of lines.
- scripts/plot_network.py is not part of this model: it only draws the network.
- The `main` of scripts/summarize.py is not modelled except for the name split at lines 134-135. That covers the glob of result files, the finished-file filter, the `DONE` scan and the CSV writer.
- Numbers are integers. JSON floats and the `int()` conversions of keys and counts are left out, so instance keys arrive as integers and mmcf2mps.py's `str()` keys as their integers. The exception is the per-commodity cost table, whose keys keep their kind so the string-key KeyError is modelled.
- The field converters of scripts/summarize.py (`int`, `gmpy2.mpz`, `gmpy2.mpq`) are total functions from text to integers. A conversion that raises on malformed text, and rational values, are not modelled.
- SummarizeInfo.ReadInfo: a converter that raises is not modelled, so the only failure it reports is the ValueError of a line that does not unpack into two parts.
- The order in which Python iterates sets and dicts is not modelled. Rows keyed by (vertex, commodity) are maps, and adjacency is sets. The demand table's order is kept as a sequence, because it decides the ids of the new source and target vertices.
- Whitespace for `split()` and `strip()` is ASCII and Latin-1 whitespace; other Unicode whitespace is not modelled.
- The `sys.exit(1)` abort of `build_model_network` is an `Err(ExitFailure)`; its message on standard error is not modelled.

## Findings

| source | as written | input that shows it | evidently intended | confidence | as-written member | corrected member |
|---|---|---|---|---|---|---|
| scripts/construct_mmcf_problem.py:217-219 | `for i, arc in enumerate(network.arcs)` iterates over `network.arcs`, which line 104 already turned into `(id, record)` pairs. `arc["from"]` then indexes a tuple with a string and raises TypeError. | Any constructed network with at least one arc, for example any instance with one commodity. Its demand entries add bridging arcs, so `build_model_network` fails on the first arc. | `for i, arc in network.arcs`, writing one `i from to capacity cost` line per arc record. | not executed | `MmcfText.BuildModelNetworkAsWritten`, `MmcfText.AsWrittenFailsOnNormalised` | `MmcfText.BuildModelNetwork`, `MmcfText.TextRoundTrip` |
