/** mmcf2mps.py: the older soft-capacity formulation of the multi-commodity
    flow problem. `build_model` declares one violation variable per arc pair
    and one flow variable per arc pair and commodity, minimises the total
    violation, and adds a capacity row per arc, a conservation row at every
    vertex that is neither a source nor a target of a commodity, a `>=` row
    at every target and a `<=` row at every source. The pulp problem is
    replaced by its content: variables, objective and rows as values of
    module Lp. */
module Mmcf2Mps {
  import opened Wrappers
  import opened Lp
  import opened MmcfNetwork

  /** `demands[str(vertex)][str(commodity)]`: the JSON keys are the decimal
      strings of the numbers, and `str` is injective on integers, so the
      numbers themselves are used as keys here. */
  type Demands = map<int, map<int, int>>

  // ---------------------------------------------------------------------------
  // is_supply_node, is_target_node (lines 9-20)

  /** `is_supply_node`: a KeyError for a vertex without an entry; a missing
      commodity counts as demand 0. */
  function IsSupplyNode(demands: Demands, vertex: int, commodity: int): (r: Result<bool>)
    ensures r.Err? <==> vertex !in demands
    ensures r.Ok? ==> (r.value <==> GetOr(demands[vertex], commodity, 0) < 0)
  {
    if vertex !in demands then Err(KeyError) else Ok(GetOr(demands[vertex], commodity, 0) < 0)
  }

  /** `is_target_node` */
  function IsTargetNode(demands: Demands, vertex: int, commodity: int): (r: Result<bool>)
    ensures r.Err? <==> vertex !in demands
    ensures r.Ok? ==> (r.value <==> GetOr(demands[vertex], commodity, 0) > 0)
  {
    if vertex !in demands then Err(KeyError) else Ok(GetOr(demands[vertex], commodity, 0) > 0)
  }

  /** No vertex is both a supply and a target node of a commodity; a vertex
      with no entry for the commodity is neither; a vertex is one of the two
      exactly when its entry is non-zero. */
  lemma NodeKinds(demands: Demands, vertex: int, commodity: int)
    requires vertex in demands
    ensures !(IsSupplyNode(demands, vertex, commodity).value && IsTargetNode(demands, vertex, commodity).value)
    ensures commodity !in demands[vertex] ==>
      !IsSupplyNode(demands, vertex, commodity).value && !IsTargetNode(demands, vertex, commodity).value
    ensures IsSupplyNode(demands, vertex, commodity).value || IsTargetNode(demands, vertex, commodity).value
      <==> commodity in demands[vertex] && demands[vertex][commodity] != 0
  {
  }

  // ---------------------------------------------------------------------------
  // build_graph (lines 23-36)

  /** A vertex's entry in `build_graph`'s dict: its `"out"` and `"in"` keys
      are created by `setdefault` on first use, so either may be absent. */
  datatype Slots = Slots(out: Option<set<int>>, inn: Option<set<int>>)

  /** `setdefault(key, set()).add(x)` */
  function Insert(s: Option<set<int>>, x: int): Option<set<int>> {
    Some(if s.Some? then s.value + {x} else {x})
  }

  /** One iteration of the arc loop. */
  function AddArc(graph: map<int, Slots>, u: int, v: int): map<int, Slots> {
    var g := if u in graph then graph else graph[u := Slots(None, None)];
    var g' := g[u := g[u].(out := Insert(g[u].out, v))];
    var h := if v in g' then g' else g'[v := Slots(None, None)];
    h[v := h[v].(inn := Insert(h[v].inn, u))]
  }

  /** `build_graph(arcs)` */
  function GraphOf(arcs: seq<Arc>): map<int, Slots> {
    if arcs == [] then map[]
    else AddArc(GraphOf(arcs[..|arcs| - 1]), arcs[|arcs| - 1].from, arcs[|arcs| - 1].to)
  }

  /** `graph[x].get("out", {})` */
  function OutSet(graph: map<int, Slots>, x: int): set<int> {
    if x in graph && graph[x].out.Some? then graph[x].out.value else {}
  }

  /** `graph[x].get("in", {})` */
  function InSet(graph: map<int, Slots>, x: int): set<int> {
    if x in graph && graph[x].inn.Some? then graph[x].inn.value else {}
  }

  ghost predicate IsTail(arcs: seq<Arc>, x: int) {
    exists k :: 0 <= k < |arcs| && arcs[k].from == x
  }

  ghost predicate IsHead(arcs: seq<Arc>, x: int) {
    exists k :: 0 <= k < |arcs| && arcs[k].to == x
  }

  lemma AddArcEffect(graph: map<int, Slots>, u: int, v: int, x: int)
    ensures AddArc(graph, u, v).Keys == graph.Keys + {u, v}
    ensures x in AddArc(graph, u, v) ==>
      && (AddArc(graph, u, v)[x].out.Some? <==> (x in graph && graph[x].out.Some?) || x == u)
      && (AddArc(graph, u, v)[x].inn.Some? <==> (x in graph && graph[x].inn.Some?) || x == v)
    ensures OutSet(AddArc(graph, u, v), x) == OutSet(graph, x) + (if x == u then {v} else {})
    ensures InSet(AddArc(graph, u, v), x) == InSet(graph, x) + (if x == v then {u} else {})
  {
  }

  lemma EndsSnoc(arcs: seq<Arc>, x: int)
    requires arcs != []
    ensures var init, a := arcs[..|arcs| - 1], arcs[|arcs| - 1];
      && (IsTail(arcs, x) <==> IsTail(init, x) || x == a.from)
      && (IsHead(arcs, x) <==> IsHead(init, x) || x == a.to)
  {
    var init := arcs[..|arcs| - 1];
    if IsTail(arcs, x) {
      var k :| 0 <= k < |arcs| && arcs[k].from == x;
      if k < |init| { assert init[k] == arcs[k]; }
    }
    if IsTail(init, x) {
      var k :| 0 <= k < |init| && init[k].from == x;
      assert arcs[k] == init[k];
    }
    if IsHead(arcs, x) {
      var k :| 0 <= k < |arcs| && arcs[k].to == x;
      if k < |init| { assert init[k] == arcs[k]; }
    }
    if IsHead(init, x) {
      var k :| 0 <= k < |init| && init[k].to == x;
      assert arcs[k] == init[k];
    }
  }

  /** The graph holds exactly the arc endpoints; a vertex has an `"out"` entry
      iff it is the tail of some arc and an `"in"` entry iff it is the head
      of some arc; `v` is an out-neighbour of `u` iff `u` is an in-neighbour
      of `v` iff some arc runs from `u` to `v`. */
  lemma {:induction false} GraphShape(arcs: seq<Arc>, u: int, v: int)
    ensures u in GraphOf(arcs) <==> IsEndpoint(arcs, u)
    ensures u in GraphOf(arcs) ==>
      && (GraphOf(arcs)[u].out.Some? <==> IsTail(arcs, u))
      && (GraphOf(arcs)[u].inn.Some? <==> IsHead(arcs, u))
    ensures v in OutSet(GraphOf(arcs), u) <==> HasArc(arcs, u, v)
    ensures u in InSet(GraphOf(arcs), v) <==> HasArc(arcs, u, v)
  {
    if arcs != [] {
      var init, a := arcs[..|arcs| - 1], arcs[|arcs| - 1];
      GraphShape(init, u, v);
      AddArcEffect(GraphOf(init), a.from, a.to, u);
      AddArcEffect(GraphOf(init), a.from, a.to, v);
      ArcSnoc(arcs, u, v, u);
      EndsSnoc(arcs, u);
    }
  }

  /** `build_graph(arcs)`, arc by arc. */
  method BuildGraph(arcs: seq<Arc>) returns (graph: map<int, Slots>)
    ensures graph == GraphOf(arcs)
  {
    graph := map[];
    for i := 0 to |arcs|
      invariant graph == GraphOf(arcs[..i])
    {
      assert arcs[..i + 1][..i] == arcs[..i];
      var u, v := arcs[i].from, arcs[i].to;
      if u !in graph {
        graph := graph[u := Slots(None, None)];
      }
      graph := graph[u := graph[u].(out := Insert(graph[u].out, v))];
      if v !in graph {
        graph := graph[v := Slots(None, None)];
      }
      graph := graph[v := graph[v].(inn := Insert(graph[v].inn, u))];
    }
    assert arcs[..|arcs|] == arcs;
  }

  // ---------------------------------------------------------------------------
  // build_model, lines 47-59: the variables

  /** `variables["flow"][(u, v, c)]` and `variables["violation"][(u, v)]`;
      a pulp variable is identified by its key (its name is a function of
      the key and every bound is 0). */
  datatype Var = Flow(from: int, to: int, commodity: int) | Violation(from: int, to: int)

  /** The flow variables of pair (u, v) for the commodities `lo <= c < hi`. */
  function Flows(u: int, v: int, lo: int, hi: int): set<Var> {
    set c | lo <= c < hi :: Flow(u, v, c)
  }

  /** The keys one arc adds; commodities are `range(1, no_commodities + 1)`. */
  function ArcVariables(u: int, v: int, n: int): set<Var> {
    {Violation(u, v)} + Flows(u, v, 1, n + 1)
  }

  /** The variable keys after the loop over `arcs`. */
  function VariablesOf(arcs: seq<Arc>, n: int): set<Var> {
    if arcs == [] then {}
    else VariablesOf(arcs[..|arcs| - 1], n) + ArcVariables(arcs[|arcs| - 1].from, arcs[|arcs| - 1].to, n)
  }

  /** There is a violation variable for (u, v) iff some arc runs from u to v,
      and a flow variable for (u, v, c) iff moreover c is one of the
      commodities 1..n. */
  lemma {:induction false} VariablesMembership(arcs: seq<Arc>, n: int, u: int, v: int, c: int)
    ensures Violation(u, v) in VariablesOf(arcs, n) <==> HasArc(arcs, u, v)
    ensures Flow(u, v, c) in VariablesOf(arcs, n) <==> HasArc(arcs, u, v) && 1 <= c <= n
  {
    if arcs != [] {
      VariablesMembership(arcs[..|arcs| - 1], n, u, v, c);
      ArcSnoc(arcs, u, v, u);
    }
  }

  /** Parallel arcs share their variables: an arc between two vertices that
      are already joined by an arc adds no variable. */
  lemma ParallelArcShares(arcs: seq<Arc>, a: Arc, n: int)
    requires HasArc(arcs, a.from, a.to)
    ensures VariablesOf(arcs + [a], n) == VariablesOf(arcs, n)
  {
    assert (arcs + [a])[..|arcs|] == arcs;
    forall x | x in ArcVariables(a.from, a.to, n)
      ensures x in VariablesOf(arcs, n)
    {
      VariablesMembership(arcs, n, a.from, a.to, if x.Flow? then x.commodity else 0);
    }
  }

  /** The inner loop over the commodities of one arc. */
  method AddArcVariables(vars: set<Var>, u: int, v: int, n: int) returns (vars': set<Var>)
    ensures vars' == vars + ArcVariables(u, v, n)
  {
    vars' := vars + {Violation(u, v)};
    var c := 1;
    while c <= n
      invariant 1 <= c && (c <= n + 1 || c == 1)
      invariant vars' == vars + {Violation(u, v)} + Flows(u, v, 1, c)
    {
      assert Flows(u, v, 1, c + 1) == Flows(u, v, 1, c) + {Flow(u, v, c)};
      vars' := vars' + {Flow(u, v, c)};
      c := c + 1;
    }
    assert Flows(u, v, 1, c) == Flows(u, v, 1, n + 1);
  }

  /** The variables loop. */
  method CollectVariables(arcs: seq<Arc>, n: int) returns (vars: set<Var>)
    ensures vars == VariablesOf(arcs, n)
  {
    vars := {};
    for i := 0 to |arcs|
      invariant vars == VariablesOf(arcs[..i], n)
    {
      assert arcs[..i + 1][..i] == arcs[..i];
      vars := AddArcVariables(vars, arcs[i].from, arcs[i].to, n);
    }
    assert arcs[..|arcs|] == arcs;
  }

  // ---------------------------------------------------------------------------
  // build_model, lines 62-67: the objective

  /** The number of arcs from u to v. */
  function PairCount(arcs: seq<Arc>, u: int, v: int): nat {
    if arcs == [] then 0
    else PairCount(arcs[..|arcs| - 1], u, v)
         + (if arcs[|arcs| - 1].from == u && arcs[|arcs| - 1].to == v then 1 else 0)
  }

  /** `lpSum` over a list with repeats: one more term for `x` adds 1 to its coefficient. */
  function AddTerm(e: map<Var, int>, x: Var): map<Var, int> {
    e[x := GetOr(e, x, 0) + 1]
  }

  /** `lpSum([violation[(arc.from, arc.to)] for arc in arcs])` */
  function ObjectiveOf(arcs: seq<Arc>): map<Var, int> {
    if arcs == [] then map[]
    else AddTerm(ObjectiveOf(arcs[..|arcs| - 1]), Violation(arcs[|arcs| - 1].from, arcs[|arcs| - 1].to))
  }

  /** The objective holds only violation variables, one for each pair joined
      by an arc, and the coefficient of a pair is the number of arcs between
      the two vertices, so parallel arcs weigh their shared violation more. */
  lemma {:induction false} ObjectiveCoefficients(arcs: seq<Arc>, x: Var)
    ensures x in ObjectiveOf(arcs) <==> x.Violation? && HasArc(arcs, x.from, x.to)
    ensures x in ObjectiveOf(arcs) ==> ObjectiveOf(arcs)[x] == PairCount(arcs, x.from, x.to) >= 1
    ensures x.Violation? && x !in ObjectiveOf(arcs) ==> PairCount(arcs, x.from, x.to) == 0
  {
    if arcs != [] {
      ObjectiveCoefficients(arcs[..|arcs| - 1], x);
      ArcSnoc(arcs, x.from, x.to, x.from);
    }
  }

  /** The objective, term by term. */
  method BuildObjective(arcs: seq<Arc>) returns (objective: map<Var, int>)
    ensures objective == ObjectiveOf(arcs)
  {
    objective := map[];
    for i := 0 to |arcs|
      invariant objective == ObjectiveOf(arcs[..i])
    {
      assert arcs[..i + 1][..i] == arcs[..i];
      var x := Violation(arcs[i].from, arcs[i].to);
      objective := objective[x := (if x in objective then objective[x] else 0) + 1];
    }
    assert arcs[..|arcs|] == arcs;
  }

  // ---------------------------------------------------------------------------
  // build_model, lines 70-82: the capacity rows

  /** `lpSum(flow(u, v, c) for c) - violation(u, v) <= capacity` */
  function CapacityRow(a: Arc, n: int): Row<Var> {
    Row(map x | x in ArcVariables(a.from, a.to, n) :: if x.Violation? then -1 else 1, Le, a.capacity)
  }

  /** The capacity rows in the order of the arc list, one per arc. */
  function CapacityRows(arcs: seq<Arc>, n: int): (rows: seq<Row<Var>>)
    ensures |rows| == |arcs|
    ensures forall k :: 0 <= k < |arcs| ==> rows[k] == CapacityRow(arcs[k], n)
  {
    if arcs == [] then []
    else CapacityRows(arcs[..|arcs| - 1], n) + [CapacityRow(arcs[|arcs| - 1], n)]
  }

  /** The capacity loop. */
  method BuildCapacityRows(arcs: seq<Arc>, n: int) returns (rows: seq<Row<Var>>)
    ensures rows == CapacityRows(arcs, n)
  {
    rows := [];
    for i := 0 to |arcs|
      invariant rows == CapacityRows(arcs[..i], n)
    {
      assert arcs[..i + 1][..i] == arcs[..i];
      rows := rows + [CapacityRow(arcs[i], n)];
    }
    assert arcs[..|arcs|] == arcs;
  }

  // ---------------------------------------------------------------------------
  // build_model, lines 85-107: conservation rows

  /** The flow variables of commodity c on the arcs leaving x. */
  function FlowsOut(graph: map<int, Slots>, x: int, c: int): set<Var> {
    set v | v in OutSet(graph, x) :: Flow(x, v, c)
  }

  /** The flow variables of commodity c on the arcs entering x. */
  function FlowsIn(graph: map<int, Slots>, x: int, c: int): set<Var> {
    set u | u in InSet(graph, x) :: Flow(u, x, c)
  }

  /** Neither a supply nor a target node of commodity c. */
  predicate Neutral(demands: Demands, x: int, c: int)
    requires x in demands
  {
    GetOr(demands[x], c, 0) == 0
  }

  /** `outgoing - incomming == 0` */
  function ConservationRow(graph: map<int, Slots>, x: int, c: int): Row<Var> {
    Row(Difference(FlowsOut(graph, x, c), FlowsIn(graph, x, c)), Eq, 0)
  }

  /** The conservation rows of the commodities below `c`, and of commodity
      `c` at the vertices in `done`, keyed by (vertex, commodity). */
  function ConservationUpTo(graph: map<int, Slots>, demands: Demands, n: int, c: int, done: set<int>)
    : map<(int, int), Row<Var>>
  {
    map x, d | x in graph && 1 <= d <= n && (d < c || (d == c && x in done)) && x in demands && Neutral(demands, x, d)
      :: (x, d) := ConservationRow(graph, x, d)
  }

  /** All conservation rows. */
  function ConservationRows(graph: map<int, Slots>, demands: Demands, n: int): map<(int, int), Row<Var>> {
    ConservationUpTo(graph, demands, n, n + 1, {})
  }

  /** One more vertex of commodity c: its row is added iff it is neutral. */
  lemma ConservationStep(graph: map<int, Slots>, demands: Demands, n: int, c: int, done: set<int>, x: int)
    requires x in graph && x in demands && x !in done && 1 <= c <= n
    ensures ConservationUpTo(graph, demands, n, c, done + {x})
            == if Neutral(demands, x, c) then ConservationUpTo(graph, demands, n, c, done)[(x, c) := ConservationRow(graph, x, c)]
               else ConservationUpTo(graph, demands, n, c, done)
  {
  }

  /** Finishing every vertex of commodity c is starting commodity c + 1. */
  lemma ConservationNext(graph: map<int, Slots>, demands: Demands, n: int, c: int)
    ensures ConservationUpTo(graph, demands, n, c, graph.Keys) == ConservationUpTo(graph, demands, n, c + 1, {})
  {
  }

  /** Some vertex of the graph has no demand entry, so looking it up raises. */
  predicate Unlisted(graph: map<int, Slots>, demands: Demands) {
    exists x :: x in graph && x !in demands
  }

  /** The inner loop over the vertices, for one commodity. */
  method CommodityConservation(graph: map<int, Slots>, demands: Demands, n: int, c: int,
                               rows: map<(int, int), Row<Var>>)
    returns (r: Result<map<(int, int), Row<Var>>>)
    requires 1 <= c <= n && rows == ConservationUpTo(graph, demands, n, c, {})
    ensures r.Err? <==> Unlisted(graph, demands)
    ensures r.Err? ==> r.error == KeyError
    ensures r.Ok? ==> r.value == ConservationUpTo(graph, demands, n, c + 1, {})
  {
    var acc := rows;
    var rest := graph.Keys;
    while rest != {}
      invariant rest <= graph.Keys
      invariant acc == ConservationUpTo(graph, demands, n, c, graph.Keys - rest)
      invariant graph.Keys - rest <= demands.Keys
      decreases rest
    {
      var x := PickFrom(rest);
      var supply := IsSupplyNode(demands, x, c);
      var target := IsTargetNode(demands, x, c);
      if supply.Err? || target.Err? {
        return Err(KeyError);
      }
      var done := graph.Keys - rest;
      ConservationStep(graph, demands, n, c, done, x);
      if !(supply.value || target.value) {
        acc := acc[(x, c) := Row(Difference(FlowsOut(graph, x, c), FlowsIn(graph, x, c)), Eq, 0)];
      }
      assert done + {x} == graph.Keys - (rest - {x});
      rest := rest - {x};
    }
    ConservationNext(graph, demands, n, c);
    return Ok(acc);
  }

  /** The conservation loop, commodity by commodity: a KeyError iff there is
      a commodity and some vertex has no demand entry. */
  method BuildConservationRows(graph: map<int, Slots>, demands: Demands, n: int)
    returns (r: Result<map<(int, int), Row<Var>>>)
    ensures r.Err? <==> n >= 1 && Unlisted(graph, demands)
    ensures r.Err? ==> r.error == KeyError
    ensures r.Ok? ==> r.value == ConservationRows(graph, demands, n)
  {
    var rows := map[];
    var c := 1;
    while c <= n
      invariant 1 <= c && (c <= n + 1 || c == 1)
      invariant rows == ConservationUpTo(graph, demands, n, c, {})
      invariant c > 1 ==> !Unlisted(graph, demands)
    {
      var next := CommodityConservation(graph, demands, n, c, rows);
      if next.Err? {
        return Err(KeyError);
      }
      rows := next.value;
      c := c + 1;
    }
    assert ConservationUpTo(graph, demands, n, c, {}) == ConservationRows(graph, demands, n);
    return Ok(rows);
  }

  // ---------------------------------------------------------------------------
  // build_model, lines 109-134: target and supply rows

  /** The two loops after the conservation rows. */
  datatype Side = Target | Supply

  /** `is_target_node` / `is_supply_node` on a listed vertex. */
  predicate OnSide(side: Side, demands: Demands, x: int, c: int)
    requires x in demands
  {
    if side == Target then GetOr(demands[x], c, 0) > 0 else GetOr(demands[x], c, 0) < 0
  }

  /** `incomming >= demand_scale * demand` at a target; `outgoing <= -demand`
      at a source, where the scale is not applied. */
  function EndRow(graph: map<int, Slots>, demands: Demands, scale: int, side: Side, x: int, c: int): Row<Var> {
    var d := if x in demands then GetOr(demands[x], c, 0) else 0;
    if side == Target then Row(SumOf(FlowsIn(graph, x, c)), Ge, scale * d)
    else Row(SumOf(FlowsOut(graph, x, c)), Le, -d)
  }

  /** Which (vertex, commodity) pairs get a row. */
  function EndPresent(demands: Demands, side: Side): (int, int) -> bool {
    (x, c) => x in demands && OnSide(side, demands, x, c)
  }

  /** The row of each pair. */
  function EndRowAt(graph: map<int, Slots>, demands: Demands, scale: int, side: Side): (int, int) -> Row<Var> {
    (x, c) => EndRow(graph, demands, scale, side, x, c)
  }

  /** The rows of the vertices in `xs`, and of vertex `y` for the commodities below `k`. */
  function EndRowsUpTo(graph: map<int, Slots>, demands: Demands, n: int, scale: int, side: Side,
                       xs: set<int>, y: int, k: int): map<(int, int), Row<Var>>
  {
    Keyed(xs, y, k, 1, n + 1, EndPresent(demands, side), EndRowAt(graph, demands, scale, side))
  }

  /** All target (or all supply) rows. */
  function EndRows(graph: map<int, Slots>, demands: Demands, n: int, scale: int, side: Side)
    : map<(int, int), Row<Var>>
  {
    EndRowsUpTo(graph, demands, n, scale, side, graph.Keys, 0, 0)
  }

  lemma EndRowsStep(graph: map<int, Slots>, demands: Demands, n: int, scale: int, side: Side,
                    done: set<int>, x: int, c: int)
    requires x !in done && x in demands && 1 <= c <= n
    ensures EndRowsUpTo(graph, demands, n, scale, side, done, x, c + 1)
            == if OnSide(side, demands, x, c)
               then EndRowsUpTo(graph, demands, n, scale, side, done, x, c)[(x, c) := EndRow(graph, demands, scale, side, x, c)]
               else EndRowsUpTo(graph, demands, n, scale, side, done, x, c)
  {
    var present, row := EndPresent(demands, side), EndRowAt(graph, demands, scale, side);
    EndApplied(graph, demands, scale, side, x, c);
    KeyedStep(done, x, c, 1, n + 1, present, row, OnSide(side, demands, x, c), EndRow(graph, demands, scale, side, x, c));
    assert EndRowsUpTo(graph, demands, n, scale, side, done, x, c) == Keyed(done, x, c, 1, n + 1, present, row);
    assert EndRowsUpTo(graph, demands, n, scale, side, done, x, c + 1) == Keyed(done, x, c + 1, 1, n + 1, present, row);
  }

  lemma EndApplied(graph: map<int, Slots>, demands: Demands, scale: int, side: Side, x: int, c: int)
    requires x in demands
    ensures EndPresent(demands, side)(x, c) == OnSide(side, demands, x, c)
    ensures EndRowAt(graph, demands, scale, side)(x, c) == EndRow(graph, demands, scale, side, x, c)
  {
  }


  lemma EndRowsSwitch(graph: map<int, Slots>, demands: Demands, n: int, scale: int, side: Side,
                      done: set<int>, y: int, z: int)
    ensures EndRowsUpTo(graph, demands, n, scale, side, done, y, 1)
            == EndRowsUpTo(graph, demands, n, scale, side, done, z, 0)
  {
    var present, row := EndPresent(demands, side), EndRowAt(graph, demands, scale, side);
    KeyedSwitch(done, y, z, 1, 0, 1, n + 1, present, row);
    assert EndRowsUpTo(graph, demands, n, scale, side, done, y, 1) == Keyed(done, y, 1, 1, n + 1, present, row);
    assert EndRowsUpTo(graph, demands, n, scale, side, done, z, 0) == Keyed(done, z, 0, 1, n + 1, present, row);
  }

  lemma EndRowsFinish(graph: map<int, Slots>, demands: Demands, n: int, scale: int, side: Side,
                      done: set<int>, x: int, c: int)
    requires c > n
    ensures EndRowsUpTo(graph, demands, n, scale, side, done, x, c)
            == EndRowsUpTo(graph, demands, n, scale, side, done + {x}, x, 0)
  {
    var present, row := EndPresent(demands, side), EndRowAt(graph, demands, scale, side);
    KeyedFinish(done, x, c, 0, 1, n + 1, present, row);
    assert EndRowsUpTo(graph, demands, n, scale, side, done, x, c) == Keyed(done, x, c, 1, n + 1, present, row);
    assert EndRowsUpTo(graph, demands, n, scale, side, done + {x}, x, 0) == Keyed(done + {x}, x, 0, 1, n + 1, present, row);
  }

  /** One iteration of the inner loop: `is_target_node` (or
      `is_supply_node`) raises for an unlisted vertex, and the row is added
      exactly when it answers yes. */
  method AddEndRow(graph: map<int, Slots>, demands: Demands, n: int, scale: int, side: Side,
                   rows: map<(int, int), Row<Var>>, done: set<int>, x: int, c: int)
    returns (r: Result<map<(int, int), Row<Var>>>)
    requires x !in done && 1 <= c <= n
    requires rows == EndRowsUpTo(graph, demands, n, scale, side, done, x, c)
    ensures r.Err? <==> x !in demands
    ensures r.Err? ==> r.error == KeyError
    ensures r.Ok? ==> r.value == EndRowsUpTo(graph, demands, n, scale, side, done, x, c + 1)
  {
    var test := if side == Target then IsTargetNode(demands, x, c) else IsSupplyNode(demands, x, c);
    if test.Err? {
      return Err(KeyError);
    }
    EndRowsStep(graph, demands, n, scale, side, done, x, c);
    if test.value {
      var d := demands[x][c];
      var row := if side == Target then Row(SumOf(FlowsIn(graph, x, c)), Ge, scale * d)
                 else Row(SumOf(FlowsOut(graph, x, c)), Le, -d);
      return Ok(rows[(x, c) := row]);
    }
    return Ok(rows);
  }

  /** The inner loop over the commodities of one vertex. */
  method VertexEndRows(graph: map<int, Slots>, demands: Demands, n: int, scale: int, side: Side,
                       rows: map<(int, int), Row<Var>>, done: set<int>, x: int)
    returns (r: Result<map<(int, int), Row<Var>>>)
    requires x !in done && rows == EndRowsUpTo(graph, demands, n, scale, side, done, 0, 0)
    ensures r.Err? <==> n >= 1 && x !in demands
    ensures r.Err? ==> r.error == KeyError
    ensures r.Ok? ==> r.value == EndRowsUpTo(graph, demands, n, scale, side, done + {x}, 0, 0)
  {
    EndRowsSwitch(graph, demands, n, scale, side, done, x, 0);
    var acc := rows;
    var c := 1;
    while c <= n
      invariant 1 <= c && (c <= n + 1 || c == 1)
      invariant c > 1 ==> x in demands
      invariant acc == EndRowsUpTo(graph, demands, n, scale, side, done, x, c)
    {
      var next := AddEndRow(graph, demands, n, scale, side, acc, done, x, c);
      if next.Err? {
        return Err(KeyError);
      }
      acc := next.value;
      c := c + 1;
    }
    EndRowsFinish(graph, demands, n, scale, side, done, x, c);
    EndRowsSwitch(graph, demands, n, scale, side, done + {x}, 0, x);
    return Ok(acc);
  }

  /** The target (or supply) loop, vertex by vertex. */
  method BuildEndRows(graph: map<int, Slots>, demands: Demands, n: int, scale: int, side: Side)
    returns (r: Result<map<(int, int), Row<Var>>>)
    ensures r.Err? <==> n >= 1 && Unlisted(graph, demands)
    ensures r.Err? ==> r.error == KeyError
    ensures r.Ok? ==> r.value == EndRows(graph, demands, n, scale, side)
  {
    var rows := map[];
    var rest := graph.Keys;
    while rest != {}
      invariant rest <= graph.Keys
      invariant rows == EndRowsUpTo(graph, demands, n, scale, side, graph.Keys - rest, 0, 0)
      invariant n >= 1 ==> graph.Keys - rest <= demands.Keys
      decreases rest
    {
      var x := PickFrom(rest);
      var done := graph.Keys - rest;
      var next := VertexEndRows(graph, demands, n, scale, side, rows, done, x);
      if next.Err? {
        return Err(KeyError);
      }
      assert done + {x} == graph.Keys - (rest - {x});
      rows := next.value;
      rest := rest - {x};
    }
    return Ok(rows);
  }

  // ---------------------------------------------------------------------------
  // build_model (lines 39-136)

  /** The content of the pulp problem and of `variables`: the variable keys,
      the objective, the capacity rows in arc order, and the conservation,
      target and supply rows keyed by (vertex, commodity); the order of the
      rows of one kind follows dict iteration and is not modelled. */
  datatype Model = Model(
    variables: set<Var>,
    objective: map<Var, int>,
    capacities: seq<Row<Var>>,
    conservation: map<(int, int), Row<Var>>,
    targets: map<(int, int), Row<Var>>,
    supplies: map<(int, int), Row<Var>>)

  /** What `build_model` returns, or the KeyError it raises when there is a
      commodity and a vertex of the graph has no entry in `demands`. */
  function ModelOf(arcs: seq<Arc>, n: int, demands: Demands, scale: int): Result<Model> {
    var graph := GraphOf(arcs);
    if n >= 1 && Unlisted(graph, demands) then Err(KeyError)
    else Ok(Model(VariablesOf(arcs, n), ObjectiveOf(arcs), CapacityRows(arcs, n),
                  ConservationRows(graph, demands, n),
                  EndRows(graph, demands, n, scale, Target), EndRows(graph, demands, n, scale, Supply)))
  }

  /** `build_model(contents, name, demand_scale)` with `arcs`, `info["no_commodities"]`
      and `demands` taken from `contents`. */
  method BuildModel(arcs: seq<Arc>, n: int, demands: Demands, scale: int) returns (r: Result<Model>)
    ensures r == ModelOf(arcs, n, demands, scale)
  {
    var graph := BuildGraph(arcs);
    var variables := CollectVariables(arcs, n);
    var objective := BuildObjective(arcs);
    var capacities := BuildCapacityRows(arcs, n);
    var conservation := BuildConservationRows(graph, demands, n);
    if conservation.Err? {
      return Err(conservation.error);
    }
    var targets := BuildEndRows(graph, demands, n, scale, Target);
    var supplies := BuildEndRows(graph, demands, n, scale, Supply);
    if targets.Err? || supplies.Err? {
      return Err(KeyError);
    }
    return Ok(Model(variables, objective, capacities, conservation.value, targets.value, supplies.value));
  }

  // ---------------------------------------------------------------------------
  // Properties of the model

  /** `build_model` raises exactly when there is a commodity and the tail or
      head of some arc has no entry in `demands`. */
  lemma ModelFails(arcs: seq<Arc>, n: int, demands: Demands, scale: int)
    ensures ModelOf(arcs, n, demands, scale).Err? <==>
      n >= 1 && exists k :: 0 <= k < |arcs| && (arcs[k].from !in demands || arcs[k].to !in demands)
  {
    var graph := GraphOf(arcs);
    if Unlisted(graph, demands) {
      var x :| x in graph && x !in demands;
      GraphShape(arcs, x, x);
    }
    if exists k :: 0 <= k < |arcs| && (arcs[k].from !in demands || arcs[k].to !in demands) {
      var k :| 0 <= k < |arcs| && (arcs[k].from !in demands || arcs[k].to !in demands);
      var x := if arcs[k].from !in demands then arcs[k].from else arcs[k].to;
      GraphShape(arcs, x, x);
      assert x in graph;
    }
  }

  /** Each (vertex, commodity) pair gets exactly one of the three kinds of
      row: a conservation row when the vertex is neither a supply nor a
      target node of the commodity, a target row when it is a target node
      and a supply row when it is a supply node. Pairs whose vertex is on no
      arc, or whose commodity is outside 1..n, get no row. */
  lemma RowPlacement(arcs: seq<Arc>, n: int, demands: Demands, scale: int, x: int, c: int)
    requires ModelOf(arcs, n, demands, scale).Ok?
    ensures var m := ModelOf(arcs, n, demands, scale).value;
      && ((x, c) in m.conservation <==>
            IsEndpoint(arcs, x) && 1 <= c <= n && IsSupplyNode(demands, x, c) == IsTargetNode(demands, x, c) == Ok(false))
      && ((x, c) in m.targets <==> IsEndpoint(arcs, x) && 1 <= c <= n && IsTargetNode(demands, x, c) == Ok(true))
      && ((x, c) in m.supplies <==> IsEndpoint(arcs, x) && 1 <= c <= n && IsSupplyNode(demands, x, c) == Ok(true))
  {
    var graph := GraphOf(arcs);
    GraphShape(arcs, x, x);
    if x in graph && 1 <= c <= n {
      assert x in demands;
      ConservationKeys(graph, demands, n, x, c);
      EndRowsKeys(graph, demands, n, scale, Target, x, c);
      EndRowsKeys(graph, demands, n, scale, Supply, x, c);
    } else {
      assert (x, c) !in ConservationRows(graph, demands, n);
      assert (x, c) !in EndRows(graph, demands, n, scale, Target);
      assert (x, c) !in EndRows(graph, demands, n, scale, Supply);
    }
  }

  lemma ConservationKeys(graph: map<int, Slots>, demands: Demands, n: int, x: int, c: int)
    requires x in graph && x in demands && 1 <= c <= n
    ensures (x, c) in ConservationRows(graph, demands, n) <==> Neutral(demands, x, c)
  {
  }

  lemma EndRowsKeys(graph: map<int, Slots>, demands: Demands, n: int, scale: int, side: Side, x: int, c: int)
    requires x in graph && x in demands && 1 <= c <= n
    ensures (x, c) in EndRows(graph, demands, n, scale, side) <==> OnSide(side, demands, x, c)
  {
  }

  /** A conservation row at x for commodity c sums the flows of c on the arcs
      leaving x with +1 and those entering x with -1 (0 on a loop at x), has
      no other variable, and requires 0. */
  lemma ConservationTerms(arcs: seq<Arc>, n: int, demands: Demands, scale: int, x: int, c: int, y: Var)
    requires ModelOf(arcs, n, demands, scale).Ok?
    requires (x, c) in ModelOf(arcs, n, demands, scale).value.conservation
    ensures var row := ModelOf(arcs, n, demands, scale).value.conservation[(x, c)];
      && row.rel == Eq && row.rhs == 0
      && (y in row.lhs <==> y.Flow? && y.commodity == c && (y.from == x || y.to == x) && HasArc(arcs, y.from, y.to))
      && (y in row.lhs ==> row.lhs[y] == (if y.from == x then 1 else 0) - (if y.to == x then 1 else 0))
  {
    assert ModelOf(arcs, n, demands, scale).value.conservation[(x, c)] == ConservationRow(GraphOf(arcs), x, c);
    FlowsOutTerms(arcs, x, c, y);
    FlowsInTerms(arcs, x, c, y);
  }

  /** The flows of c leaving x are those over the arcs out of x. */
  lemma FlowsOutTerms(arcs: seq<Arc>, x: int, c: int, y: Var)
    ensures y in FlowsOut(GraphOf(arcs), x, c) <==> y.Flow? && y.commodity == c && y.from == x && HasArc(arcs, x, y.to)
  {
    if y.Flow? {
      GraphShape(arcs, x, y.to);
    }
  }

  /** The flows of c entering x are those over the arcs into x. */
  lemma FlowsInTerms(arcs: seq<Arc>, x: int, c: int, y: Var)
    ensures y in FlowsIn(GraphOf(arcs), x, c) <==> y.Flow? && y.commodity == c && y.to == x && HasArc(arcs, y.from, x)
  {
    if y.Flow? {
      GraphShape(arcs, y.from, x);
    }
  }

  /** A target row at x for c has coefficient 1 on the flow of c over each
      arc entering x, nothing else, and requires at least `scale` times the
      demand. A supply row has coefficient 1 on the flow of c over each arc
      leaving x, and allows at most the supply, which is positive, without
      the scale. */
  lemma EndRowTerms(arcs: seq<Arc>, n: int, demands: Demands, scale: int, x: int, c: int, y: Var)
    requires ModelOf(arcs, n, demands, scale).Ok?
    ensures var m := ModelOf(arcs, n, demands, scale).value;
      (x, c) in m.targets ==>
        && x in demands && c in demands[x] && demands[x][c] > 0
        && m.targets[(x, c)].rel == Ge && m.targets[(x, c)].rhs == scale * demands[x][c]
        && (y in m.targets[(x, c)].lhs <==> y.Flow? && y.commodity == c && y.to == x && HasArc(arcs, y.from, x))
        && (y in m.targets[(x, c)].lhs ==> m.targets[(x, c)].lhs[y] == 1)
    ensures var m := ModelOf(arcs, n, demands, scale).value;
      (x, c) in m.supplies ==>
        && x in demands && c in demands[x]
        && m.supplies[(x, c)].rel == Le && m.supplies[(x, c)].rhs == -demands[x][c] > 0
        && (y in m.supplies[(x, c)].lhs <==> y.Flow? && y.commodity == c && y.from == x && HasArc(arcs, x, y.to))
        && (y in m.supplies[(x, c)].lhs ==> m.supplies[(x, c)].lhs[y] == 1)
  {
    var m, graph := ModelOf(arcs, n, demands, scale).value, GraphOf(arcs);
    if (x, c) in m.targets {
      assert m.targets[(x, c)] == EndRow(graph, demands, scale, Target, x, c);
    }
    if (x, c) in m.supplies {
      assert m.supplies[(x, c)] == EndRow(graph, demands, scale, Supply, x, c);
    }
    FlowsOutTerms(arcs, x, c, y);
    FlowsInTerms(arcs, x, c, y);
  }

  /** Capacity row k belongs to arc k from u to v: `flow(u, v, c)` for each
      commodity c in 1..n with coefficient 1, `violation(u, v)` with
      coefficient -1, and `<= capacity`; so parallel arcs get rows over the
      same variables. */
  lemma CapacityRowTerms(arcs: seq<Arc>, n: int, demands: Demands, scale: int, k: int, y: Var)
    requires ModelOf(arcs, n, demands, scale).Ok? && 0 <= k < |arcs|
    ensures var m := ModelOf(arcs, n, demands, scale).value;
      && |m.capacities| == |arcs|
      && m.capacities[k].rel == Le && m.capacities[k].rhs == arcs[k].capacity
      && (y in m.capacities[k].lhs <==>
            || y == Violation(arcs[k].from, arcs[k].to)
            || (y.Flow? && y.from == arcs[k].from && y.to == arcs[k].to && 1 <= y.commodity <= n))
      && (y in m.capacities[k].lhs ==> m.capacities[k].lhs[y] == if y.Violation? then -1 else 1)
  {
    var a := arcs[k];
    if y.Flow? && y.from == a.from && y.to == a.to && 1 <= y.commodity <= n {
      assert y in Flows(a.from, a.to, 1, n + 1);
    }
  }

  /** Every variable of the objective and of every row is one that the
      variables loop declared, so none of the lookups in `variables` raises. */
  lemma RowsUseDeclaredVariables(arcs: seq<Arc>, n: int, demands: Demands, scale: int, y: Var)
    requires ModelOf(arcs, n, demands, scale).Ok?
    ensures var m := ModelOf(arcs, n, demands, scale).value;
      && (y in m.objective ==> y in m.variables)
      && (forall k :: 0 <= k < |m.capacities| && y in m.capacities[k].lhs ==> y in m.variables)
      && (forall p :: p in m.conservation && y in m.conservation[p].lhs ==> y in m.variables)
      && (forall p :: p in m.targets && y in m.targets[p].lhs ==> y in m.variables)
      && (forall p :: p in m.supplies && y in m.supplies[p].lhs ==> y in m.variables)
  {
    var m := ModelOf(arcs, n, demands, scale).value;
    ObjectiveCoefficients(arcs, y);
    VariablesMembership(arcs, n, y.from, y.to, if y.Flow? then y.commodity else 0);
    forall k | 0 <= k < |m.capacities| && y in m.capacities[k].lhs
      ensures y in m.variables
    {
      assert HasArc(arcs, arcs[k].from, arcs[k].to);
    }
    forall p | p in m.conservation && y in m.conservation[p].lhs
      ensures y in m.variables
    {
      ConservationTerms(arcs, n, demands, scale, p.0, p.1, y);
    }
    forall p | p in m.targets && y in m.targets[p].lhs
      ensures y in m.variables
    {
      EndRowTerms(arcs, n, demands, scale, p.0, p.1, y);
    }
    forall p | p in m.supplies && y in m.supplies[p].lhs
      ensures y in m.variables
    {
      EndRowTerms(arcs, n, demands, scale, p.0, p.1, y);
    }
  }
}
