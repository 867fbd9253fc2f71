/** The normalised multi-commodity flow network of
    scripts/construct_mmcf_problem.py, as values: the instance, the cost
    resolution of `CommodityCost`, the single-source/single-target
    aggregation, the balancing of each commodity, the adjacency index of
    `build_graph` and the set of valid (arc, commodity) pairs. The class that
    builds these step by step is in module MmcfConstruct. */
module MmcfNetwork {
  import opened Wrappers

  function Abs(x: int): nat { if x < 0 then -x else x }
  function Min(a: int, b: int): int { if a <= b then a else b }

  /** A key of a per-commodity cost table. A table read from JSON has only string keys. */
  datatype Key = IntKey(i: int) | StrKey(s: string)

  /** The `cost` of an arc: JSON null, a number shared by all commodities, or a table. */
  datatype Cost =
    | NullCost
    | Scalar(amount: int)
    | PerCommodity(table: map<Key, Option<int>>)

  datatype Arc = Arc(from: int, to: int, capacity: int, cost: Cost)

  /** `demands[vertex]`: the (commodity, signed demand) pairs of one vertex, in key order. */
  datatype VertexDemands = VertexDemands(vertex: int, entries: seq<(int, int)>)

  /** The JSON instance: `info`, `arcs` and `demands`, with keys already read as integers. */
  datatype Instance = Instance(
    noNodes: int, noArcs: int, noCommodities: int,
    arcs: seq<Arc>, demands: seq<VertexDemands>)

  /** A synthesised source or target vertex of a commodity and its signed demand. */
  datatype Endpoint = Endpoint(id: int, demand: int)

  /** `graph[u]`: the heads of the arcs leaving u and the tails of the arcs entering u. */
  datatype Adjacency = Adjacency(outNodes: set<int>, inNodes: set<int>)

  /** A member `(id, u, v, commodity)` of `valid_arcs`. */
  datatype ValidArc = ValidArc(id: int, from: int, to: int, commodity: int)

  // ---------------------------------------------------------------------------
  // CommodityCost.__getitem__

  /** The cost of arc `id` for `commodity`: `Ok(None)` marks an arc the commodity
      cannot use; a per-commodity table is indexed with the integer key and a
      missing key raises. */
  function CostOf(arcs: seq<Arc>, id: int, commodity: int): (r: Result<Option<int>>)
    ensures !(0 <= id < |arcs|) ==> r == Ok(None)
    ensures 0 <= id < |arcs| && arcs[id].cost.Scalar? ==> r == Ok(Some(arcs[id].cost.amount))
    ensures 0 <= id < |arcs| && arcs[id].cost.NullCost? ==> r == Ok(None)
    ensures r.Err? <==> 0 <= id < |arcs| && arcs[id].cost.PerCommodity?
                        && IntKey(commodity) !in arcs[id].cost.table
    ensures r.Err? ==> r.error == KeyError
    ensures r.Ok? && 0 <= id < |arcs| && arcs[id].cost.PerCommodity?
            ==> r.value == arcs[id].cost.table[IntKey(commodity)]
  {
    if !(0 <= id < |arcs|) then Ok(None)
    else match arcs[id].cost
      case NullCost => Ok(None)
      case Scalar(x) => Ok(Some(x))
      case PerCommodity(t) => if IntKey(commodity) in t then Ok(t[IntKey(commodity)]) else Err(KeyError)
  }

  /** A per-commodity table read from JSON (only string keys) makes every lookup raise. */
  lemma JsonTableAlwaysRaises(arcs: seq<Arc>, id: int, commodity: int)
    requires 0 <= id < |arcs| && arcs[id].cost.PerCommodity?
    requires forall k :: k in arcs[id].cost.table ==> k.StrKey?
    ensures CostOf(arcs, id, commodity) == Err(KeyError)
  {
  }

  // ---------------------------------------------------------------------------
  // Network.__init__, lines 59-102: one bridging arc per non-zero demand entry

  /** The fields of the network that the aggregation loop updates. */
  datatype Aggregation = Aggregation(
    noNodes: int, noArcs: int, arcs: seq<Arc>,
    sources: map<int, Endpoint>, targets: map<int, Endpoint>)

  /** One `demands[vertex][commodity]` entry. */
  datatype Entry = Entry(vertex: int, commodity: int, demand: int)

  /** One iteration of the inner loop. */
  function AddDemand(g: Aggregation, e: Entry): (r: Aggregation)
    ensures e.demand == 0 ==> r == g
    ensures e.demand != 0 ==>
      && |r.arcs| == |g.arcs| + 1 && r.arcs[..|g.arcs|] == g.arcs
      && r.noArcs == g.noArcs + 1
      && r.arcs[|g.arcs|].cost == Scalar(0)
      && r.arcs[|g.arcs|].capacity == Abs(e.demand)
    ensures e.demand > 0 ==>
      && r.sources == g.sources
      && e.commodity in r.targets
      && r.arcs[|g.arcs|].from == e.vertex
      && r.arcs[|g.arcs|].to == r.targets[e.commodity].id
      && r.targets[e.commodity].demand
         == (if e.commodity in g.targets then g.targets[e.commodity].demand else 0) + e.demand
      && (e.commodity in g.targets ==>
            r.targets[e.commodity].id == g.targets[e.commodity].id && r.noNodes == g.noNodes)
      && (e.commodity !in g.targets ==>
            r.targets[e.commodity].id == g.noNodes && r.noNodes == g.noNodes + 1)
      && r.targets.Keys == g.targets.Keys + {e.commodity}
      && (forall c :: c in g.targets && c != e.commodity ==> r.targets[c] == g.targets[c])
    ensures e.demand < 0 ==>
      && r.targets == g.targets
      && e.commodity in r.sources
      && r.arcs[|g.arcs|].from == r.sources[e.commodity].id
      && r.arcs[|g.arcs|].to == e.vertex
      && r.sources[e.commodity].demand
         == (if e.commodity in g.sources then g.sources[e.commodity].demand else 0) + e.demand
      && (e.commodity in g.sources ==>
            r.sources[e.commodity].id == g.sources[e.commodity].id && r.noNodes == g.noNodes)
      && (e.commodity !in g.sources ==>
            r.sources[e.commodity].id == g.noNodes && r.noNodes == g.noNodes + 1)
      && r.sources.Keys == g.sources.Keys + {e.commodity}
      && (forall c :: c in g.sources && c != e.commodity ==> r.sources[c] == g.sources[c])
  {
    if e.demand == 0 then g
    else if e.demand > 0 then
      var g1 := if e.commodity in g.targets then g
                else g.(targets := g.targets[e.commodity := Endpoint(g.noNodes, 0)],
                        noNodes := g.noNodes + 1);
      var t := g1.targets[e.commodity];
      g1.(targets := g1.targets[e.commodity := t.(demand := t.demand + e.demand)],
          arcs := g1.arcs + [Arc(e.vertex, t.id, Abs(e.demand), Scalar(0))],
          noArcs := g1.noArcs + 1)
    else
      var g1 := if e.commodity in g.sources then g
                else g.(sources := g.sources[e.commodity := Endpoint(g.noNodes, 0)],
                        noNodes := g.noNodes + 1);
      var s := g1.sources[e.commodity];
      g1.(sources := g1.sources[e.commodity := s.(demand := s.demand + e.demand)],
          arcs := g1.arcs + [Arc(s.id, e.vertex, Abs(e.demand), Scalar(0))],
          noArcs := g1.noArcs + 1)
  }

  /** A positive entry in closed form: the target of the commodity (allocated
      if new) gains the demand, and the arc runs from the vertex to it. */
  lemma AddDemandTarget(g: Aggregation, e: Entry)
    requires e.demand > 0
    ensures var c := e.commodity;
      var id := if c in g.targets then g.targets[c].id else g.noNodes;
      var total := if c in g.targets then g.targets[c].demand else 0;
      AddDemand(g, e) == g.(noNodes := if c in g.targets then g.noNodes else g.noNodes + 1,
                            targets := g.targets[c := Endpoint(id, total + e.demand)],
                            arcs := g.arcs + [Arc(e.vertex, id, e.demand, Scalar(0))],
                            noArcs := g.noArcs + 1)
  {
  }

  /** A negative entry in closed form: the source of the commodity (allocated
      if new) gains the demand, and the arc runs from it to the vertex. */
  lemma AddDemandSource(g: Aggregation, e: Entry)
    requires e.demand < 0
    ensures var c := e.commodity;
      var id := if c in g.sources then g.sources[c].id else g.noNodes;
      var total := if c in g.sources then g.sources[c].demand else 0;
      AddDemand(g, e) == g.(noNodes := if c in g.sources then g.noNodes else g.noNodes + 1,
                            sources := g.sources[c := Endpoint(id, total + e.demand)],
                            arcs := g.arcs + [Arc(id, e.vertex, -e.demand, Scalar(0))],
                            noArcs := g.noArcs + 1)
  {
  }

  /** The entries of one vertex, in order. */
  function EntriesOf(vd: VertexDemands): (es: seq<Entry>)
    ensures |es| == |vd.entries|
  {
    seq(|vd.entries|, k requires 0 <= k < |vd.entries| =>
      Entry(vd.vertex, vd.entries[k].0, vd.entries[k].1))
  }

  /** The demand table in the order of the nested loops. */
  function Flatten(vds: seq<VertexDemands>): seq<Entry> {
    if vds == [] then [] else Flatten(vds[..|vds| - 1]) + EntriesOf(vds[|vds| - 1])
  }

  /** The aggregation loop over a sequence of entries. */
  function AddAll(g: Aggregation, es: seq<Entry>): Aggregation {
    if es == [] then g else AddDemand(AddAll(g, es[..|es| - 1]), es[|es| - 1])
  }

  /** The state of the network when the constructor starts the aggregation loop. */
  function Start(inst: Instance): Aggregation {
    Aggregation(inst.noNodes, inst.noArcs, inst.arcs, map[], map[])
  }

  function Aggregate(inst: Instance): Aggregation {
    AddAll(Start(inst), Flatten(inst.demands))
  }

  /** `g` is `g0` after appending: no arc or endpoint id of `g0` is renumbered,
      every appended arc is a bridging arc of cost 0 and positive capacity, and
      `no_arcs` grows with the arc list. */
  ghost predicate Extends(g0: Aggregation, g: Aggregation) {
    && |g0.arcs| <= |g.arcs| && g.arcs[..|g0.arcs|] == g0.arcs
    && g.noArcs - |g.arcs| == g0.noArcs - |g0.arcs|
    && g0.noNodes <= g.noNodes
    && (forall k :: |g0.arcs| <= k < |g.arcs| ==> g.arcs[k].cost == Scalar(0) && g.arcs[k].capacity > 0)
    && (forall c :: c in g0.sources ==> c in g.sources && g.sources[c].id == g0.sources[c].id)
    && (forall c :: c in g0.targets ==> c in g.targets && g.targets[c].id == g0.targets[c].id)
  }

  /** Number of non-zero entries. */
  function NonZero(es: seq<Entry>): nat {
    if es == [] then 0 else NonZero(es[..|es| - 1]) + (if es[|es| - 1].demand != 0 then 1 else 0)
  }

  /** Aggregation only appends: one arc per non-zero entry, and nothing renumbered. */
  lemma {:induction false} AddAllExtends(g: Aggregation, es: seq<Entry>)
    ensures Extends(g, AddAll(g, es))
    ensures |AddAll(g, es).arcs| == |g.arcs| + NonZero(es)
  {
    if es != [] {
      var p := AddAll(g, es[..|es| - 1]);
      AddAllExtends(g, es[..|es| - 1]);
      var r := AddDemand(p, es[|es| - 1]);
      assert r.arcs[..|g.arcs|] == p.arcs[..|g.arcs|];
    }
  }

  /** Sum of the positive demands for `c`: what the target accumulates. */
  function Demanded(es: seq<Entry>, c: int): int {
    if es == [] then 0
    else Demanded(es[..|es| - 1], c)
         + (if es[|es| - 1].commodity == c && es[|es| - 1].demand > 0 then es[|es| - 1].demand else 0)
  }

  /** Sum of the negative demands for `c`: what the source accumulates. */
  function Supplied(es: seq<Entry>, c: int): int {
    if es == [] then 0
    else Supplied(es[..|es| - 1], c)
         + (if es[|es| - 1].commodity == c && es[|es| - 1].demand < 0 then es[|es| - 1].demand else 0)
  }

  ghost predicate HasTarget(es: seq<Entry>, c: int) {
    exists k :: 0 <= k < |es| && es[k].commodity == c && es[k].demand > 0
  }

  ghost predicate HasSource(es: seq<Entry>, c: int) {
    exists k :: 0 <= k < |es| && es[k].commodity == c && es[k].demand < 0
  }

  /** A commodity gets a target exactly when some entry demands it and a source
      exactly when some entry supplies it; their running totals are the signed
      sums of those entries. */
  lemma {:induction false} AddAllTotals(g: Aggregation, es: seq<Entry>, c: int)
    ensures var r := AddAll(g, es);
      && (c in r.targets <==> c in g.targets || HasTarget(es, c))
      && (c in r.sources <==> c in g.sources || HasSource(es, c))
      && (c in r.targets ==>
            r.targets[c].demand == (if c in g.targets then g.targets[c].demand else 0) + Demanded(es, c))
      && (c in r.sources ==>
            r.sources[c].demand == (if c in g.sources then g.sources[c].demand else 0) + Supplied(es, c))
  {
    if es != [] {
      var init := es[..|es| - 1];
      var e := es[|es| - 1];
      var p := AddAll(g, init);
      assert AddAll(g, es) == AddDemand(p, e);
      AddAllTotals(g, init, c);
      HasSnoc(es, c);
      NothingDemanded(init, c);
      NothingSupplied(init, c);
    }
  }

  lemma HasSnoc(es: seq<Entry>, c: int)
    requires es != []
    ensures var init, e := es[..|es| - 1], es[|es| - 1];
      && (HasTarget(es, c) <==> HasTarget(init, c) || (e.commodity == c && e.demand > 0))
      && (HasSource(es, c) <==> HasSource(init, c) || (e.commodity == c && e.demand < 0))
  {
    var init := es[..|es| - 1];
    if HasTarget(es, c) {
      var k :| 0 <= k < |es| && es[k].commodity == c && es[k].demand > 0;
      if k < |init| { assert init[k] == es[k]; }
    }
    if HasTarget(init, c) {
      var k :| 0 <= k < |init| && init[k].commodity == c && init[k].demand > 0;
      assert es[k] == init[k];
    }
    if HasSource(es, c) {
      var k :| 0 <= k < |es| && es[k].commodity == c && es[k].demand < 0;
      if k < |init| { assert init[k] == es[k]; }
    }
    if HasSource(init, c) {
      var k :| 0 <= k < |init| && init[k].commodity == c && init[k].demand < 0;
      assert es[k] == init[k];
    }
  }

  lemma {:induction false} NothingDemanded(es: seq<Entry>, c: int)
    ensures !HasTarget(es, c) ==> Demanded(es, c) == 0
  {
    if es != [] {
      HasSnoc(es, c);
      NothingDemanded(es[..|es| - 1], c);
    }
  }

  lemma {:induction false} NothingSupplied(es: seq<Entry>, c: int)
    ensures !HasSource(es, c) ==> Supplied(es, c) == 0
  {
    if es != [] {
      HasSnoc(es, c);
      NothingSupplied(es[..|es| - 1], c);
    }
  }

  /** Every synthesised vertex id lies in `[base, no_nodes)` and no two endpoints share one. */
  ghost predicate FreshIds(g: Aggregation, base: int) {
    && base <= g.noNodes
    && (forall c :: c in g.sources ==> base <= g.sources[c].id < g.noNodes)
    && (forall c :: c in g.targets ==> base <= g.targets[c].id < g.noNodes)
    && (forall c, d :: c in g.sources && d in g.targets ==> g.sources[c].id != g.targets[d].id)
    && (forall c, d :: c in g.sources && d in g.sources && c != d ==> g.sources[c].id != g.sources[d].id)
    && (forall c, d :: c in g.targets && d in g.targets && c != d ==> g.targets[c].id != g.targets[d].id)
  }

  /** One entry allocates at most one endpoint, with the next free vertex id. */
  lemma AddDemandFreshIds(g: Aggregation, e: Entry, base: int)
    requires FreshIds(g, base)
    ensures FreshIds(AddDemand(g, e), base)
  {
    var r := AddDemand(g, e);
    var c := e.commodity;
    if e.demand > 0 {
      var id := if c in g.targets then g.targets[c].id else g.noNodes;
      assert r.targets == g.targets[c := Endpoint(id, r.targets[c].demand)];
      FreshIdsPutTarget(g, r, base, c, id);
    } else if e.demand < 0 {
      var id := if c in g.sources then g.sources[c].id else g.noNodes;
      assert r.sources == g.sources[c := Endpoint(id, r.sources[c].demand)];
      FreshIdsPutSource(g, r, base, c, id);
    }
  }

  /** Giving commodity `c` a source keeps ids fresh when the id is its old
      one, or the next free id. */
  lemma FreshIdsPutSource(g: Aggregation, r: Aggregation, base: int, c: int, id: int)
    requires FreshIds(g, base)
    requires r.targets == g.targets && c in r.sources && r.sources[c].id == id
    requires forall d :: d in r.sources <==> d in g.sources || d == c
    requires forall d :: d in g.sources && d != c ==> r.sources[d] == g.sources[d]
    requires c in g.sources ==> id == g.sources[c].id && r.noNodes == g.noNodes
    requires c !in g.sources ==> id == g.noNodes && r.noNodes == g.noNodes + 1
    ensures FreshIds(r, base)
  {
  }

  /** Giving commodity `c` a target keeps ids fresh when the id is its old
      one, or the next free id. */
  lemma FreshIdsPutTarget(g: Aggregation, r: Aggregation, base: int, c: int, id: int)
    requires FreshIds(g, base)
    requires r.sources == g.sources && c in r.targets && r.targets[c].id == id
    requires forall d :: d in r.targets <==> d in g.targets || d == c
    requires forall d :: d in g.targets && d != c ==> r.targets[d] == g.targets[d]
    requires c in g.targets ==> id == g.targets[c].id && r.noNodes == g.noNodes
    requires c !in g.targets ==> id == g.noNodes && r.noNodes == g.noNodes + 1
    ensures FreshIds(r, base)
  {
  }

  /** Each endpoint is allocated once, with the next free vertex id. */
  lemma {:induction false} AddAllFreshIds(g: Aggregation, es: seq<Entry>, base: int)
    requires FreshIds(g, base)
    ensures FreshIds(AddAll(g, es), base)
  {
    if es != [] {
      AddAllFreshIds(g, es[..|es| - 1], base);
      AddDemandFreshIds(AddAll(g, es[..|es| - 1]), es[|es| - 1], base);
    }
  }

  lemma {:induction false} FlattenAppend(vds: seq<VertexDemands>, i: nat)
    requires i < |vds|
    ensures Flatten(vds[..i + 1]) == Flatten(vds[..i]) + EntriesOf(vds[i])
  {
    assert vds[..i + 1][..i] == vds[..i];
  }

  /** Folding a concatenation is folding its halves in turn. */
  lemma {:induction false} AddAllConcat(g: Aggregation, es: seq<Entry>, fs: seq<Entry>)
    ensures AddAll(g, es + fs) == AddAll(AddAll(g, es), fs)
    decreases |fs|
  {
    if fs == [] {
      assert es + fs == es;
    } else {
      var init := fs[..|fs| - 1];
      assert (es + fs)[..|es + fs| - 1] == es + init;
      assert (es + fs)[|es + fs| - 1] == fs[|fs| - 1];
      AddAllConcat(g, es, init);
    }
  }

  lemma {:induction false} AddAllAppend(g: Aggregation, es: seq<Entry>, e: Entry)
    ensures AddAll(g, es + [e]) == AddDemand(AddAll(g, es), e)
  {
    assert (es + [e])[..|es|] == es;
  }

  // ---------------------------------------------------------------------------
  // Network.__init__, lines 106-111: balancing

  predicate Missing(sources: map<int, Endpoint>, targets: map<int, Endpoint>, c: int) {
    c !in sources || c !in targets
  }

  /** The balanced amount of a commodity. */
  function Cap(sources: map<int, Endpoint>, targets: map<int, Endpoint>, c: int): int
    requires c in sources && c in targets
  {
    Min(Abs(sources[c].demand), Abs(targets[c].demand))
  }

  /** The balancing loop from commodity `c` up to `n`. */
  function BalanceFrom(sources: map<int, Endpoint>, targets: map<int, Endpoint>, c: int, n: int)
    : (r: Result<(map<int, Endpoint>, map<int, Endpoint>)>)
    decreases n - c
  {
    if c >= n then Ok((sources, targets))
    else if Missing(sources, targets, c) then Err(KeyError)
    else
      var d := Cap(sources, targets, c);
      BalanceFrom(sources[c := Endpoint(sources[c].id, -d)], targets[c := Endpoint(targets[c].id, d)], c + 1, n)
  }

  /** Each commodity from `c` up to `n` must have both endpoints (a KeyError
      otherwise); its source demand becomes `-d` and its target demand `d`,
      with `d` the smaller magnitude of the two totals. Ids and every other
      entry are kept. */
  lemma {:induction false} BalanceFromMeaning(sources: map<int, Endpoint>, targets: map<int, Endpoint>, c: int, n: int)
    ensures var r := BalanceFrom(sources, targets, c, n);
      && (r.Err? <==> exists k :: c <= k < n && Missing(sources, targets, k))
      && (r.Err? ==> r.error == KeyError)
      && (r.Ok? ==> r.value.0.Keys == sources.Keys && r.value.1.Keys == targets.Keys)
      && (r.Ok? ==> forall k :: c <= k < n ==>
            && k in sources && k in targets
            && r.value.0[k] == Endpoint(sources[k].id, -Cap(sources, targets, k))
            && r.value.1[k] == Endpoint(targets[k].id, Cap(sources, targets, k)))
      && (r.Ok? ==> forall k :: k in sources && !(c <= k < n) ==> r.value.0[k] == sources[k])
      && (r.Ok? ==> forall k :: k in targets && !(c <= k < n) ==> r.value.1[k] == targets[k])
    decreases n - c
  {
    if c < n && !Missing(sources, targets, c) {
      var d := Cap(sources, targets, c);
      var sources', targets' := sources[c := Endpoint(sources[c].id, -d)], targets[c := Endpoint(targets[c].id, d)];
      assert sources'.Keys == sources.Keys && targets'.Keys == targets.Keys;
      assert forall k :: Missing(sources', targets', k) <==> Missing(sources, targets, k);
      BalanceFromMeaning(sources', targets', c + 1, n);
    }
  }

  /** One iteration of the balancing loop, unfolded. */
  lemma BalanceFromStep(sources: map<int, Endpoint>, targets: map<int, Endpoint>, c: int, n: int)
    requires c < n && !Missing(sources, targets, c)
    ensures var d := Cap(sources, targets, c);
      BalanceFrom(sources, targets, c, n)
      == BalanceFrom(sources[c := Endpoint(sources[c].id, -d)], targets[c := Endpoint(targets[c].id, d)], c + 1, n)
  {
  }

  // ---------------------------------------------------------------------------
  // build_graph (lines 9-20)

  /** The adjacency of `graph` after adding arc `u -> v`. */
  function AddEdge(graph: map<int, Adjacency>, u: int, v: int): map<int, Adjacency> {
    var gu := if u in graph then graph else graph[u := Adjacency({}, {})];
    var gu' := gu[u := gu[u].(outNodes := gu[u].outNodes + {v})];
    var gv := if v in gu' then gu' else gu'[v := Adjacency({}, {})];
    gv[v := gv[v].(inNodes := gv[v].inNodes + {u})]
  }

  /** `build_graph(arcs)` */
  function GraphOf(arcs: seq<Arc>): map<int, Adjacency> {
    if arcs == [] then map[]
    else AddEdge(GraphOf(arcs[..|arcs| - 1]), arcs[|arcs| - 1].from, arcs[|arcs| - 1].to)
  }

  /** `graph.get(x, {}).get("out", {})` */
  function Out(graph: map<int, Adjacency>, x: int): set<int> {
    if x in graph then graph[x].outNodes else {}
  }

  /** `graph.get(x, {}).get("in", {})` */
  function In(graph: map<int, Adjacency>, x: int): set<int> {
    if x in graph then graph[x].inNodes else {}
  }

  lemma AddEdgeEffect(graph: map<int, Adjacency>, u: int, v: int)
    ensures AddEdge(graph, u, v).Keys == graph.Keys + {u, v}
    ensures forall x :: Out(AddEdge(graph, u, v), x) == Out(graph, x) + (if x == u then {v} else {})
    ensures forall x :: In(AddEdge(graph, u, v), x) == In(graph, x) + (if x == v then {u} else {})
  {
  }

  ghost predicate HasArc(arcs: seq<Arc>, u: int, v: int) {
    exists k :: 0 <= k < |arcs| && arcs[k].from == u && arcs[k].to == v
  }

  ghost predicate IsEndpoint(arcs: seq<Arc>, x: int) {
    exists k :: 0 <= k < |arcs| && (arcs[k].from == x || arcs[k].to == x)
  }

  lemma ArcSnoc(arcs: seq<Arc>, u: int, v: int, x: int)
    requires arcs != []
    ensures var init, a := arcs[..|arcs| - 1], arcs[|arcs| - 1];
      && (HasArc(arcs, u, v) <==> HasArc(init, u, v) || (u == a.from && v == a.to))
      && (IsEndpoint(arcs, x) <==> IsEndpoint(init, x) || x == a.from || x == a.to)
  {
    var init := arcs[..|arcs| - 1];
    if HasArc(arcs, u, v) {
      var k :| 0 <= k < |arcs| && arcs[k].from == u && arcs[k].to == v;
      if k < |init| { assert init[k] == arcs[k]; }
    }
    if HasArc(init, u, v) {
      var k :| 0 <= k < |init| && init[k].from == u && init[k].to == v;
      assert arcs[k] == init[k];
    }
    if IsEndpoint(arcs, x) {
      var k :| 0 <= k < |arcs| && (arcs[k].from == x || arcs[k].to == x);
      if k < |init| { assert init[k] == arcs[k]; }
    }
    if IsEndpoint(init, x) {
      var k :| 0 <= k < |init| && (init[k].from == x || init[k].to == x);
      assert arcs[k] == init[k];
    }
  }

  /** The index holds exactly the arc endpoints, each with both an out-set and an
      in-set; `v` is an out-neighbour of `u` iff `u` is an in-neighbour of `v`
      iff some arc runs from `u` to `v`. */
  lemma {:induction false} GraphOfAdjacency(arcs: seq<Arc>, u: int, v: int)
    ensures u in GraphOf(arcs) <==> IsEndpoint(arcs, u)
    ensures v in Out(GraphOf(arcs), u) <==> HasArc(arcs, u, v)
    ensures u in In(GraphOf(arcs), v) <==> HasArc(arcs, u, v)
  {
    if arcs != [] {
      var init := arcs[..|arcs| - 1];
      var a := arcs[|arcs| - 1];
      GraphOfAdjacency(init, u, v);
      AddEdgeEffect(GraphOf(init), a.from, a.to);
      ArcSnoc(arcs, u, v, u);
    }
  }

  // ---------------------------------------------------------------------------
  // Network.__init__, lines 118-127: valid arcs

  /** (id, c) comes before (i, j) in the order of the nested loops. */
  predicate Before(id: int, c: int, i: int, j: int) {
    id < i || (id == i && c < j)
  }

  /** No cost lookup of the loop before (i, j) raised. */
  predicate LookupsOk(arcs: seq<Arc>, n: int, i: int, j: int) {
    forall id, c :: 0 <= id < |arcs| && 0 <= c < n && Before(id, c, i, j) ==> CostOf(arcs, id, c).Ok?
  }

  /** The pairs added to `valid_arcs` by the iterations before (i, j). */
  function ValidBefore(arcs: seq<Arc>, n: int, i: int, j: int): set<ValidArc> {
    set id, c | 0 <= id < |arcs| && 0 <= c < n && Before(id, c, i, j)
                && CostOf(arcs, id, c).Ok? && CostOf(arcs, id, c).value.Some?
      :: ValidArc(id, arcs[id].from, arcs[id].to, c)
  }

  /** `valid_arcs`: a KeyError if some lookup raises, otherwise `(id, u, v, c)` is
      in the set iff arc `id` runs from u to v, c is a commodity and the
      resolved cost of the pair is not None. */
  function ValidArcs(arcs: seq<Arc>, n: int): (r: Result<set<ValidArc>>)
    ensures r.Err? <==> exists id, c :: 0 <= id < |arcs| && 0 <= c < n && CostOf(arcs, id, c).Err?
    ensures r.Ok? ==> forall va :: va in r.value <==>
      && 0 <= va.id < |arcs| && va.from == arcs[va.id].from && va.to == arcs[va.id].to
      && 0 <= va.commodity < n && CostOf(arcs, va.id, va.commodity).Ok?
      && CostOf(arcs, va.id, va.commodity).value.Some?
  {
    if LookupsOk(arcs, n, |arcs|, 0) then Ok(ValidBefore(arcs, n, |arcs|, 0)) else Err(KeyError)
  }

  // ---------------------------------------------------------------------------
  // The whole constructor and the queries of the constructed network

  /** The fields of a constructed `Network`; `arcs[id]` is the arc numbered `id`. */
  datatype NetworkData = NetworkData(
    noNodes: int, noArcs: int, noCommodities: int, arcs: seq<Arc>,
    sources: map<int, Endpoint>, targets: map<int, Endpoint>,
    graph: map<int, Adjacency>, validArcs: set<ValidArc>)
  {
    /** `is_source_node`: a KeyError for a commodity without a source. */
    function IsSourceNode(vertex: int, commodity: int): (r: Result<bool>)
      ensures r.Err? <==> commodity !in sources
      ensures r.Ok? ==> (r.value <==> vertex == sources[commodity].id)
    {
      if commodity in sources then Ok(vertex == sources[commodity].id) else Err(KeyError)
    }

    /** `is_target_node`: a KeyError for a commodity without a target. */
    function IsTargetNode(vertex: int, commodity: int): (r: Result<bool>)
      ensures r.Err? <==> commodity !in targets
      ensures r.Ok? ==> (r.value <==> vertex == targets[commodity].id)
    {
      if commodity in targets then Ok(vertex == targets[commodity].id) else Err(KeyError)
    }

    /** `get_demand`: the target's demand at the target, else the source's demand
        at the source, else 0. The target is looked up first. */
    function GetDemand(vertex: int, commodity: int): (r: Result<int>)
      ensures r.Err? <==> (commodity !in targets || (vertex != targets[commodity].id && commodity !in sources))
      ensures r.Ok? && vertex == targets[commodity].id ==> r.value == targets[commodity].demand
      ensures r.Ok? && vertex != targets[commodity].id && vertex == sources[commodity].id
              ==> r.value == sources[commodity].demand
      ensures r.Ok? && vertex != targets[commodity].id && vertex != sources[commodity].id
              ==> r.value == 0
    {
      match IsTargetNode(vertex, commodity)
      case Err(e) => Err(e)
      case Ok(true) => Ok(targets[commodity].demand)
      case Ok(false) =>
        match IsSourceNode(vertex, commodity)
        case Err(e) => Err(e)
        case Ok(true) => Ok(sources[commodity].demand)
        case Ok(false) => Ok(0)
    }
  }

  /** `Network(contents)`: aggregation, balancing, the adjacency index and the
      valid arcs, or the KeyError the constructor raises. */
  function Normalise(inst: Instance): Result<NetworkData> {
    var g := Aggregate(inst);
    match BalanceFrom(g.sources, g.targets, 0, inst.noCommodities)
    case Err(e) => Err(e)
    case Ok(st) =>
      match ValidArcs(g.arcs, inst.noCommodities)
      case Err(e) => Err(e)
      case Ok(valid) =>
        Ok(NetworkData(g.noNodes, g.noArcs, inst.noCommodities, g.arcs, st.0, st.1, GraphOf(g.arcs), valid))
  }

  /** Every commodity in `range(n)` is supplied by some entry and demanded by some entry. */
  ghost predicate EveryCommodityHasEnds(es: seq<Entry>, n: int) {
    forall c :: 0 <= c < n ==> HasSource(es, c) && HasTarget(es, c)
  }

  /** Construction succeeds iff every commodity in `range(no_commodities)` is
      supplied by some entry and demanded by some entry, and no cost lookup raises. */
  lemma NormaliseSucceeds(inst: Instance)
    ensures Normalise(inst).Ok? <==>
      EveryCommodityHasEnds(Flatten(inst.demands), inst.noCommodities)
      && ValidArcs(Aggregate(inst).arcs, inst.noCommodities).Ok?
  {
    var es := Flatten(inst.demands);
    var g := Aggregate(inst);
    var b := BalanceFrom(g.sources, g.targets, 0, inst.noCommodities);
    BalanceFromMeaning(g.sources, g.targets, 0, inst.noCommodities);
    assert Normalise(inst).Ok? <==> b.Ok? && ValidArcs(g.arcs, inst.noCommodities).Ok?;
    forall c
      ensures Missing(g.sources, g.targets, c) <==> !(HasSource(es, c) && HasTarget(es, c))
    {
      AddAllTotals(Start(inst), es, c);
    }
    if !EveryCommodityHasEnds(es, inst.noCommodities) {
      var c :| 0 <= c < inst.noCommodities && !(HasSource(es, c) && HasTarget(es, c));
      assert Missing(g.sources, g.targets, c);
    }
  }

  /** After construction every commodity has a source and a target at distinct
      new vertices (numbered from the original `no_nodes` on), with demands
      `-d` and `d` where `d` is the smaller of the total supply and the total
      demand of that commodity in the table. */
  lemma BalancedEndpoints(inst: Instance, c: int)
    requires Normalise(inst).Ok?
    requires 0 <= c < inst.noCommodities
    ensures var net := Normalise(inst).value;
      var es := Flatten(inst.demands);
      && c in net.sources && c in net.targets
      && net.sources[c].id != net.targets[c].id
      && inst.noNodes <= net.sources[c].id < net.noNodes
      && inst.noNodes <= net.targets[c].id < net.noNodes
      && net.targets[c].demand == Min(-Supplied(es, c), Demanded(es, c))
      && net.sources[c].demand == -net.targets[c].demand
      && net.targets[c].demand >= 0
  {
    var es, g, net := Flatten(inst.demands), Aggregate(inst), Normalise(inst).value;
    NormalisedEndpoints(inst, c);
    AggregatedEndpoints(inst, c);
    assert Cap(g.sources, g.targets, c) == Min(-Supplied(es, c), Demanded(es, c));
  }

  /** The endpoints of a commodity after the balancing loop, in terms of
      those after the aggregation loop. */
  lemma NormalisedEndpoints(inst: Instance, c: int)
    requires Normalise(inst).Ok?
    requires 0 <= c < inst.noCommodities
    ensures var g, net := Aggregate(inst), Normalise(inst).value;
      && c in g.sources && c in g.targets && c in net.sources && c in net.targets
      && net.noNodes == g.noNodes
      && net.targets[c] == Endpoint(g.targets[c].id, Cap(g.sources, g.targets, c))
      && net.sources[c] == Endpoint(g.sources[c].id, -Cap(g.sources, g.targets, c))
  {
    var g := Aggregate(inst);
    var net := Normalise(inst).value;
    var b := BalanceFrom(g.sources, g.targets, 0, inst.noCommodities);
    BalanceFromMeaning(g.sources, g.targets, 0, inst.noCommodities);
    assert b.Ok? && net.sources == b.value.0 && net.targets == b.value.1 && net.noNodes == g.noNodes;
  }

  /** The endpoints of a commodity after the aggregation loop. */
  lemma AggregatedEndpoints(inst: Instance, c: int)
    requires c in Aggregate(inst).sources && c in Aggregate(inst).targets
    ensures var g, es := Aggregate(inst), Flatten(inst.demands);
      && g.sources[c].id != g.targets[c].id
      && inst.noNodes <= g.sources[c].id < g.noNodes
      && inst.noNodes <= g.targets[c].id < g.noNodes
      && g.sources[c].demand == Supplied(es, c) <= 0
      && g.targets[c].demand == Demanded(es, c) >= 0
  {
    var es := Flatten(inst.demands);
    AddAllTotals(Start(inst), es, c);
    AddAllFreshIds(Start(inst), es, inst.noNodes);
    SuppliedNonPositive(es, c);
    DemandedNonNegative(es, c);
  }

  lemma {:induction false} SuppliedNonPositive(es: seq<Entry>, c: int)
    ensures Supplied(es, c) <= 0
  {
    if es != [] { SuppliedNonPositive(es[..|es| - 1], c); }
  }

  lemma {:induction false} DemandedNonNegative(es: seq<Entry>, c: int)
    ensures Demanded(es, c) >= 0
  {
    if es != [] { DemandedNonNegative(es[..|es| - 1], c); }
  }

  /** On a constructed network `get_demand` gives `d` at the commodity's target,
      `-d` at its source and 0 at every vertex of the original instance. */
  lemma EndpointDemands(inst: Instance, c: int, v: int)
    requires Normalise(inst).Ok?
    requires 0 <= c < inst.noCommodities
    ensures c in Normalise(inst).value.sources && c in Normalise(inst).value.targets
    ensures var net := Normalise(inst).value;
      && net.GetDemand(net.targets[c].id, c) == Ok(net.targets[c].demand)
      && net.GetDemand(net.sources[c].id, c) == Ok(-net.targets[c].demand)
      && (0 <= v < inst.noNodes ==> net.GetDemand(v, c) == Ok(0))
  {
    BalancedEndpoints(inst, c);
  }

  /** Construction keeps the input arcs under their ids and appends one
      zero-cost bridging arc per non-zero demand entry; `no_arcs` grows by the
      same number. */
  lemma ArcsAppended(inst: Instance)
    requires Normalise(inst).Ok?
    ensures var net := Normalise(inst).value;
      && |net.arcs| == |inst.arcs| + NonZero(Flatten(inst.demands))
      && net.arcs[..|inst.arcs|] == inst.arcs
      && net.noArcs - |net.arcs| == inst.noArcs - |inst.arcs|
      && forall k :: |inst.arcs| <= k < |net.arcs| ==> net.arcs[k].cost == Scalar(0) && net.arcs[k].capacity > 0
  {
    AddAllExtends(Start(inst), Flatten(inst.demands));
  }
}
