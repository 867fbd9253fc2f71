/** The imperative side of scripts/construct_mmcf_problem.py: `build_graph`
    and the `Network` object whose constructor updates its fields in place.
    Each step is proved to compute the value-level definition of module
    MmcfNetwork, so the properties proved there hold of the object. */
module MmcfConstruct {
  import opened Wrappers
  import opened MmcfNetwork

  /** `build_graph(arcs)`: fill the adjacency index arc by arc. */
  method BuildGraph(arcs: seq<Arc>) returns (graph: map<int, Adjacency>)
    ensures graph == GraphOf(arcs)
    ensures forall x :: x in graph <==> IsEndpoint(arcs, x)
    ensures forall u, v :: v in Out(graph, u) <==> HasArc(arcs, u, v)
    ensures forall u, v :: u in In(graph, v) <==> HasArc(arcs, u, v)
  {
    graph := map[];
    for i := 0 to |arcs|
      invariant graph == GraphOf(arcs[..i])
    {
      assert arcs[..i + 1][..i] == arcs[..i];
      var u, v := arcs[i].from, arcs[i].to;
      if u !in graph {
        graph := graph[u := Adjacency({}, {})];
      }
      graph := graph[u := graph[u].(outNodes := graph[u].outNodes + {v})];
      if v !in graph {
        graph := graph[v := Adjacency({}, {})];
      }
      graph := graph[v := graph[v].(inNodes := graph[v].inNodes + {u})];
    }
    assert arcs[..|arcs|] == arcs;
    forall x
      ensures x in graph <==> IsEndpoint(arcs, x)
    {
      GraphOfAdjacency(arcs, x, x);
    }
    forall u, v
      ensures (v in Out(graph, u) <==> HasArc(arcs, u, v)) && (u in In(graph, v) <==> HasArc(arcs, u, v))
    {
      GraphOfAdjacency(arcs, u, v);
    }
  }

  /** One more iteration of the inner valid-arc loop adds pair (i, j) if its cost resolves. */
  lemma ValidBeforeStep(arcs: seq<Arc>, n: int, i: int, j: int)
    requires 0 <= i < |arcs| && 0 <= j < n
    requires CostOf(arcs, i, j).Ok?
    ensures ValidBefore(arcs, n, i, j + 1)
      == ValidBefore(arcs, n, i, j)
         + (if CostOf(arcs, i, j).value.Some? then {ValidArc(i, arcs[i].from, arcs[i].to, j)} else {})
  {
  }

  /** Finishing the commodities of arc i is the same as starting arc i + 1. */
  lemma ValidBeforeNextArc(arcs: seq<Arc>, n: int, i: int, j: int)
    requires j >= n
    ensures ValidBefore(arcs, n, i, j) == ValidBefore(arcs, n, i + 1, 0)
    ensures LookupsOk(arcs, n, i, j) <==> LookupsOk(arcs, n, i + 1, 0)
  {
    assert forall id, c :: 0 <= c < n ==> (Before(id, c, i, j) <==> Before(id, c, i + 1, 0));
  }

  /** The network object of construct_mmcf_problem.py. `arcs[id]` is the arc
      numbered `id` (the source replaces its arc list by `list(enumerate(...))`). */
  class Network {
    var noNodes: int
    var noArcs: int
    var noCommodities: int
    var arcs: seq<Arc>
    var sources: map<int, Endpoint>
    var targets: map<int, Endpoint>
    var graph: map<int, Adjacency>
    var validArcs: set<ValidArc>

    function Data(): NetworkData
      reads this
    {
      NetworkData(noNodes, noArcs, noCommodities, arcs, sources, targets, graph, validArcs)
    }

    /** The fields the aggregation loop updates. */
    function Agg(): Aggregation
      reads this
    {
      Aggregation(noNodes, noArcs, arcs, sources, targets)
    }

    /** The counts read from `info`, the input arcs, and empty endpoint tables. */
    constructor (inst: Instance)
      ensures Agg() == Start(inst) && noCommodities == inst.noCommodities
      ensures graph == map[] && validArcs == {}
    {
      noNodes := inst.noNodes;
      noArcs := inst.noArcs;
      noCommodities := inst.noCommodities;
      arcs := inst.arcs;
      sources := map[];
      targets := map[];
      graph := map[];
      validArcs := {};
    }

    /** Make every commodity single-sourced and single-targeted: one bridging
        arc per non-zero demand entry, to a target or from a source vertex
        allocated on first use. */
    method MakeSingleSourced(demands: seq<VertexDemands>)
      modifies this
      ensures Agg() == AddAll(old(Agg()), Flatten(demands))
      ensures noCommodities == old(noCommodities) && graph == old(graph) && validArcs == old(validArcs)
    {
      ghost var start := Agg();
      for i := 0 to |demands|
        invariant Agg() == AddAll(start, Flatten(demands[..i]))
        invariant noCommodities == old(noCommodities) && graph == old(graph) && validArcs == old(validArcs)
      {
        FlattenAppend(demands, i);
        AddAllConcat(start, Flatten(demands[..i]), EntriesOf(demands[i]));
        AddVertex(demands[i]);
      }
      assert demands[..|demands|] == demands;
    }

    /** The inner loop of the aggregation, over the entries of one vertex. */
    method AddVertex(vd: VertexDemands)
      modifies this
      ensures Agg() == AddAll(old(Agg()), EntriesOf(vd))
      ensures noCommodities == old(noCommodities) && graph == old(graph) && validArcs == old(validArcs)
    {
      ghost var start := Agg();
      ghost var es := EntriesOf(vd);
      assert es[..0] == [];
      for j := 0 to |vd.entries|
        invariant Agg() == AddAll(start, es[..j])
        invariant noCommodities == old(noCommodities) && graph == old(graph) && validArcs == old(validArcs)
      {
        var (commodity, demand) := vd.entries[j];
        assert es[j] == Entry(vd.vertex, commodity, demand);
        assert es[..j + 1] == es[..j] + [es[j]];
        AddAllAppend(start, es[..j], es[j]);
        AddEntry(vd.vertex, commodity, demand);
      }
      assert es[..|vd.entries|] == es;
    }

    /** One iteration of the aggregation loop: a non-zero demand of
        `commodity` at `vertex` gets a bridging arc of capacity |demand| and
        cost 0 to the commodity's target (demand > 0) or from its source
        (demand < 0), the endpoint being allocated the next node id on first
        use and accumulating the demand. */
    method AddEntry(vertex: int, commodity: int, demand: int)
      modifies this
      ensures Agg() == AddDemand(old(Agg()), Entry(vertex, commodity, demand))
      ensures noCommodities == old(noCommodities) && graph == old(graph) && validArcs == old(validArcs)
    {
      if demand == 0 {
        return;
      }
      var newArc: Arc;
      if demand > 0 {
        AddDemandTarget(Agg(), Entry(vertex, commodity, demand));
        if commodity !in targets {
          targets := targets[commodity := Endpoint(noNodes, 0)];
          noNodes := noNodes + 1;
        }
        var nodeId := targets[commodity].id;
        newArc := Arc(vertex, nodeId, Abs(demand), Scalar(0));
        targets := targets[commodity := targets[commodity].(demand := targets[commodity].demand + demand)];
      } else {
        AddDemandSource(Agg(), Entry(vertex, commodity, demand));
        if commodity !in sources {
          sources := sources[commodity := Endpoint(noNodes, 0)];
          noNodes := noNodes + 1;
        }
        var nodeId := sources[commodity].id;
        newArc := Arc(nodeId, vertex, Abs(demand), Scalar(0));
        sources := sources[commodity := sources[commodity].(demand := sources[commodity].demand + demand)];
      }
      arcs := arcs + [newArc];
      noArcs := noArcs + 1;
    }

    /** Balance each commodity of `range(no_commodities)`: a KeyError (reported
        as `false`) if it lacks a source or a target. */
    method Balance() returns (ok: bool)
      modifies this
      ensures ok <==> BalanceFrom(old(sources), old(targets), 0, noCommodities).Ok?
      ensures ok ==> (sources, targets) == BalanceFrom(old(sources), old(targets), 0, noCommodities).value
      ensures noNodes == old(noNodes) && noArcs == old(noArcs) && noCommodities == old(noCommodities)
      ensures arcs == old(arcs) && graph == old(graph) && validArcs == old(validArcs)
    {
      var r := BalanceAll(sources, targets, noCommodities);
      if r.Err? {
        return false;
      }
      sources, targets := r.value.0, r.value.1;
      return true;
    }

    /** Build the adjacency index, then record the valid arcs; a KeyError
        from a cost lookup is reported as `false`. */
    method Index() returns (ok: bool)
      modifies this
      ensures graph == GraphOf(arcs)
      ensures ok <==> ValidArcs(arcs, noCommodities).Ok?
      ensures ok ==> validArcs == ValidArcs(arcs, noCommodities).value
      ensures noNodes == old(noNodes) && noArcs == old(noArcs) && noCommodities == old(noCommodities)
      ensures arcs == old(arcs) && sources == old(sources) && targets == old(targets)
    {
      graph := BuildGraph(arcs);
      var r := CollectValidArcs(arcs, noCommodities);
      if r.Err? {
        return false;
      }
      validArcs := r.value;
      return true;
    }
  }

  /** The balancing loop over `range(n)` on the two endpoint tables. */
  method BalanceAll(sources: map<int, Endpoint>, targets: map<int, Endpoint>, n: int)
    returns (r: Result<(map<int, Endpoint>, map<int, Endpoint>)>)
    ensures r == BalanceFrom(sources, targets, 0, n)
  {
    var src, tgt := sources, targets;
    var c := 0;
    while c < n
      invariant 0 <= c && (c <= n || c == 0)
      invariant BalanceFrom(src, tgt, c, n) == BalanceFrom(sources, targets, 0, n)
    {
      if c !in src || c !in tgt {
        return Err(KeyError);
      }
      var d := Min(Abs(src[c].demand), Abs(tgt[c].demand));
      BalanceFromStep(src, tgt, c, n);
      src := src[c := Endpoint(src[c].id, -d)];
      tgt := tgt[c := Endpoint(tgt[c].id, d)];
      c := c + 1;
    }
    return Ok((src, tgt));
  }

  /** Add `(id, u, v, c)` to the valid arcs for every arc and commodity whose
      cost resolves to a value; the first cost lookup that raises ends the
      scan with its KeyError. */
  method CollectValidArcs(arcs: seq<Arc>, n: int) returns (r: Result<set<ValidArc>>)
    ensures r == ValidArcs(arcs, n)
  {
    var valid: set<ValidArc> := {};
    var i := 0;
    while i < |arcs|
      invariant 0 <= i <= |arcs|
      invariant LookupsOk(arcs, n, i, 0)
      invariant valid == ValidBefore(arcs, n, i, 0)
    {
      var u, v := arcs[i].from, arcs[i].to;
      var c := 0;
      while c < n
        invariant 0 <= c && (c <= n || c == 0)
        invariant LookupsOk(arcs, n, i, c)
        invariant valid == ValidBefore(arcs, n, i, c)
      {
        var cost := CostOf(arcs, i, c);
        if cost.Err? {
          return Err(cost.error);
        }
        ValidBeforeStep(arcs, n, i, c);
        if cost.value.Some? {
          valid := valid + {ValidArc(i, u, v, c)};
        }
        c := c + 1;
      }
      ValidBeforeNextArc(arcs, n, i, c);
      i := i + 1;
    }
    return Ok(valid);
  }

  /** `Network(contents)`: the constructed object, or the KeyError its
      constructor raises. */
  method NewNetwork(inst: Instance) returns (r: Result<Network>)
    ensures r.Ok? <==> Normalise(inst).Ok?
    ensures r.Err? ==> r.error == KeyError
    ensures r.Ok? ==> fresh(r.value) && r.value.Data() == Normalise(inst).value
  {
    var net := new Network(inst);
    net.MakeSingleSourced(inst.demands);
    var balanced := net.Balance();
    if !balanced {
      return Err(KeyError);
    }
    var indexed := net.Index();
    if !indexed {
      return Err(KeyError);
    }
    return Ok(net);
  }
}
