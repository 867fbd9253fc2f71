/** `build_model_mmcf` of scripts/construct_mmcf_problem.py: the flow
    variables, the objective, one capacity row per arc and one conservation
    ("Kirchhoff") row per vertex and commodity. A flow variable is named by
    its valid arc `(id, u, v, c)`; pulp's expressions are the rows of module Lp. */
module MmcfModel {
  import opened Wrappers
  import opened Lp
  import opened MmcfNetwork

  /** `variables`: for each arc pair `(u, v)`, the keys `(id, c)` of its flow variables. */
  type Variables = map<(int, int), set<(int, int)>>

  datatype Model = Model(
    variables: Variables,
    objective: map<ValidArc, int>,
    caps: map<int, Row<ValidArc>>,
    kir: map<(int, int), Row<ValidArc>>)

  /** What a constructed `Network` guarantees: every commodity has both
      endpoints, the adjacency index is built from the arcs, and the valid
      arcs are those of the cost lookups. */
  ghost predicate Consistent(net: NetworkData) {
    && (forall c :: 0 <= c < net.noCommodities ==> c in net.sources && c in net.targets)
    && net.graph == GraphOf(net.arcs)
    && ValidArcs(net.arcs, net.noCommodities) == Ok(net.validArcs)
  }

  /** Every network the constructor returns is consistent. */
  lemma NormaliseConsistent(inst: Instance)
    requires Normalise(inst).Ok?
    ensures Consistent(Normalise(inst).value)
  {
    var g := Aggregate(inst);
    var b := BalanceFrom(g.sources, g.targets, 0, inst.noCommodities);
    BalanceFromMeaning(g.sources, g.targets, 0, inst.noCommodities);
    assert b.Ok?;
    assert Normalise(inst).value.sources == b.value.0 && Normalise(inst).value.targets == b.value.1;
  }

  // ---------------------------------------------------------------------------
  // variables (lines 151-155)

  /** The variables dictionary that the loop over `valid_arcs` fills. */
  ghost function VariablesOf(valid: set<ValidArc>): Variables {
    map p | p in Pairs(valid) :: (set va | va in valid && (va.from, va.to) == p :: (va.id, va.commodity))
  }

  /** The arc pairs `(u, v)` of a set of valid arcs. */
  ghost function Pairs(valid: set<ValidArc>): set<(int, int)> {
    set va | va in valid :: (va.from, va.to)
  }

  /** A pair has variables iff some valid arc joins it, and `(id, c)` is
      among them iff `(id, u, v, c)` is valid. */
  lemma VariablesMembership(valid: set<ValidArc>, u: int, v: int, id: int, c: int)
    ensures (u, v) in VariablesOf(valid) <==> exists va :: va in valid && va.from == u && va.to == v
    ensures (u, v) in VariablesOf(valid) && (id, c) in VariablesOf(valid)[(u, v)]
            <==> ValidArc(id, u, v, c) in valid
  {
    if ValidArc(id, u, v, c) in valid {
      assert (u, v) in Pairs(valid);
    }
    if exists va :: va in valid && va.from == u && va.to == v {
      var va :| va in valid && va.from == u && va.to == v;
      assert (u, v) in Pairs(valid);
    }
  }

  /** One more iteration of the variables loop: `setdefault` then insert. */
  lemma VariablesAdd(done: set<ValidArc>, va: ValidArc)
    ensures var vars, p := VariablesOf(done), (va.from, va.to);
      VariablesOf(done + {va}) == vars[p := (if p in vars then vars[p] else {}) + {(va.id, va.commodity)}]
  {
    var vars, p := VariablesOf(done), (va.from, va.to);
    var lhs := VariablesOf(done + {va});
    var rhs := vars[p := (if p in vars then vars[p] else {}) + {(va.id, va.commodity)}];
    forall q | q in lhs
      ensures q in rhs && lhs[q] == rhs[q]
    {
      forall x: (int, int) | x in lhs[q] ensures x in rhs[q] {
        VariablesMembership(done + {va}, q.0, q.1, x.0, x.1);
        VariablesMembership(done, q.0, q.1, x.0, x.1);
      }
      forall x: (int, int) | x in rhs[q] ensures x in lhs[q] {
        VariablesMembership(done + {va}, q.0, q.1, x.0, x.1);
        VariablesMembership(done, q.0, q.1, x.0, x.1);
      }
    }
    forall q | q in rhs
      ensures q in lhs
    {
      if q != p {
        var va' :| va' in done && (va'.from, va'.to) == q;
        VariablesMembership(done + {va}, q.0, q.1, va'.id, va'.commodity);
      } else {
        VariablesMembership(done + {va}, q.0, q.1, va.id, va.commodity);
      }
    }
  }

  // ---------------------------------------------------------------------------
  // Objective (lines 157-162)

  /** `network.costs[(id, commodity)]` of a valid arc. */
  function ArcCost(arcs: seq<Arc>, va: ValidArc): int {
    match CostOf(arcs, va.id, va.commodity)
    case Ok(Some(x)) => x
    case _ => 0
  }

  /** `lpSum(cost * flow for each valid arc if cost != 0)`. */
  function Objective(net: NetworkData): map<ValidArc, int> {
    map va | va in net.validArcs && ArcCost(net.arcs, va) != 0 :: ArcCost(net.arcs, va)
  }

  /** The objective has a term exactly for the valid arcs of non-zero cost,
      and its coefficient is the resolved cost. */
  lemma ObjectiveTerms(net: NetworkData, va: ValidArc)
    requires Consistent(net)
    ensures va in Objective(net) <==> va in net.validArcs && CostOf(net.arcs, va.id, va.commodity) != Ok(Some(0))
    ensures va in Objective(net) ==> CostOf(net.arcs, va.id, va.commodity) == Ok(Some(Objective(net)[va]))
  {
  }

  // ---------------------------------------------------------------------------
  // Edge capacities (lines 164-174)

  /** `CAP[id]`: the flows of the commodities valid on arc `id`, at most its capacity. */
  function CapRow(net: NetworkData, id: int): Row<ValidArc>
    requires 0 <= id < |net.arcs|
  {
    var a := net.arcs[id];
    Row(SumOf(set c | 0 <= c < net.noCommodities && ValidArc(id, a.from, a.to, c) in net.validArcs
                   :: ValidArc(id, a.from, a.to, c)),
        Le, a.capacity)
  }

  /** The capacity rows of arcs `0 .. k - 1`. */
  ghost function Caps(net: NetworkData, k: int): map<int, Row<ValidArc>>
    requires k <= |net.arcs|
  {
    map id | 0 <= id < k :: CapRow(net, id)
  }

  /** The capacity row of arc `id` sums, with coefficient 1, exactly the valid
      arcs numbered `id`. */
  lemma CapRowTerms(net: NetworkData, id: int, va: ValidArc)
    requires Consistent(net) && 0 <= id < |net.arcs|
    ensures va in CapRow(net, id).lhs <==> va in net.validArcs && va.id == id
    ensures va in CapRow(net, id).lhs ==> CapRow(net, id).lhs[va] == 1
    ensures CapRow(net, id).rel == Le && CapRow(net, id).rhs == net.arcs[id].capacity
  {
    if va in net.validArcs && va.id == id {
      assert va == ValidArc(id, net.arcs[id].from, net.arcs[id].to, va.commodity);
    }
  }

  // ---------------------------------------------------------------------------
  // Kirchhoff rows (lines 176-204)

  /** The flows of commodity `c` on the valid arcs entering `x`. */
  ghost function FlowIn(net: NetworkData, x: int, c: int): set<ValidArc> {
    set va | va in net.validArcs && va.to == x && va.commodity == c
  }

  /** The flows of commodity `c` on the valid arcs leaving `x`. */
  ghost function FlowOut(net: NetworkData, x: int, c: int): set<ValidArc> {
    set va | va in net.validArcs && va.from == x && va.commodity == c
  }

  /** `outgoing`: walk `graph[x]["out"]` and the variables of each pair; a pair
      without variables raises a KeyError. */
  function Outgoing(net: NetworkData, vars: Variables, x: int, c: int): Result<set<ValidArc>> {
    if exists v :: v in Out(net.graph, x) && (x, v) !in vars then Err(KeyError)
    else Ok(set v, p | v in Out(net.graph, x) && (x, v) in vars && p in vars[(x, v)] && p.1 == c
                       && ValidArc(p.0, x, v, c) in net.validArcs :: ValidArc(p.0, x, v, c))
  }

  /** `incomming`: walk `graph[x]["in"]` likewise. */
  function Incoming(net: NetworkData, vars: Variables, x: int, c: int): Result<set<ValidArc>> {
    if exists u :: u in In(net.graph, x) && (u, x) !in vars then Err(KeyError)
    else Ok(set u, p | u in In(net.graph, x) && (u, x) in vars && p in vars[(u, x)] && p.1 == c
                       && ValidArc(p.0, u, x, c) in net.validArcs :: ValidArc(p.0, u, x, c))
  }

  /** Some arc's pair has no variables, because no commodity is valid on any arc joining it. */
  ghost predicate MissingPair(arcs: seq<Arc>, vars: Variables) {
    exists id :: 0 <= id < |arcs| && (arcs[id].from, arcs[id].to) !in vars
  }

  /** On a consistent network the adjacency walks collect exactly the flows
      entering and leaving `x`, and fail only when some arc pair has no variables. */
  lemma WalksMatchFlows(net: NetworkData, x: int, c: int)
    requires Consistent(net)
    ensures var vars := VariablesOf(net.validArcs);
      && (Outgoing(net, vars, x, c).Err? ==> MissingPair(net.arcs, vars))
      && (Incoming(net, vars, x, c).Err? ==> MissingPair(net.arcs, vars))
      && (Outgoing(net, vars, x, c).Ok? ==> Outgoing(net, vars, x, c).value == FlowOut(net, x, c))
      && (Incoming(net, vars, x, c).Ok? ==> Incoming(net, vars, x, c).value == FlowIn(net, x, c))
  {
    var vars := VariablesOf(net.validArcs);
    if Outgoing(net, vars, x, c).Err? {
      var v :| v in Out(net.graph, x) && (x, v) !in vars;
      GraphOfAdjacency(net.arcs, x, v);
    } else {
      forall va | va in FlowOut(net, x, c)
        ensures va in Outgoing(net, vars, x, c).value
      {
        GraphOfAdjacency(net.arcs, x, va.to);
        VariablesMembership(net.validArcs, x, va.to, va.id, c);
        assert HasArc(net.arcs, x, va.to);
      }
    }
    if Incoming(net, vars, x, c).Err? {
      var u :| u in In(net.graph, x) && (u, x) !in vars;
      GraphOfAdjacency(net.arcs, u, x);
    } else {
      forall va | va in FlowIn(net, x, c)
        ensures va in Incoming(net, vars, x, c).value
      {
        GraphOfAdjacency(net.arcs, va.from, x);
        VariablesMembership(net.validArcs, va.from, x, va.id, c);
        assert HasArc(net.arcs, va.from, x);
      }
    }
  }

  /** A missing pair makes the walk out of its tail fail. */
  lemma MissingPairFails(net: NetworkData, id: int, c: int)
    requires Consistent(net) && 0 <= id < |net.arcs|
    requires (net.arcs[id].from, net.arcs[id].to) !in VariablesOf(net.validArcs)
    ensures net.arcs[id].from in net.graph
    ensures Outgoing(net, VariablesOf(net.validArcs), net.arcs[id].from, c).Err?
  {
    var u, v := net.arcs[id].from, net.arcs[id].to;
    GraphOfAdjacency(net.arcs, u, v);
    assert HasArc(net.arcs, u, v);
    assert IsEndpoint(net.arcs, u);
  }

  /** `get_demand(x, c)` on a consistent network, where it cannot raise. */
  function Demand(net: NetworkData, x: int, c: int): int {
    match net.GetDemand(x, c)
    case Ok(d) => d
    case Err(_) => 0
  }

  /** The `continue`s: a source or target vertex whose demand is 0 gets no row. */
  predicate Skipped(net: NetworkData, x: int, c: int) {
    && c in net.sources && c in net.targets
    && (x == net.sources[c].id || x == net.targets[c].id)
    && Demand(net, x, c) == 0
  }

  /** `KIR_x_c`: `incomming - outgoing == get_demand(x, c)`. */
  ghost function KirRow(net: NetworkData, x: int, c: int): Row<ValidArc> {
    Row(Difference(FlowIn(net, x, c), FlowOut(net, x, c)), Eq, Demand(net, x, c))
  }

  /** The rows of the vertices in `xs`, and of vertex `y` for the commodities below `k`. */
  ghost function KirOf(net: NetworkData, xs: set<int>, y: int, k: int): map<(int, int), Row<ValidArc>> {
    Keyed(xs, y, k, 0, net.noCommodities, (x, c) => !Skipped(net, x, c), (x, c) => KirRow(net, x, c))
  }

  /** One more commodity of vertex `x`: its row is added unless skipped. */
  lemma KirOfStep(net: NetworkData, done: set<int>, x: int, c: int)
    requires x !in done && 0 <= c < net.noCommodities
    ensures KirOf(net, done, x, c + 1)
            == if Skipped(net, x, c) then KirOf(net, done, x, c)
               else KirOf(net, done, x, c)[(x, c) := KirRow(net, x, c)]
  {
    KeyedStep(done, x, c, 0, net.noCommodities, (x, c) => !Skipped(net, x, c), (x, c) => KirRow(net, x, c),
              !Skipped(net, x, c), KirRow(net, x, c));
  }

  /** `KirOfStep` for the values the loop of `VertexRows` computes. */
  lemma KirOfNext(net: NetworkData, done: set<int>, x: int, c: int, rows: map<(int, int), Row<ValidArc>>,
                  row: Row<ValidArc>, skip: bool)
    requires x !in done && 0 <= c < net.noCommodities && rows == KirOf(net, done, x, c)
    requires skip == Skipped(net, x, c) && row == KirRow(net, x, c)
    ensures KirOf(net, done, x, c + 1) == if skip then rows else rows[(x, c) := row]
  {
    KirOfStep(net, done, x, c);
  }

  /** With no commodity of the extra vertex yet, the extra vertex does not matter. */
  lemma KirOfSwitch(net: NetworkData, done: set<int>, y: int, z: int)
    ensures KirOf(net, done, y, 0) == KirOf(net, done, z, 0)
  {
    KeyedSwitch(done, y, z, 0, 0, 0, net.noCommodities, (x, c) => !Skipped(net, x, c), (x, c) => KirRow(net, x, c));
  }

  /** Once every commodity of `x` is visited, `x` counts as done. */
  lemma KirOfFinish(net: NetworkData, done: set<int>, x: int, c: int)
    requires c >= net.noCommodities
    ensures KirOf(net, done, x, c) == KirOf(net, done + {x}, x, 0)
  {
    KeyedFinish(done, x, c, 0, 0, net.noCommodities, (x, c) => !Skipped(net, x, c), (x, c) => KirRow(net, x, c));
  }

  /** The row of `(x, c)` is present iff x is a vertex of the graph, c is a
      commodity, and x is not a source or target of c with demand 0. Its
      left-hand side gives +1 to each flow entering x, -1 to each flow leaving
      it (0 to a loop), and its right-hand side is the demand of x. */
  lemma KirRowTerms(net: NetworkData, x: int, c: int, va: ValidArc)
    ensures (x, c) in KirOf(net, net.graph.Keys, 0, 0)
            <==> x in net.graph && 0 <= c < net.noCommodities && !Skipped(net, x, c)
    ensures var row := KirRow(net, x, c);
      && row.rel == Eq && row.rhs == Demand(net, x, c)
      && (va in row.lhs <==> va in net.validArcs && va.commodity == c && (va.to == x || va.from == x))
      && (va in row.lhs ==> row.lhs[va] == (if va.to == x then 1 else 0) - (if va.from == x then 1 else 0))
  {
  }

  // ---------------------------------------------------------------------------
  // build_model_mmcf

  /** The model `build_model_mmcf` returns, or the exception it raises: an
      AssertionError for a negative capacity (checked first, arc by arc), else
      a KeyError when there is a commodity and some arc pair has no variables. */
  ghost function ModelOf(net: NetworkData): Result<Model> {
    var vars := VariablesOf(net.validArcs);
    if exists id :: 0 <= id < |net.arcs| && net.arcs[id].capacity < 0 then Err(AssertionError)
    else if net.noCommodities > 0 && MissingPair(net.arcs, vars) then Err(KeyError)
    else Ok(Model(vars, Objective(net), Caps(net, |net.arcs|), KirOf(net, net.graph.Keys, 0, 0)))
  }

  /** The model fails exactly when an arc has a
      negative capacity, or there is a commodity and some arc has no valid
      commodity on any arc between the same two vertices. */
  lemma ModelErrors(net: NetworkData)
    ensures ModelOf(net).Err? <==>
      || (exists id :: 0 <= id < |net.arcs| && net.arcs[id].capacity < 0)
      || (net.noCommodities > 0 && exists id :: 0 <= id < |net.arcs| && !PairUsable(net, id))
  {
    var vars := VariablesOf(net.validArcs);
    forall id | 0 <= id < |net.arcs|
      ensures (net.arcs[id].from, net.arcs[id].to) in vars <==> PairUsable(net, id)
    {
      var a := net.arcs[id];
      VariablesMembership(net.validArcs, a.from, a.to, 0, 0);
    }
    assert MissingPair(net.arcs, vars) <==> exists id :: 0 <= id < |net.arcs| && !PairUsable(net, id);
    ModelOfFails(net);
  }

  /** The two exceptions of `ModelOf`, without the model it builds otherwise. */
  lemma ModelOfFails(net: NetworkData)
    ensures ModelOf(net).Err? <==>
      || (exists id :: 0 <= id < |net.arcs| && net.arcs[id].capacity < 0)
      || (net.noCommodities > 0 && MissingPair(net.arcs, VariablesOf(net.validArcs)))
  {
  }

  /** Some commodity is valid on some arc between the endpoints of arc `id`. */
  ghost predicate PairUsable(net: NetworkData, id: int)
    requires 0 <= id < |net.arcs|
  {
    exists va :: va in net.validArcs && va.from == net.arcs[id].from && va.to == net.arcs[id].to
  }

  /** A built model has one capacity row per arc, each with a non-negative
      right-hand side. */
  lemma ModelCaps(net: NetworkData, id: int)
    requires Consistent(net) && ModelOf(net).Ok?
    ensures id in ModelOf(net).value.caps <==> 0 <= id < |net.arcs|
    ensures id in ModelOf(net).value.caps ==>
      ModelOf(net).value.caps[id] == CapRow(net, id) && CapRow(net, id).rhs >= 0
  {
  }

  /** The variables loop. */
  method CollectVariables(valid: set<ValidArc>) returns (vars: Variables)
    ensures vars == VariablesOf(valid)
  {
    vars := map[];
    var rest := valid;
    assert valid - rest == {};
    while rest != {}
      invariant rest <= valid
      invariant vars == VariablesOf(valid - rest)
      decreases rest
    {
      var va :| va in rest;
      var p := (va.from, va.to);
      VariablesAdd(valid - rest, va);
      assert (valid - rest) + {va} == valid - (rest - {va});
      vars := vars[p := (if p in vars then vars[p] else {}) + {(va.id, va.commodity)}];
      rest := rest - {va};
    }
    assert valid - rest == valid;
  }

  /** The capacity loop: assert each capacity, then add its row. */
  method CapacityRows(net: NetworkData) returns (r: Result<map<int, Row<ValidArc>>>)
    ensures r.Err? <==> exists id :: 0 <= id < |net.arcs| && net.arcs[id].capacity < 0
    ensures r.Err? ==> r.error == AssertionError
    ensures r.Ok? ==> r.value == Caps(net, |net.arcs|)
  {
    var caps := map[];
    for id := 0 to |net.arcs|
      invariant caps == Caps(net, id)
      invariant forall k :: 0 <= k < id ==> net.arcs[k].capacity >= 0
    {
      if net.arcs[id].capacity < 0 {
        return Err(AssertionError);
      }
      caps := caps[id := CapRow(net, id)];
    }
    return Ok(caps);
  }

  /** The Kirchhoff rows of one vertex, commodity by commodity. */
  method VertexRows(net: NetworkData, vars: Variables, kir: map<(int, int), Row<ValidArc>>,
                    done: set<int>, x: int)
    returns (r: Result<map<(int, int), Row<ValidArc>>>)
    requires Consistent(net) && vars == VariablesOf(net.validArcs)
    requires x !in done && kir == KirOf(net, done, x, 0)
    ensures r.Err? ==> r.error == KeyError && net.noCommodities > 0 && MissingPair(net.arcs, vars)
    ensures r.Ok? ==> r.value == KirOf(net, done + {x}, x, 0)
    ensures r.Ok? && net.noCommodities > 0 ==> Outgoing(net, vars, x, 0).Ok?
  {
    var rows := kir;
    var c := 0;
    while c < net.noCommodities
      invariant 0 <= c && (c <= net.noCommodities || c == 0)
      invariant rows == KirOf(net, done, x, c)
      invariant c > 0 ==> Outgoing(net, vars, x, 0).Ok?
    {
      var next := AddKirRow(net, vars, rows, done, x, c);
      if next.Err? {
        return Err(KeyError);
      }
      rows := next.value;
      c := c + 1;
    }
    KirOfFinish(net, done, x, c);
    return Ok(rows);
  }

  /** One pass of the commodity loop: the walks out of and into `x`, then
      the row of `(x, c)` unless it is skipped. */
  method AddKirRow(net: NetworkData, vars: Variables, rows: map<(int, int), Row<ValidArc>>,
                   done: set<int>, x: int, c: int)
    returns (r: Result<map<(int, int), Row<ValidArc>>>)
    requires Consistent(net) && vars == VariablesOf(net.validArcs)
    requires x !in done && 0 <= c < net.noCommodities && rows == KirOf(net, done, x, c)
    ensures r.Err? ==> r.error == KeyError && MissingPair(net.arcs, vars)
    ensures r.Ok? ==> r.value == KirOf(net, done, x, c + 1) && Outgoing(net, vars, x, 0).Ok?
  {
    var outgoing := Outgoing(net, vars, x, c);
    var incoming := Incoming(net, vars, x, c);
    WalksMatchFlows(net, x, c);
    if outgoing.Err? || incoming.Err? {
      return Err(KeyError);
    }
    var demand := net.GetDemand(x, c).value;
    var skip := (x == net.sources[c].id || x == net.targets[c].id) && demand == 0;
    var row := Row(Difference(incoming.value, outgoing.value), Eq, demand);
    KirOfNext(net, done, x, c, rows, row, skip);
    if skip {
      return Ok(rows);
    }
    return Ok(rows[(x, c) := row]);
  }

  /** The walk out of every vertex in `xs` found all its pairs. */
  ghost predicate WalkedOut(net: NetworkData, vars: Variables, xs: set<int>) {
    forall y :: y in xs ==> Outgoing(net, vars, y, 0).Ok?
  }

  /** The Kirchhoff loop over the vertices of the graph. */
  method KirchhoffRows(net: NetworkData, vars: Variables) returns (r: Result<map<(int, int), Row<ValidArc>>>)
    requires Consistent(net) && vars == VariablesOf(net.validArcs)
    ensures r.Err? <==> net.noCommodities > 0 && MissingPair(net.arcs, vars)
    ensures r.Err? ==> r.error == KeyError
    ensures r.Ok? ==> r.value == KirOf(net, net.graph.Keys, 0, 0)
  {
    var kir := map[];
    var rest := net.graph.Keys;
    while rest != {}
      invariant rest <= net.graph.Keys
      invariant kir == KirOf(net, net.graph.Keys - rest, 0, 0)
      invariant net.noCommodities > 0 ==> WalkedOut(net, vars, net.graph.Keys - rest)
      decreases rest
    {
      var x := PickFrom(rest);
      var done := net.graph.Keys - rest;
      KirOfSwitch(net, done, 0, x);
      var rows := VertexRows(net, vars, kir, done, x);
      if rows.Err? {
        return Err(KeyError);
      }
      KirOfSwitch(net, done + {x}, x, 0);
      assert done + {x} == net.graph.Keys - (rest - {x});
      kir := rows.value;
      rest := rest - {x};
    }
    assert net.graph.Keys - rest == net.graph.Keys;
    if net.noCommodities > 0 {
      WalkedOutComplete(net, vars);
    }
    return Ok(kir);
  }

  /** Once the walk out of every vertex has succeeded, no pair is missing. */
  lemma WalkedOutComplete(net: NetworkData, vars: Variables)
    requires Consistent(net) && vars == VariablesOf(net.validArcs)
    requires WalkedOut(net, vars, net.graph.Keys)
    ensures !MissingPair(net.arcs, vars)
  {
    if MissingPair(net.arcs, vars) {
      var id :| 0 <= id < |net.arcs| && (net.arcs[id].from, net.arcs[id].to) !in vars;
      MissingPairFails(net, id, 0);
    }
  }

  /** `build_model_mmcf(network)`: the variables, the objective, the capacity
      rows and the Kirchhoff rows, or the exception raised on the way. */
  method BuildModelMmcf(net: NetworkData) returns (r: Result<Model>)
    requires Consistent(net)
    ensures r == ModelOf(net)
  {
    var vars := CollectVariables(net.validArcs);
    var objective := Objective(net);
    var caps := CapacityRows(net);
    if caps.Err? {
      return Err(caps.error);
    }
    var kir := KirchhoffRows(net, vars);
    if kir.Err? {
      return Err(KeyError);
    }
    return Ok(Model(vars, objective, caps.value, kir.value));
  }
}
