/** `build_model_network` of scripts/construct_mmcf_problem.py: the
    normalised network as lines of whitespace-separated integers joined with
    newlines (the node count and one `i 0 0` line per node, the arc count and
    one `i from to capacity cost` line per arc, the commodity count and one
    `c source target demand` line per commodity), with a reader proved to
    recover every number from the text. */
module MmcfText {
  import opened Wrappers
  import opened Strings
  import opened Decimal
  import opened MmcfNetwork

  /** Every commodity in `range(no_commodities)` has a source and a target. */
  predicate HasEnds(net: NetworkData) {
    forall c :: 0 <= c < net.noCommodities ==> c in net.sources && c in net.targets
  }

  /** The length of `range(k)`. */
  function Count(k: int): nat {
    if k < 0 then 0 else k
  }

  /** `f"{cost}"` of a cost that is not a table: `None` or the number. */
  function CostText(cost: Cost): string
    requires !cost.PerCommodity?
  {
    if cost.NullCost? then "None" else IntToString(cost.amount)
  }

  /** `f"{i} 0 0"` */
  function NodeLine(i: int): string {
    JoinWith([IntToString(i), "0", "0"], " ")
  }

  /** `f"{i} {src} {dest} {capacity} {cost}"` */
  function ArcLine(i: int, a: Arc): string
    requires !a.cost.PerCommodity?
  {
    JoinWith([IntToString(i), IntToString(a.from), IntToString(a.to), IntToString(a.capacity), CostText(a.cost)], " ")
  }

  /** `f"{commodity} {src} {dest} {amount}"` */
  function CommodityLine(net: NetworkData, c: int): string
    requires c in net.sources && c in net.targets
  {
    JoinWith([IntToString(c), IntToString(net.sources[c].id), IntToString(net.targets[c].id),
              IntToString(net.targets[c].demand)], " ")
  }

  /** The node lines of `range(k)`. */
  function NodeLines(k: nat): (r: seq<string>)
    ensures |r| == k && forall i :: 0 <= i < k ==> r[i] == NodeLine(i)
  {
    if k == 0 then [] else NodeLines(k - 1) + [NodeLine(k - 1)]
  }

  /** The lines of the first `k` arcs. */
  function ArcLines(arcs: seq<Arc>, k: nat): (r: seq<string>)
    requires k <= |arcs| && Unified(arcs, k)
    ensures |r| == k && forall i :: 0 <= i < k ==> r[i] == ArcLine(i, arcs[i])
  {
    if k == 0 then [] else ArcLines(arcs, k - 1) + [ArcLine(k - 1, arcs[k - 1])]
  }

  /** The lines of the first `k` commodities. */
  function CommodityLines(net: NetworkData, k: nat): (r: seq<string>)
    requires forall c :: 0 <= c < k ==> c in net.sources && c in net.targets
    ensures |r| == k && forall c :: 0 <= c < k ==> r[c] == CommodityLine(net, c)
  {
    if k == 0 then [] else CommodityLines(net, k - 1) + [CommodityLine(net, k - 1)]
  }

  /** None of the first `k` arcs carries a per-commodity cost table. */
  predicate Unified(arcs: seq<Arc>, k: nat)
    requires k <= |arcs|
  {
    forall j :: 0 <= j < k ==> !arcs[j].cost.PerCommodity?
  }

  lemma UnifiedStep(arcs: seq<Arc>, i: nat)
    requires i < |arcs| && Unified(arcs, i) && !arcs[i].cost.PerCommodity?
    ensures Unified(arcs, i + 1)
  {
  }

  /** Some arc still carries a per-commodity cost table ("Not unified costs"). */
  predicate HasTable(arcs: seq<Arc>) {
    exists i :: 0 <= i < |arcs| && arcs[i].cost.PerCommodity?
  }

  /** The `lines` list, or the abort (`sys.exit(1)`) on a cost table. */
  function NetworkLines(net: NetworkData): Result<seq<string>>
    requires HasEnds(net)
  {
    if HasTable(net.arcs) then Err(ExitFailure)
    else Ok([IntToString(net.noNodes)] + NodeLines(Count(net.noNodes))
            + [IntToString(net.noArcs)] + ArcLines(net.arcs, |net.arcs|)
            + [IntToString(net.noCommodities)] + CommodityLines(net, Count(net.noCommodities)))
  }

  /** `'\n'.join(lines)`, or the abort. */
  function NetworkText(net: NetworkData): Result<string>
    requires HasEnds(net)
  {
    match NetworkLines(net)
    case Err(e) => Err(e)
    case Ok(lines) => Ok(JoinWith(lines, "\n"))
  }

  /** `build_model_network(network)` with each arc read as its record (the
      evidently intended loop; see `BuildModelNetworkAsWritten`). */
  method BuildModelNetwork(net: NetworkData) returns (r: Result<string>)
    requires HasEnds(net)
    ensures r == NetworkText(net)
  {
    var lines := [IntToString(net.noNodes)];
    for i := 0 to Count(net.noNodes)
      invariant lines == [IntToString(net.noNodes)] + NodeLines(i)
    {
      assert NodeLines(i + 1) == NodeLines(i) + [NodeLine(i)];
      lines := lines + [NodeLine(i)];
    }
    var arcLines := ArcSection(net.arcs);
    if arcLines.Err? {
      return Err(ExitFailure);
    }
    lines := lines + [IntToString(net.noArcs)] + arcLines.value;
    var header := lines + [IntToString(net.noCommodities)];
    lines := header;
    for c := 0 to Count(net.noCommodities)
      invariant lines == header + CommodityLines(net, c)
    {
      assert CommodityLines(net, c + 1) == CommodityLines(net, c) + [CommodityLine(net, c)];
      lines := lines + [CommodityLine(net, c)];
    }
    return Ok(JoinWith(lines, "\n"));
  }

  /** The arc loop: a line per arc, or the abort at the first cost table. */
  method ArcSection(arcs: seq<Arc>) returns (r: Result<seq<string>>)
    ensures r.Err? <==> HasTable(arcs)
    ensures r.Err? ==> r.error == ExitFailure
    ensures r.Ok? ==> r.value == ArcLines(arcs, |arcs|)
  {
    var lines := [];
    for i := 0 to |arcs|
      invariant Unified(arcs, i)
      invariant lines == ArcLines(arcs, i)
    {
      var arc := arcs[i];
      if arc.cost.PerCommodity? {
        return Err(ExitFailure);
      }
      UnifiedStep(arcs, i);
      lines := lines + [ArcLine(i, arc)];
    }
    return Ok(lines);
  }

  // ---------------------------------------------------------------------------
  // As written: `for i, arc in enumerate(network.arcs)` after `network.arcs`
  // became `list(enumerate(...))`, so `arc` is an `(id, record)` pair and
  // `arc["from"]` raises a TypeError on the first arc.

  /** The result of the function as written: the TypeError on the first arc
      if there is one, otherwise the same text. */
  function NetworkTextAsWritten(net: NetworkData): Result<string>
    requires HasEnds(net)
  {
    if |net.arcs| > 0 then Err(TypeError) else NetworkText(net)
  }

  /** `build_model_network(network)` exactly as written. */
  method BuildModelNetworkAsWritten(net: NetworkData) returns (r: Result<string>)
    requires HasEnds(net)
    ensures r == NetworkTextAsWritten(net)
  {
    if |net.arcs| > 0 {
      return Err(TypeError);
    }
    r := BuildModelNetwork(net);
  }

  /** A non-zero demand entry makes the count of bridging arcs positive. */
  lemma {:induction false} NonZeroPositive(es: seq<Entry>, k: int)
    requires 0 <= k < |es| && es[k].demand != 0
    ensures NonZero(es) > 0
    decreases |es|
  {
    if k < |es| - 1 {
      NonZeroPositive(es[..|es| - 1], k);
    }
  }

  /** The discrepancy: every network the constructor builds for at least one
      commodity has a bridging arc, so the function as written fails on it,
      while the intended one produces the text. */
  lemma AsWrittenFailsOnNormalised(inst: Instance)
    requires Normalise(inst).Ok? && inst.noCommodities > 0
    ensures HasEnds(Normalise(inst).value)
    ensures NetworkTextAsWritten(Normalise(inst).value) == Err(TypeError)
    ensures !HasTable(inst.arcs) ==> NetworkText(Normalise(inst).value).Ok?
  {
    var net := Normalise(inst).value;
    var es := Flatten(inst.demands);
    NormaliseSucceeds(inst);
    assert HasSource(es, 0);
    var k :| 0 <= k < |es| && es[k].commodity == 0 && es[k].demand < 0;
    NonZeroPositive(es, k);
    ArcsAppended(inst);
    forall c | 0 <= c < net.noCommodities
      ensures c in net.sources && c in net.targets
    {
      BalancedEndpoints(inst, c);
    }
    if !HasTable(inst.arcs) {
      forall i | 0 <= i < |net.arcs|
        ensures !net.arcs[i].cost.PerCommodity?
      {
        if i < |inst.arcs| {
          assert net.arcs[i] == net.arcs[..|inst.arcs|][i];
        }
      }
    }
  }

  // ---------------------------------------------------------------------------
  // Reading the text back

  /** The numbers of a line of integers. */
  function ReadInts(line: string): Option<seq<int>> {
    ParseAll(Words(line))
  }

  /** `int(w)` of every word, or `None` if one is not a number. */
  function ParseAll(ws: seq<string>): (r: Option<seq<int>>)
    ensures r.Some? ==> |r.value| == |ws|
  {
    if ws == [] then Some([])
    else match (ParseInt(ws[0]), ParseAll(ws[1..]))
      case (Some(x), Some(xs)) => Some([x] + xs)
      case _ => None
  }

  /** An arc line: four integers and a cost that is `None` or an integer. */
  function ReadArc(line: string): Option<(seq<int>, Option<int>)> {
    var ws := Words(line);
    if |ws| != 5 then None
    else match ParseAll(ws[..4])
      case None => None
      case Some(xs) =>
        if ws[4] == "None" then Some((xs, None))
        else match ParseInt(ws[4])
          case None => None
          case Some(x) => Some((xs, Some(x)))
  }

  /** The cost an arc line records. */
  function CostValue(cost: Cost): Option<int>
    requires !cost.PerCommodity?
  {
    if cost.NullCost? then None else Some(cost.amount)
  }

  lemma IntNoSpace(i: int)
    ensures |IntToString(i)| > 0 && NoSpace(IntToString(i)) && '\n' !in IntToString(i)
  {
  }

  /** The words of a rendered line of integers parse back to the integers. */
  lemma {:induction false} ParseAllRendered(xs: seq<int>)
    ensures ParseAll(Rendered(xs)) == Some(xs)
    decreases |xs|
  {
    var ws := Rendered(xs);
    if xs == [] {
      assert ws == [];
    } else {
      assert ws[1..] == Rendered(xs[1..]);
      ParseAllRendered(xs[1..]);
      ParseIntToString(xs[0]);
      ParseAllCons(ws, xs[0], xs[1..]);
      assert [xs[0]] + xs[1..] == xs;
    }
  }

  /** One unfolding of `ParseAll`: a parsed head before a parsed tail. */
  lemma ParseAllCons(ws: seq<string>, x: int, rest: seq<int>)
    requires ws != [] && ParseInt(ws[0]) == Some(x) && ParseAll(ws[1..]) == Some(rest)
    ensures ParseAll(ws) == Some([x] + rest)
  {
  }

  /** `str` of each integer. */
  function Rendered(xs: seq<int>): (ws: seq<string>)
    ensures |ws| == |xs| && forall k :: 0 <= k < |xs| ==> ws[k] == IntToString(xs[k])
  {
    seq(|xs|, k requires 0 <= k < |xs| => IntToString(xs[k]))
  }

  /** A line of rendered integers reads back as those integers and holds no newline. */
  lemma IntsRoundTrip(xs: seq<int>)
    requires |xs| > 0
    ensures ReadInts(JoinWith(Rendered(xs), " ")) == Some(xs)
    ensures '\n' !in JoinWith(Rendered(xs), " ")
  {
    var ws := Rendered(xs);
    forall k | 0 <= k < |ws|
      ensures |ws[k]| > 0 && NoSpace(ws[k]) && '\n' !in ws[k]
    {
      IntNoSpace(xs[k]);
    }
    WordsOfJoin(ws);
    ParseAllRendered(xs);
    JoinWithout(ws, " ", '\n');
  }

  /** An arc line reads back as its id, endpoints, capacity and cost, and holds no newline. */
  lemma ArcLineRoundTrip(i: int, a: Arc)
    requires !a.cost.PerCommodity?
    ensures ReadArc(ArcLine(i, a)) == Some(([i, a.from, a.to, a.capacity], CostValue(a.cost)))
    ensures '\n' !in ArcLine(i, a)
  {
    var xs := [i, a.from, a.to, a.capacity];
    var ws := Rendered(xs) + [CostText(a.cost)];
    assert ws == [IntToString(i), IntToString(a.from), IntToString(a.to), IntToString(a.capacity), CostText(a.cost)];
    IntNoSpace(i);
    IntNoSpace(a.from);
    IntNoSpace(a.to);
    IntNoSpace(a.capacity);
    if a.cost.Scalar? {
      IntNoSpace(a.cost.amount);
      ParseIntToString(a.cost.amount);
      assert IntToString(a.cost.amount) != "None" by {
        assert IsDigit(IntToString(a.cost.amount)[0]) || IntToString(a.cost.amount)[0] == '-';
      }
    }
    WordsOfJoin(ws);
    assert ws[..4] == Rendered(xs);
    ParseAllRendered(xs);
    JoinWithout(ws, " ", '\n');
  }

  /** `lines` as the concatenation of its three sections. */
  lemma LinesSplit(net: NetworkData)
    requires HasEnds(net) && NetworkLines(net).Ok?
    ensures var n, m, k := Count(net.noNodes), |net.arcs|, Count(net.noCommodities);
      && !HasTable(net.arcs)
      && NetworkLines(net).value
         == ([IntToString(net.noNodes)] + NodeLines(n))
            + ([IntToString(net.noArcs)] + ArcLines(net.arcs, m))
            + ([IntToString(net.noCommodities)] + CommodityLines(net, k))
  {
  }

  /** Every line of the text is free of newlines. */
  lemma LinesWithoutNewline(net: NetworkData)
    requires HasEnds(net) && NetworkLines(net).Ok?
    ensures forall j :: 0 <= j < |NetworkLines(net).value| ==> "\n"[0] !in NetworkLines(net).value[j]
  {
    var n, m, k := Count(net.noNodes), |net.arcs|, Count(net.noCommodities);
    LinesSplit(net);
    CountLineClean(net.noNodes);
    CountLineClean(net.noArcs);
    CountLineClean(net.noCommodities);
    NodeLinesClean(n);
    ArcLinesClean(net.arcs);
    CommodityLinesClean(net, k);
    CleanConcat([IntToString(net.noNodes)], NodeLines(n));
    CleanConcat([IntToString(net.noArcs)], ArcLines(net.arcs, m));
    CleanConcat([IntToString(net.noCommodities)], CommodityLines(net, k));
    CleanConcat([IntToString(net.noNodes)] + NodeLines(n), [IntToString(net.noArcs)] + ArcLines(net.arcs, m));
    CleanConcat(([IntToString(net.noNodes)] + NodeLines(n)) + ([IntToString(net.noArcs)] + ArcLines(net.arcs, m)),
                [IntToString(net.noCommodities)] + CommodityLines(net, k));
  }

  /** No line holds a newline. */
  predicate Clean(lines: seq<string>) {
    forall j :: 0 <= j < |lines| ==> '\n' !in lines[j]
  }

  lemma CleanConcat(a: seq<string>, b: seq<string>)
    requires Clean(a) && Clean(b)
    ensures Clean(a + b)
  {
    forall j | 0 <= j < |a + b|
      ensures '\n' !in (a + b)[j]
    {
      if j < |a| {
        assert (a + b)[j] == a[j];
      } else {
        assert (a + b)[j] == b[j - |a|];
      }
    }
  }

  lemma CountLineClean(x: int)
    ensures Clean([IntToString(x)])
  {
    IntNoSpace(x);
  }

  lemma NodeLinesClean(n: nat)
    ensures Clean(NodeLines(n))
  {
    forall i | 0 <= i < n
      ensures '\n' !in NodeLines(n)[i]
    {
      NodeLineRoundTrip(i);
    }
  }

  lemma ArcLinesClean(arcs: seq<Arc>)
    requires Unified(arcs, |arcs|)
    ensures Clean(ArcLines(arcs, |arcs|))
  {
    forall i | 0 <= i < |arcs|
      ensures '\n' !in ArcLines(arcs, |arcs|)[i]
    {
      ArcLineRoundTrip(i, arcs[i]);
    }
  }

  lemma CommodityLinesClean(net: NetworkData, k: nat)
    requires forall c :: 0 <= c < k ==> c in net.sources && c in net.targets
    ensures Clean(CommodityLines(net, k))
  {
    forall c | 0 <= c < k
      ensures '\n' !in CommodityLines(net, k)[c]
    {
      CommodityLineRoundTrip(net, c);
    }
  }

  /** A commodity line reads back as the commodity, its source, its target and its demand. */
  lemma CommodityLineRoundTrip(net: NetworkData, c: int)
    requires c in net.sources && c in net.targets
    ensures ReadInts(CommodityLine(net, c)) == Some([c, net.sources[c].id, net.targets[c].id, net.targets[c].demand])
    ensures '\n' !in CommodityLine(net, c)
  {
    var xs := [c, net.sources[c].id, net.targets[c].id, net.targets[c].demand];
    assert Rendered(xs) == [IntToString(c), IntToString(net.sources[c].id), IntToString(net.targets[c].id),
                            IntToString(net.targets[c].demand)];
    IntsRoundTrip(xs);
  }

  /** A node line reads back as `[i, 0, 0]`. */
  lemma NodeLineRoundTrip(i: int)
    ensures ReadInts(NodeLine(i)) == Some([i, 0, 0])
    ensures '\n' !in NodeLine(i)
  {
    assert Rendered([i, 0, 0]) == [IntToString(i), "0", "0"];
    IntsRoundTrip([i, 0, 0]);
  }

  /** A count line reads back as the count. */
  lemma CountLineRoundTrip(x: int)
    ensures ReadInts(IntToString(x)) == Some([x])
  {
    assert Rendered([x]) == [IntToString(x)];
    IntsRoundTrip([x]);
  }

  /** The text splits on newlines back into its lines, which are the node
      count, `i 0 0` for each node, the arc count, a line per arc, the
      commodity count and a line per commodity; and every line reads back as
      the numbers it was written from. */
  lemma TextRoundTrip(net: NetworkData)
    requires HasEnds(net) && NetworkLines(net).Ok?
    ensures var lines := NetworkLines(net).value;
      var n, m, k := Count(net.noNodes), |net.arcs|, Count(net.noCommodities);
      var nodes, arcs, commodities := NodeLines(n), ArcLines(net.arcs, m), CommodityLines(net, k);
      && SplitOn(NetworkText(net).value, "\n") == lines
      && lines == ([IntToString(net.noNodes)] + nodes) + ([IntToString(net.noArcs)] + arcs)
                  + ([IntToString(net.noCommodities)] + commodities)
      && ReadInts(IntToString(net.noNodes)) == Some([net.noNodes])
      && ReadInts(IntToString(net.noArcs)) == Some([net.noArcs])
      && ReadInts(IntToString(net.noCommodities)) == Some([net.noCommodities])
      && |nodes| == n && |arcs| == m && |commodities| == k
      && (forall i :: 0 <= i < n ==> ReadInts(nodes[i]) == Some([i, 0, 0]))
      && (forall i :: 0 <= i < m ==>
            ReadArc(arcs[i])
            == Some(([i, net.arcs[i].from, net.arcs[i].to, net.arcs[i].capacity], CostValue(net.arcs[i].cost))))
      && (forall c :: 0 <= c < k ==>
            ReadInts(commodities[c]) == Some([c, net.sources[c].id, net.targets[c].id, net.targets[c].demand]))
  {
    var lines := NetworkLines(net).value;
    LinesSplit(net);
    LinesWithoutNewline(net);
    SplitJoin(lines, "\n");
    CountLineRoundTrip(net.noNodes);
    CountLineRoundTrip(net.noArcs);
    CountLineRoundTrip(net.noCommodities);
    forall i | 0 <= i < Count(net.noNodes)
      ensures ReadInts(NodeLine(i)) == Some([i, 0, 0])
    {
      NodeLineRoundTrip(i);
    }
    forall i | 0 <= i < |net.arcs|
      ensures ReadArc(ArcLine(i, net.arcs[i]))
              == Some(([i, net.arcs[i].from, net.arcs[i].to, net.arcs[i].capacity], CostValue(net.arcs[i].cost)))
    {
      ArcLineRoundTrip(i, net.arcs[i]);
    }
    forall c | 0 <= c < Count(net.noCommodities)
      ensures ReadInts(CommodityLine(net, c)) == Some([c, net.sources[c].id, net.targets[c].id, net.targets[c].demand])
    {
      CommodityLineRoundTrip(net, c);
    }
  }
}
