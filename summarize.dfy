/** scripts/summarize.py: the per-column statistics of a solver's `.var` and
    `.obj` logs, kept separately for the lines before and after the `---`
    separator that ends the first simplex phase, and the `key : value`
    header of its `.info` file. Files are given as their sequences of lines,
    each with its line terminator as Python's iteration over a file yields it. */
module Summarize {
  import opened Wrappers
  import opened Strings

  function Max(a: int, b: int): int {
    if a >= b then a else b
  }

  // ---------------------------------------------------------------------------
  // file_summary (lines 14-64)

  /** An entry of `VAR_FIELDS` or `OBJ_FIELDS`: a column name and its type.
      A column typed `None` is skipped but still occupies its position; a
      typed column's conversion (`int`, `gmpy2.mpz`) is a total function
      from the column's text to an integer. */
  datatype Field = Field(name: string, parse: Option<string -> int>)

  /** The dict `phase1` or `phase2`, split by key suffix: `'it'`, and for a
      typed field `<name>_sum`, `<name>_avg` and `<name>_max`, keyed here by
      `<name>`. Two different names never produce the same key, since the
      three suffixes end differently. */
  datatype Phase = Phase(it: int, sums: map<string, int>, avgs: map<string, Option<int>>, maxes: map<string, Option<int>>)

  /** The names of the typed fields: the ones that get keys. */
  function TypedNames(fields: seq<Field>): set<string> {
    set k | 0 <= k < |fields| && fields[k].parse.Some? :: fields[k].name
  }

  /** Lines 15-24: `it` is 0, every sum 0, every average and maximum `None`. */
  function Initial(fields: seq<Field>): Phase {
    var names := TypedNames(fields);
    Phase(0, map n | n in names :: 0, map n | n in names :: None, map n | n in names :: None)
  }

  /** Each phase dict has exactly the keys of the typed fields. */
  predicate WellKeyed(fields: seq<Field>, p: Phase) {
    p.sums.Keys == TypedNames(fields) && p.avgs.Keys == TypedNames(fields) && p.maxes.Keys == TypedNames(fields)
  }

  lemma TypedNamesSnoc(fields: seq<Field>, i: int)
    requires 0 <= i < |fields|
    ensures TypedNames(fields[..i + 1])
            == TypedNames(fields[..i]) + (if fields[i].parse.Some? then {fields[i].name} else {})
  {
    var prefix, next := fields[..i], fields[..i + 1];
    forall n | n in TypedNames(next)
      ensures n in TypedNames(prefix) + (if fields[i].parse.Some? then {fields[i].name} else {})
    {
      var k :| 0 <= k < |next| && next[k].parse.Some? && next[k].name == n;
      if k < i {
        assert prefix[k] == next[k];
      }
    }
    forall n | n in TypedNames(prefix)
      ensures n in TypedNames(next)
    {
      var k :| 0 <= k < |prefix| && prefix[k].parse.Some? && prefix[k].name == n;
      assert next[k] == prefix[k];
    }
    if fields[i].parse.Some? {
      assert next[i] == fields[i];
    }
  }

  /** One more field: a typed one gets its three keys. */
  lemma InitialSnoc(fields: seq<Field>, i: int)
    requires 0 <= i < |fields|
    ensures var p, name := Initial(fields[..i]), fields[i].name;
      Initial(fields[..i + 1])
      == if fields[i].parse.Some?
         then p.(sums := p.sums[name := 0], avgs := p.avgs[name := None], maxes := p.maxes[name := None])
         else p
  {
    TypedNamesSnoc(fields, i);
    var names := TypedNames(fields[..i]);
    if fields[i].parse.Some? {
      ConstantMapAdd(names, fields[i].name, 0);
      ConstantMapAdd<Option<int>>(names, fields[i].name, None);
    } else {
      assert TypedNames(fields[..i + 1]) == names;
    }
  }

  /** A map sending every key of a set to one value, grown by one key. */
  lemma ConstantMapAdd<V>(names: set<string>, n: string, v: V)
    ensures (map x | x in names + {n} :: v) == (map x | x in names :: v)[n := v]
  {
  }

  /** The initialisation loop over the fields. */
  method InitialPhase(fields: seq<Field>) returns (p: Phase)
    ensures p == Initial(fields)
  {
    p := Phase(0, map[], map[], map[]);
    for i := 0 to |fields|
      invariant p == Initial(fields[..i])
    {
      InitialSnoc(fields, i);
      if fields[i].parse.Some? {
        var name := fields[i].name;
        p := p.(sums := p.sums[name := 0], avgs := p.avgs[name := None], maxes := p.maxes[name := None]);
      }
    }
    assert fields[..|fields|] == fields;
  }

  /** `value if current is None else max(value, current)`, and more
      generally the larger of two optional maxima. */
  function Combine(a: Option<int>, b: Option<int>): Option<int> {
    if a.None? then b else if b.None? then a else Some(Max(a.value, b.value))
  }

  /** One typed value added to the sum and the maximum of its field. */
  function AddValue(p: Phase, name: string, v: int): Phase {
    p.(sums := p.sums[name := GetOr(p.sums, name, 0) + v],
       maxes := p.maxes[name := Combine(GetOr(p.maxes, name, None), Some(v))])
  }

  /** The columns `0 <= j < k` of one line added to the sums and maxima
      (the loop over `zip(fields, values)`). */
  function AddColumns(fields: seq<Field>, values: seq<string>, p: Phase, k: nat): Phase
    requires k <= |fields| && k <= |values|
  {
    if k == 0 then p
    else
      var q := AddColumns(fields, values, p, k - 1);
      match fields[k - 1].parse
      case None => q
      case Some(parse) => AddValue(q, fields[k - 1].name, parse(values[k - 1]))
  }

  /** Lines 42-54: a data line. `zip` stops at the shorter of the field list
      and the line's whitespace-separated values, and `it` grows by one
      whatever the number of values. */
  function AddLine(fields: seq<Field>, p: Phase, line: string): Phase {
    var values := Words(line);
    var k := if |fields| <= |values| then |fields| else |values|;
    AddColumns(fields, values, p, k).(it := p.it + 1)
  }

  /** The averages of the typed fields among `fields`: `sum // it`, which is
      Dafny's `/` since `it` is positive. */
  function AvgUpdates(fields: seq<Field>, p: Phase): map<string, Option<int>>
    requires p.it > 0
  {
    map n | n in TypedNames(fields) :: Some(GetOr(p.sums, n, 0) / p.it)
  }

  lemma AvgUpdatesSnoc(fields: seq<Field>, j: int, p: Phase)
    requires 0 <= j < |fields| && p.it > 0
    ensures AvgUpdates(fields[..j + 1], p)
            == if fields[j].parse.Some?
               then AvgUpdates(fields[..j], p)[fields[j].name := Some(GetOr(p.sums, fields[j].name, 0) / p.it)]
               else AvgUpdates(fields[..j], p)
  {
    TypedNamesSnoc(fields, j);
  }

  /** Lines 30-37 and 56-62: set every typed field's average. */
  function WithAverages(fields: seq<Field>, p: Phase): Phase
    requires p.it > 0
  {
    p.(avgs := p.avgs + AvgUpdates(fields, p))
  }

  /** The separator line; a last line `---` without its newline is data. */
  const Separator := "---\n"

  /** The two phase dicts and which one `reading` refers to. */
  datatype Reading = Reading(phase1: Phase, phase2: Phase, second: bool) {
    function Current(): Phase {
      if second then phase2 else phase1
    }

    function WithCurrent(p: Phase): Reading {
      if second then this.(phase2 := p) else this.(phase1 := p)
    }

    /** `if reading['it']: ... _avg = _sum // it`; `it` is never negative. */
    function Averaged(fields: seq<Field>): Reading {
      if Current().it > 0 then WithCurrent(WithAverages(fields, Current())) else this
    }
  }

  /** One iteration of the line loop. */
  function Step(fields: seq<Field>, r: Reading, line: string): Reading {
    if line == Separator then r.Averaged(fields).(second := true)
    else r.WithCurrent(AddLine(fields, r.Current(), line))
  }

  /** The state after the loop over `lines`. */
  function Scan(fields: seq<Field>, lines: seq<string>): Reading {
    if lines == [] then Reading(Initial(fields), Initial(fields), false)
    else Step(fields, Scan(fields, lines[..|lines| - 1]), lines[|lines| - 1])
  }

  /** `file_summary(file, fields)`: the two phase dicts it returns. */
  function SummaryOf(fields: seq<Field>, lines: seq<string>): (Phase, Phase) {
    var r := Scan(fields, lines).Averaged(fields);
    (r.phase1, r.phase2)
  }

  /** The loop over the values of one data line. */
  method ReadLine(fields: seq<Field>, p: Phase, line: string) returns (q: Phase)
    ensures q == AddLine(fields, p, line)
  {
    var values := Words(line);
    q := p;
    var k := if |fields| <= |values| then |fields| else |values|;
    for j := 0 to k
      invariant q == AddColumns(fields, values, p, j)
    {
      match fields[j].parse
      case None =>
      case Some(parse) =>
        var value, name := parse(values[j]), fields[j].name;
        var current := if name in q.maxes then q.maxes[name] else None;
        q := q.(sums := q.sums[name := (if name in q.sums then q.sums[name] else 0) + value],
                maxes := q.maxes[name := if current.None? then Some(value) else Some(Max(value, current.value))]);
    }
    q := q.(it := p.it + 1);
  }

  /** One iteration of the averaging loop: the average of field `j`. */
  method SetAverage(fields: seq<Field>, p: Phase, j: int, avgs: map<string, Option<int>>)
    returns (avgs': map<string, Option<int>>)
    requires 0 <= j < |fields| && p.it > 0
    requires avgs == p.avgs + AvgUpdates(fields[..j], p)
    ensures avgs' == p.avgs + AvgUpdates(fields[..j + 1], p)
  {
    AvgUpdatesSnoc(fields, j, p);
    avgs' := avgs;
    if fields[j].parse.Some? {
      var name := fields[j].name;
      var average := Some((if name in p.sums then p.sums[name] else 0) / p.it);
      UpdateUnion(p.avgs, AvgUpdates(fields[..j], p), name, average);
      avgs' := avgs'[name := average];
    }
  }

  lemma UpdateUnion<K, V>(a: map<K, V>, b: map<K, V>, k: K, v: V)
    ensures (a + b)[k := v] == a + b[k := v]
  {
  }

  /** The loop that sets the averages. */
  method SetAverages(fields: seq<Field>, p: Phase) returns (q: Phase)
    requires p.it > 0
    ensures q == WithAverages(fields, p)
  {
    var avgs := p.avgs;
    assert AvgUpdates(fields[..0], p) == map[];
    for j := 0 to |fields|
      invariant avgs == p.avgs + AvgUpdates(fields[..j], p)
    {
      avgs := SetAverage(fields, p, j, avgs);
    }
    assert fields[..|fields|] == fields;
    q := p.(avgs := avgs);
  }

  /** `file_summary`: `second` records whether `reading` is `phase2`. */
  method FileSummary(fields: seq<Field>, lines: seq<string>) returns (phase1: Phase, phase2: Phase)
    ensures (phase1, phase2) == SummaryOf(fields, lines)
  {
    phase1 := InitialPhase(fields);
    phase2 := phase1;
    var second := false;
    for i := 0 to |lines|
      invariant Reading(phase1, phase2, second) == Scan(fields, lines[..i])
    {
      assert lines[..i + 1][..i] == lines[..i];
      var line := lines[i];
      if line == Separator {
        if !second && phase1.it > 0 {
          phase1 := SetAverages(fields, phase1);
        } else if second && phase2.it > 0 {
          phase2 := SetAverages(fields, phase2);
        }
        second := true;
      } else if second {
        phase2 := ReadLine(fields, phase2, line);
      } else {
        phase1 := ReadLine(fields, phase1, line);
      }
    }
    assert lines[..|lines|] == lines;
    if !second && phase1.it > 0 {
      phase1 := SetAverages(fields, phase1);
    } else if second && phase2.it > 0 {
      phase2 := SetAverages(fields, phase2);
    }
  }

  // ---------------------------------------------------------------------------
  // What file_summary computes

  function Sum(s: seq<int>): int {
    if s == [] then 0 else Sum(s[..|s| - 1]) + s[|s| - 1]
  }

  /** The largest element, `None` for the empty sequence. */
  function MaxOf(s: seq<int>): Option<int> {
    if s == [] then None else Combine(MaxOf(s[..|s| - 1]), Some(s[|s| - 1]))
  }

  /** `MaxOf` is `None` exactly for the empty sequence, and otherwise an
      element that no element exceeds. */
  lemma {:induction false} MaxOfBounds(s: seq<int>)
    ensures MaxOf(s).None? <==> s == []
    ensures MaxOf(s).Some? ==> MaxOf(s).value in s && forall x :: x in s ==> x <= MaxOf(s).value
  {
    if s != [] {
      var init := s[..|s| - 1];
      MaxOfBounds(init);
      assert s == init + [s[|s| - 1]];
    }
  }

  lemma {:induction false} SumConcat(a: seq<int>, b: seq<int>)
    ensures Sum(a + b) == Sum(a) + Sum(b)
    decreases |b|
  {
    if b != [] {
      var init := b[..|b| - 1];
      SumConcat(a, init);
      assert (a + b)[..|a + b| - 1] == a + init;
      assert Sum(a + b) == Sum(a + init) + b[|b| - 1];
    } else {
      assert a + b == a;
    }
  }

  lemma CombineAssociative(a: Option<int>, b: Option<int>, c: Option<int>)
    ensures Combine(Combine(a, b), c) == Combine(a, Combine(b, c))
  {
  }

  lemma {:induction false} MaxOfConcat(a: seq<int>, b: seq<int>)
    ensures MaxOf(a + b) == Combine(MaxOf(a), MaxOf(b))
    decreases |b|
  {
    if b != [] {
      var init := b[..|b| - 1];
      MaxOfConcat(a, init);
      assert (a + b)[..|a + b| - 1] == a + init;
      assert MaxOf(a + b) == Combine(MaxOf(a + init), Some(b[|b| - 1]));
      CombineAssociative(MaxOf(a), MaxOf(init), Some(b[|b| - 1]));
    } else {
      assert a + b == a;
    }
  }

  /** The values that columns `0 <= j < k` of a line give field `name`: one
      per typed column of that name, converted by its type. */
  function LineValues(fields: seq<Field>, name: string, values: seq<string>, k: nat): seq<int>
    requires k <= |fields| && k <= |values|
  {
    if k == 0 then []
    else LineValues(fields, name, values, k - 1)
         + (if fields[k - 1].name == name && fields[k - 1].parse.Some? then [fields[k - 1].parse.value(values[k - 1])] else [])
  }

  /** The number of columns `zip` pairs with a field. */
  function Columns(fields: seq<Field>, line: string): nat
    ensures Columns(fields, line) <= |fields| && Columns(fields, line) <= |Words(line)|
  {
    if |fields| <= |Words(line)| then |fields| else |Words(line)|
  }

  /** Every value the data lines `lines` give field `name`, in reading order. */
  function ValuesOf(fields: seq<Field>, name: string, lines: seq<string>): seq<int> {
    if lines == [] then []
    else
      var line := lines[|lines| - 1];
      ValuesOf(fields, name, lines[..|lines| - 1]) + LineValues(fields, name, Words(line), Columns(fields, line))
  }

  /** A phase dict fed the data lines `lines`, before any average is set. */
  function Totals(fields: seq<Field>, lines: seq<string>): Phase {
    if lines == [] then Initial(fields) else AddLine(fields, Totals(fields, lines[..|lines| - 1]), lines[|lines| - 1])
  }

  /** The same dict once its averages are set, as the script leaves it. */
  function Final(fields: seq<Field>, lines: seq<string>): Phase {
    var t := Totals(fields, lines);
    if t.it > 0 then WithAverages(fields, t) else t
  }

  /** The columns of a line add or remove no key and change no count. */
  lemma {:induction false} ColumnsKeys(fields: seq<Field>, values: seq<string>, p: Phase, k: nat)
    requires k <= |fields| && k <= |values|
    requires p.sums.Keys == TypedNames(fields) && p.maxes.Keys == TypedNames(fields)
    ensures AddColumns(fields, values, p, k) == p.(sums := AddColumns(fields, values, p, k).sums,
                                                   maxes := AddColumns(fields, values, p, k).maxes)
    ensures AddColumns(fields, values, p, k).sums.Keys == TypedNames(fields)
    ensures AddColumns(fields, values, p, k).maxes.Keys == TypedNames(fields)
  {
    if k > 0 {
      ColumnsKeys(fields, values, p, k - 1);
      if fields[k - 1].parse.Some? {
        assert fields[k - 1].name in TypedNames(fields);
      }
    }
  }

  /** The columns of a line add their values to the sum and the maximum of
      their field. */
  lemma {:induction false} ColumnsEffect(fields: seq<Field>, values: seq<string>, p: Phase, k: nat, name: string)
    requires k <= |fields| && k <= |values|
    requires name in p.sums && name in p.maxes
    ensures name in AddColumns(fields, values, p, k).sums && name in AddColumns(fields, values, p, k).maxes
    ensures AddColumns(fields, values, p, k).sums[name] == p.sums[name] + Sum(LineValues(fields, name, values, k))
    ensures AddColumns(fields, values, p, k).maxes[name] == Combine(p.maxes[name], MaxOf(LineValues(fields, name, values, k)))
  {
    if k > 0 {
      ColumnsEffect(fields, values, p, k - 1, name);
      var q, r := AddColumns(fields, values, p, k - 1), AddColumns(fields, values, p, k);
      var vs := LineValues(fields, name, values, k - 1);
      var f := fields[k - 1];
      if f.parse.Some? && f.name == name {
        var v := f.parse.value(values[k - 1]);
        assert r == AddValue(q, name, v);
        assert (vs + [v])[..|vs|] == vs;
        assert LineValues(fields, name, values, k) == vs + [v];
        assert Sum(vs + [v]) == Sum(vs) + v;
        assert MaxOf(vs + [v]) == Combine(MaxOf(vs), Some(v));
        CombineAssociative(p.maxes[name], MaxOf(vs), Some(v));
        assert r.sums[name] == q.sums[name] + v;
        assert r.maxes[name] == Combine(q.maxes[name], Some(v));
      } else {
        if f.parse.Some? {
          assert r == AddValue(q, f.name, f.parse.value(values[k - 1]));
        } else {
          assert r == q;
        }
        assert r.sums[name] == q.sums[name] && r.maxes[name] == q.maxes[name];
        assert vs + [] == vs;
        assert LineValues(fields, name, values, k) == vs;
      }
    }
  }

  /** A dict fed `lines` has counted each of them, has exactly the keys of
      the typed fields, no average yet, and for each typed field the sum and
      the maximum of that field's values. */
  lemma {:induction false} TotalsMeaning(fields: seq<Field>, lines: seq<string>, name: string)
    ensures Totals(fields, lines).it == |lines|
    ensures WellKeyed(fields, Totals(fields, lines))
    ensures Totals(fields, lines).avgs == Initial(fields).avgs
    ensures name in TypedNames(fields) ==>
      && Totals(fields, lines).sums[name] == Sum(ValuesOf(fields, name, lines))
      && Totals(fields, lines).maxes[name] == MaxOf(ValuesOf(fields, name, lines))
  {
    if lines != [] {
      var init, line := lines[..|lines| - 1], lines[|lines| - 1];
      var t := Totals(fields, init);
      TotalsMeaning(fields, init, name);
      ColumnsKeys(fields, Words(line), t, Columns(fields, line));
      if name in TypedNames(fields) {
        ColumnsEffect(fields, Words(line), t, Columns(fields, line), name);
      }
      var vs, ws := ValuesOf(fields, name, init), LineValues(fields, name, Words(line), Columns(fields, line));
      SumConcat(vs, ws);
      MaxOfConcat(vs, ws);
    }
  }

  /** The index of the first separator, or `|lines|` if there is none. */
  function FirstSeparator(lines: seq<string>): (i: nat)
    ensures i <= |lines|
    ensures forall j :: 0 <= j < i ==> lines[j] != Separator
    ensures i < |lines| ==> lines[i] == Separator
  {
    if lines == [] || lines[0] == Separator then 0 else 1 + FirstSeparator(lines[1..])
  }

  lemma FirstSeparatorSnoc(lines: seq<string>, x: string)
    ensures var i := FirstSeparator(lines);
      FirstSeparator(lines + [x]) == if i < |lines| || x == Separator then i else |lines| + 1
  {
    var longer := lines + [x];
    var i, i' := FirstSeparator(lines), FirstSeparator(longer);
    if i' < |lines| {
      assert longer[i'] == lines[i'];
      assert i <= i';
    }
    if i < |lines| {
      assert longer[i] == lines[i];
      assert i' <= i;
    } else if x == Separator {
      assert longer[|lines|] == x;
    }
  }

  /** The lines other than separators. */
  function DataLines(lines: seq<string>): seq<string> {
    if lines == [] then []
    else DataLines(lines[..|lines| - 1]) + (if lines[|lines| - 1] == Separator then [] else [lines[|lines| - 1]])
  }

  lemma DataLinesSnoc(lines: seq<string>, x: string)
    ensures DataLines(lines + [x]) == DataLines(lines) + (if x == Separator then [] else [x])
  {
    assert (lines + [x])[..|lines|] == lines;
  }

  /** The lines read into `phase1`: those before the first separator. */
  function Phase1Lines(lines: seq<string>): seq<string> {
    lines[..FirstSeparator(lines)]
  }

  /** The lines read into `phase2`: every data line after the first separator. */
  function Phase2Lines(lines: seq<string>): seq<string> {
    DataLinesAfter(lines, FirstSeparator(lines))
  }

  /** The data lines after position `i`, or none when `i` is past the end. */
  function DataLinesAfter(lines: seq<string>, i: nat): seq<string> {
    if i < |lines| then DataLines(lines[i + 1..]) else []
  }

  /** Equal except possibly for averages that the end of the scan overwrites. */
  predicate SameCounts(p: Phase, q: Phase) {
    && p.it == q.it && p.sums == q.sums && p.maxes == q.maxes
    && p.avgs.Keys == q.avgs.Keys
    && (p.it == 0 ==> p.avgs == q.avgs)
  }

  /** The loop invariant of `file_summary`: until the first separator only
      `phase1` has been fed; after it `phase1` is final and `phase2` holds the
      later data lines, its averages possibly set at a later separator and
      stale since. */
  ghost predicate ScanInvariant(fields: seq<Field>, lines: seq<string>) {
    var r, i := Scan(fields, lines), FirstSeparator(lines);
    && (r.second <==> i < |lines|)
    && (i == |lines| ==> r.phase1 == Totals(fields, lines) && r.phase2 == Initial(fields))
    && (i < |lines| ==> r.phase1 == Final(fields, lines[..i]) && SameCounts(r.phase2, Totals(fields, Phase2Lines(lines))))
  }

  /** A line read while no separator has been seen. */
  lemma ScanStepBefore(fields: seq<Field>, init: seq<string>, x: string)
    requires FirstSeparator(init) == |init| && ScanInvariant(fields, init)
    ensures ScanInvariant(fields, init + [x])
  {
    var lines := init + [x];
    assert lines[..|lines| - 1] == init;
    FirstSeparatorSnoc(init, x);
    if x == Separator {
      assert lines[..|init|] == init;
      assert lines[|init| + 1..] == [];
    }
  }

  /** The columns of a line touch only the sums and maxima, and what they
      make of these depends on nothing else. */
  lemma {:induction false} ColumnsFrame(fields: seq<Field>, values: seq<string>, p: Phase, q: Phase, k: nat)
    requires k <= |fields| && k <= |values|
    requires p.sums == q.sums && p.maxes == q.maxes
    ensures AddColumns(fields, values, p, k).it == p.it && AddColumns(fields, values, p, k).avgs == p.avgs
    ensures AddColumns(fields, values, p, k).sums == AddColumns(fields, values, q, k).sums
    ensures AddColumns(fields, values, p, k).maxes == AddColumns(fields, values, q, k).maxes
  {
    if k > 0 {
      ColumnsFrame(fields, values, p, q, k - 1);
    }
  }

  /** A line read after the first separator. */
  lemma ScanStepAfter(fields: seq<Field>, init: seq<string>, x: string)
    requires FirstSeparator(init) < |init| && ScanInvariant(fields, init)
    ensures ScanInvariant(fields, init + [x])
  {
    AfterSeparator(init, x);
    if x == Separator {
      ScanSeparatorAfter(fields, init);
    } else {
      ScanDataLineAfter(fields, init, x);
    }
  }

  /** After the first separator, a further line leaves the first separator
      and the lines before it alone, and joins the phase-2 lines unless it
      is a separator. */
  lemma AfterSeparator(init: seq<string>, x: string)
    requires FirstSeparator(init) < |init|
    ensures FirstSeparator(init + [x]) == FirstSeparator(init)
    ensures (init + [x])[..FirstSeparator(init)] == init[..FirstSeparator(init)]
    ensures Phase2Lines(init + [x]) == Phase2Lines(init) + (if x == Separator then [] else [x])
  {
    FirstSeparatorSnoc(init, x);
    Phase2Snoc(init, x);
  }

  lemma ScanSeparatorAfter(fields: seq<Field>, init: seq<string>)
    requires FirstSeparator(init) < |init| && ScanInvariant(fields, init)
    requires FirstSeparator(init + [Separator]) == FirstSeparator(init)
    requires Phase2Lines(init + [Separator]) == Phase2Lines(init)
    requires (init + [Separator])[..FirstSeparator(init)] == init[..FirstSeparator(init)]
    ensures ScanInvariant(fields, init + [Separator])
  {
    var lines := init + [Separator];
    assert lines[..|lines| - 1] == init;
    var ls := Phase2Lines(init);
    TotalsMeaning(fields, ls, "");
    SeparatorAfter(fields, Scan(fields, init), Totals(fields, ls));
  }

  lemma ScanDataLineAfter(fields: seq<Field>, init: seq<string>, x: string)
    requires FirstSeparator(init) < |init| && ScanInvariant(fields, init) && x != Separator
    requires FirstSeparator(init + [x]) == FirstSeparator(init)
    requires Phase2Lines(init + [x]) == Phase2Lines(init) + [x]
    requires (init + [x])[..FirstSeparator(init)] == init[..FirstSeparator(init)]
    ensures ScanInvariant(fields, init + [x])
  {
    var lines := init + [x];
    assert lines[..|lines| - 1] == init;
    var ls := Phase2Lines(init);
    assert (ls + [x])[..|ls|] == ls;
    TotalsMeaning(fields, ls, "");
    DataLineAfter(fields, Scan(fields, init), Totals(fields, ls), x);
  }

  /** A later separator leaves `phase1` alone and keeps `phase2`'s counts. */
  lemma SeparatorAfter(fields: seq<Field>, r0: Reading, t: Phase)
    requires r0.second && SameCounts(r0.phase2, t) && WellKeyed(fields, t)
    ensures var r := Step(fields, r0, Separator);
      r.second && r.phase1 == r0.phase1 && SameCounts(r.phase2, t)
  {
    SeparatorKeepsCounts(fields, r0.phase2, t);
  }

  /** A data line after the first separator is added to `phase2` alone. */
  lemma DataLineAfter(fields: seq<Field>, r0: Reading, t: Phase, x: string)
    requires r0.second && SameCounts(r0.phase2, t) && t.it >= 0 && x != Separator
    ensures var r := Step(fields, r0, x);
      r.second && r.phase1 == r0.phase1 && SameCounts(r.phase2, AddLine(fields, t, x))
  {
    var values := Words(x);
    var k := if |fields| <= |values| then |fields| else |values|;
    ColumnsFrame(fields, values, r0.phase2, t, k);
    ColumnsFrame(fields, values, t, t, k);
    assert Step(fields, r0, x).phase2 == AddLine(fields, r0.phase2, x);
    assert AddLine(fields, r0.phase2, x).it > 0;
  }

  /** After the first separator, each further data line joins `phase2`'s lines. */
  lemma Phase2Snoc(init: seq<string>, x: string)
    requires FirstSeparator(init) < |init|
    ensures Phase2Lines(init + [x]) == Phase2Lines(init) + (if x == Separator then [] else [x])
  {
    FirstSeparatorSnoc(init, x);
    DataLinesAfterSnoc(init, x, FirstSeparator(init));
  }

  lemma DataLinesAfterSnoc(init: seq<string>, x: string, i: nat)
    requires i < |init|
    ensures DataLinesAfter(init + [x], i) == DataLinesAfter(init, i) + (if x == Separator then [] else [x])
  {
    var rest := init[i + 1..];
    assert (init + [x])[i + 1..] == rest + [x];
    DataLinesSnoc(rest, x);
  }

  /** Setting the averages at a later separator keeps `phase2`'s counts. */
  lemma SeparatorKeepsCounts(fields: seq<Field>, p: Phase, t: Phase)
    requires SameCounts(p, t) && WellKeyed(fields, t)
    ensures p.it > 0 ==> SameCounts(WithAverages(fields, p), t)
  {
  }

  lemma {:induction false} ScanState(fields: seq<Field>, lines: seq<string>)
    ensures ScanInvariant(fields, lines)
  {
    if lines != [] {
      var init, x := lines[..|lines| - 1], lines[|lines| - 1];
      assert lines == init + [x];
      ScanState(fields, init);
      if FirstSeparator(init) < |init| {
        ScanStepAfter(fields, init, x);
      } else {
        ScanStepBefore(fields, init, x);
      }
    }
  }

  /** Setting the averages of two dicts that agree except on stale averages
      gives the same dict. */
  lemma AveragesAgree(fields: seq<Field>, p: Phase, q: Phase)
    requires SameCounts(p, q) && p.it > 0
    requires p.avgs.Keys <= TypedNames(fields)
    ensures WithAverages(fields, p) == WithAverages(fields, q)
  {
    var u := AvgUpdates(fields, p);
    assert u == AvgUpdates(fields, q);
    assert p.avgs + u == u;
    assert q.avgs + u == u;
  }

  /** `file_summary` returns the dict of the lines before the first `---`
      and the dict of the data lines after it. */
  lemma SummaryPhases(fields: seq<Field>, lines: seq<string>)
    ensures SummaryOf(fields, lines) == (Final(fields, Phase1Lines(lines)), Final(fields, Phase2Lines(lines)))
  {
    var r := Scan(fields, lines);
    ScanState(fields, lines);
    var i := FirstSeparator(lines);
    if i == |lines| {
      assert lines[..i] == lines;
    } else {
      var t := Totals(fields, Phase2Lines(lines));
      TotalsMeaning(fields, Phase2Lines(lines), "");
      if r.phase2.it > 0 {
        AveragesAgree(fields, r.phase2, t);
      }
    }
  }

  /** What a phase dict says about the data lines `lines` it was fed, for
      the typed field `name`. */
  ghost predicate Describes(fields: seq<Field>, p: Phase, lines: seq<string>, name: string)
    requires name in TypedNames(fields)
  {
    var vs := ValuesOf(fields, name, lines);
    && WellKeyed(fields, p)
    && p.it == |lines|
    && p.sums[name] == Sum(vs)
    && p.maxes[name] == MaxOf(vs)
    && p.avgs[name] == (if |lines| > 0 then Some(Sum(vs) / |lines|) else None)
  }

  /** Each returned dict counts its phase's data lines in `it`; has keys for
      the typed fields only; and for each typed field holds the sum and
      maximum of its values and, when the phase read a line, the floor of
      the sum divided by the line count as the average, else `None`. */
  lemma FileSummaryMeaning(fields: seq<Field>, lines: seq<string>, name: string)
    requires name in TypedNames(fields)
    ensures Describes(fields, SummaryOf(fields, lines).0, Phase1Lines(lines), name)
    ensures Describes(fields, SummaryOf(fields, lines).1, Phase2Lines(lines), name)
  {
    SummaryPhases(fields, lines);
    FinalDescribes(fields, Phase1Lines(lines), name);
    FinalDescribes(fields, Phase2Lines(lines), name);
  }

  /** The dict made from a phase's data lines describes them. */
  lemma FinalDescribes(fields: seq<Field>, lines: seq<string>, name: string)
    requires name in TypedNames(fields)
    ensures Describes(fields, Final(fields, lines), lines, name)
  {
    TotalsMeaning(fields, lines, name);
  }

  lemma {:induction false} DataLinesConcat(a: seq<string>, b: seq<string>)
    ensures DataLines(a + b) == DataLines(a) + DataLines(b)
    decreases |b|
  {
    if b != [] {
      var init := b[..|b| - 1];
      DataLinesConcat(a, init);
      assert (a + b)[..|a + b| - 1] == a + init;
      assert DataLines(a + b) == DataLines(a + init) + (if b[|b| - 1] == Separator then [] else [b[|b| - 1]]);
    } else {
      assert a + b == a;
    }
  }

  lemma {:induction false} DataLinesClean(a: seq<string>)
    requires forall j :: 0 <= j < |a| ==> a[j] != Separator
    ensures DataLines(a) == a
  {
    if a != [] {
      DataLinesClean(a[..|a| - 1]);
    }
  }

  /** Every line other than a separator is counted once, in one of the two
      phases. */
  lemma EveryDataLineCounted(fields: seq<Field>, lines: seq<string>)
    ensures SummaryOf(fields, lines).0.it + SummaryOf(fields, lines).1.it == |DataLines(lines)|
  {
    SummaryPhases(fields, lines);
    FinalCount(fields, Phase1Lines(lines));
    FinalCount(fields, Phase2Lines(lines));
    DataLinesSplit(lines);
  }

  /** A final phase dict counts the lines it was fed. */
  lemma FinalCount(fields: seq<Field>, lines: seq<string>)
    ensures Final(fields, lines).it == |lines|
  {
    TotalsMeaning(fields, lines, "");
  }

  /** The data lines are those before the first separator and those after it. */
  lemma DataLinesSplit(lines: seq<string>)
    ensures |DataLines(lines)| == |Phase1Lines(lines)| + |Phase2Lines(lines)|
  {
    var i := FirstSeparator(lines);
    DataLinesClean(lines[..i]);
    if i < |lines| {
      assert lines == lines[..i] + [Separator] + lines[i + 1..];
      DataLinesConcat(lines[..i] + [Separator], lines[i + 1..]);
      DataLinesSnoc(lines[..i], Separator);
    } else {
      assert lines[..i] == lines;
    }
  }
}
