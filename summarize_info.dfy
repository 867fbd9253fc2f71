/** scripts/summarize.py, continued: `read_info`, the `key : value` header of
    a run's `.info` file, and the split of a result file's stem into the
    instance's base name and the pivot rule. */
module SummarizeInfo {
  import opened Wrappers
  import opened Strings

  // ---------------------------------------------------------------------------
  // read_info (lines 75-88)

  /** An entry of `INFO_FIELDS`: a key and its conversion, a total function
      from the value's text to an integer. */
  type InfoField = (string, string -> int)

  /** The line that ends the header. */
  const Marker := "BEGIN VARIABLES"

  /** What separates a key from its value. */
  const Colon := " : "

  /** `dict(fields)`: a later entry for the same key replaces an earlier one. */
  function FieldTable(fields: seq<InfoField>): map<string, string -> int> {
    if fields == [] then map[]
    else FieldTable(fields[..|fields| - 1])[fields[|fields| - 1].0 := fields[|fields| - 1].1]
  }

  /** The table holds exactly the listed keys, each with its last conversion. */
  lemma {:induction false} FieldTableEntries(fields: seq<InfoField>, key: string)
    ensures key in FieldTable(fields) <==> exists k :: 0 <= k < |fields| && fields[k].0 == key
    ensures forall k :: 0 <= k < |fields| && fields[k].0 == key && (forall j :: k < j < |fields| ==> fields[j].0 != key) ==>
      key in FieldTable(fields) && FieldTable(fields)[key] == fields[k].1
  {
    if fields != [] {
      var init := fields[..|fields| - 1];
      FieldTableEntries(init, key);
      forall k | 0 <= k < |init| && init[k].0 == key
        ensures fields[k].0 == key
      {
      }
      forall k | 0 <= k < |fields| && fields[k].0 == key
        ensures k == |init| || init[k].0 == key
      {
      }
    }
  }

  /** The number of lines before the first one containing the marker. */
  function HeaderLength(lines: seq<string>): (h: nat)
    ensures h <= |lines|
  {
    if lines == [] || Contains(lines[0], Marker) then 0 else 1 + HeaderLength(lines[1..])
  }

  /** The header ends at the first line containing the marker. */
  lemma {:induction false} HeaderEnd(lines: seq<string>)
    ensures forall j :: 0 <= j < HeaderLength(lines) ==> !Contains(lines[j], Marker)
    ensures HeaderLength(lines) < |lines| ==> Contains(lines[HeaderLength(lines)], Marker)
  {
    if lines != [] && !Contains(lines[0], Marker) {
      HeaderEnd(lines[1..]);
      forall j | 1 <= j < HeaderLength(lines)
        ensures !Contains(lines[j], Marker)
      {
        assert lines[j] == lines[1..][j - 1];
      }
    }
  }

  /** No line before position `i` contains the marker. */
  predicate NoMarkerBefore(lines: seq<string>, i: nat)
    requires i <= |lines|
  {
    forall j :: 0 <= j < i ==> !Contains(lines[j], Marker)
  }

  lemma NoMarkerStep(lines: seq<string>, i: nat)
    requires i < |lines| && NoMarkerBefore(lines, i) && !Contains(lines[i], Marker)
    ensures NoMarkerBefore(lines, i + 1)
  {
  }

  /** A position with no marker line before it and the marker line (or the
      end) at it is the header's length. */
  lemma {:induction false} HeaderLengthIs(lines: seq<string>, i: nat)
    requires i <= |lines| && forall j :: 0 <= j < i ==> !Contains(lines[j], Marker)
    ensures i <= HeaderLength(lines)
    ensures i < |lines| && Contains(lines[i], Marker) ==> HeaderLength(lines) == i
  {
    if i > 0 {
      assert !Contains(lines[0], Marker);
      HeaderLengthIs(lines[1..], i - 1);
    }
  }

  /** `line.strip().split(' : ')` when that gives exactly a key and a value,
      which `field, value = ...` unpacks. */
  function Unpack(line: string): Option<(string, string)> {
    var parts := SplitOn(Strip(line), Colon);
    if |parts| == 2 then Some((parts[0], parts[1])) else None
  }

  /** The header lines, each unpacked. */
  function Unpacked(header: seq<string>): (entries: seq<Option<(string, string)>>)
    ensures |entries| == |header|
  {
    seq(|header|, j requires 0 <= j < |header| => Unpack(header[j]))
  }

  /** One iteration of the loop on an unpacked line: `ValueError` when it did
      not unpack, else the value converted if its key is listed. */
  function AddEntry(table: map<string, string -> int>, r: Result<map<string, int>>, entry: Option<(string, string)>): Result<map<string, int>> {
    match r
    case Err(e) => Err(e)
    case Ok(info) =>
      match entry
      case None => Err(ValueError)
      case Some((key, value)) => if key in table then Ok(info[key := table[key](value)]) else Ok(info)
  }

  /** The dict built from the unpacked header lines. */
  function InfoFrom(table: map<string, string -> int>, entries: seq<Option<(string, string)>>): Result<map<string, int>> {
    if entries == [] then Ok(map[])
    else AddEntry(table, InfoFrom(table, entries[..|entries| - 1]), entries[|entries| - 1])
  }

  /** `read_info(info_file, fields)` on the lines of `info_file`. */
  function InfoOf(fields: seq<InfoField>, lines: seq<string>): Result<map<string, int>> {
    InfoFrom(FieldTable(fields), Unpacked(lines[..HeaderLength(lines)]))
  }

  lemma InfoSnoc(table: map<string, string -> int>, lines: seq<string>, i: nat)
    requires i < |lines|
    ensures InfoFrom(table, Unpacked(lines[..i + 1])) == AddEntry(table, InfoFrom(table, Unpacked(lines[..i])), Unpack(lines[i]))
  {
    var es := Unpacked(lines[..i + 1]);
    assert es[..i] == Unpacked(lines[..i]);
  }

  /** The loop of `read_info`, which breaks at the marker. */
  method ReadInfo(fields: seq<InfoField>, lines: seq<string>) returns (r: Result<map<string, int>>)
    ensures r == InfoOf(fields, lines)
  {
    var table := FieldTable(fields);
    var info := map[];
    var i := 0;
    while i < |lines|
      invariant i <= |lines|
      invariant NoMarkerBefore(lines, i)
      invariant InfoFrom(table, Unpacked(lines[..i])) == Ok(info)
    {
      if Contains(lines[i], Marker) {
        break;
      }
      var parts := SplitOn(Strip(lines[i]), Colon);
      ReadStep(table, lines, i, info);
      NoMarkerStep(lines, i);
      if |parts| != 2 {
        HeaderLengthIs(lines, i + 1);
        InfoErrorPersists(table, lines, i + 1, HeaderLength(lines));
        return Err(ValueError);
      }
      if parts[0] in table {
        info := info[parts[0] := table[parts[0]](parts[1])];
      }
      i := i + 1;
    }
    HeaderLengthIs(lines, i);
    r := Ok(info);
  }

  /** One line of the loop: the split either fails, and so does the dict,
      or it gives the key and value the dict records. */
  lemma ReadStep(table: map<string, string -> int>, lines: seq<string>, i: nat, info: map<string, int>)
    requires i < |lines| && InfoFrom(table, Unpacked(lines[..i])) == Ok(info)
    ensures var parts := SplitOn(Strip(lines[i]), Colon);
      InfoFrom(table, Unpacked(lines[..i + 1]))
      == if |parts| != 2 then Err(ValueError)
         else if parts[0] in table then Ok(info[parts[0] := table[parts[0]](parts[1])])
         else Ok(info)
  {
    InfoSnoc(table, lines, i);
  }

  lemma InfoErrorPersists(table: map<string, string -> int>, lines: seq<string>, i: nat, h: nat)
    requires i <= h <= |lines| && InfoFrom(table, Unpacked(lines[..i])).Err?
    ensures InfoFrom(table, Unpacked(lines[..h])) == InfoFrom(table, Unpacked(lines[..i]))
  {
    var header := Unpacked(lines[..h]);
    assert header[..i] == Unpacked(lines[..i]);
    ErrorPersists(table, header, i);
  }

  /** Once a header line fails to unpack, the later lines change nothing. */
  lemma {:induction false} ErrorPersists(table: map<string, string -> int>, entries: seq<Option<(string, string)>>, i: nat)
    requires i <= |entries| && InfoFrom(table, entries[..i]).Err?
    ensures InfoFrom(table, entries) == InfoFrom(table, entries[..i])
    decreases |entries|
  {
    if i < |entries| {
      var init := entries[..|entries| - 1];
      assert init[..i] == entries[..i];
      ErrorPersists(table, init, i);
    } else {
      assert entries[..i] == entries;
    }
  }

  /** `read_info` raises `ValueError` exactly when some header line does not
      split into a key and a value. */
  lemma InfoErrors(fields: seq<InfoField>, lines: seq<string>)
    ensures InfoOf(fields, lines).Err? <==> exists j :: 0 <= j < HeaderLength(lines) && Unpack(lines[j]).None?
    ensures InfoOf(fields, lines).Err? ==> InfoOf(fields, lines) == Err(ValueError)
  {
    PrefixErrors(FieldTable(fields), lines, HeaderLength(lines));
  }

  lemma PrefixErrors(table: map<string, string -> int>, lines: seq<string>, h: nat)
    requires h <= |lines|
    ensures InfoFrom(table, Unpacked(lines[..h])).Err? <==> exists j :: 0 <= j < h && Unpack(lines[j]).None?
    ensures InfoFrom(table, Unpacked(lines[..h])).Err? ==> InfoFrom(table, Unpacked(lines[..h])) == Err(ValueError)
  {
    var entries := Unpacked(lines[..h]);
    EntryErrors(table, entries);
    assert forall j :: 0 <= j < h ==> entries[j] == Unpack(lines[j]);
  }

  lemma {:induction false} EntryErrors(table: map<string, string -> int>, entries: seq<Option<(string, string)>>)
    ensures InfoFrom(table, entries).Err? <==> exists j :: 0 <= j < |entries| && entries[j].None?
    ensures InfoFrom(table, entries).Err? ==> InfoFrom(table, entries) == Err(ValueError)
  {
    if entries != [] {
      var init := entries[..|entries| - 1];
      assert forall j :: 0 <= j < |init| ==> init[j] == entries[j];
      EntryErrors(table, init);
    }
  }

  /** When every entry unpacks, the result holds exactly the listed keys
      that appear among them, each converted from the value of the last
      entry that gives it. */
  lemma {:induction false} EntryValues(table: map<string, string -> int>, entries: seq<Option<(string, string)>>, key: string)
    requires forall j :: 0 <= j < |entries| ==> entries[j].Some?
    ensures InfoFrom(table, entries).Ok?
    ensures key in InfoFrom(table, entries).value <==> key in table && exists j :: 0 <= j < |entries| && entries[j].value.0 == key
    ensures forall j :: 0 <= j < |entries| && entries[j].value.0 == key && (forall l :: j < l < |entries| ==> entries[l].value.0 != key) ==>
      key in table ==> key in InfoFrom(table, entries).value && InfoFrom(table, entries).value[key] == table[key](entries[j].value.1)
  {
    if entries != [] {
      var init := entries[..|entries| - 1];
      assert forall j :: 0 <= j < |init| ==> init[j] == entries[j];
      EntryValues(table, init, key);
      forall j | 0 <= j < |entries| && entries[j].value.0 == key
        ensures j == |init| || init[j].value.0 == key
      {
      }
    }
  }

  /** `read_info` of a header in which every line unpacks: the keys of
      `fields` that the header gives, each converted by the last conversion
      listed for it from the value on the last line that gives it. */
  lemma InfoEntries(fields: seq<InfoField>, lines: seq<string>, key: string)
    requires forall j :: 0 <= j < HeaderLength(lines) ==> Unpack(lines[j]).Some?
    ensures InfoOf(fields, lines).Ok?
    ensures key in InfoOf(fields, lines).value <==>
      (exists k :: 0 <= k < |fields| && fields[k].0 == key) && exists j :: 0 <= j < HeaderLength(lines) && Unpack(lines[j]).value.0 == key
    ensures forall k, j ::
      && 0 <= k < |fields| && fields[k].0 == key && (forall l :: k < l < |fields| ==> fields[l].0 != key)
      && 0 <= j < HeaderLength(lines) && Unpack(lines[j]).value.0 == key
      && (forall l :: j < l < HeaderLength(lines) ==> Unpack(lines[l]).value.0 != key)
      ==> key in InfoOf(fields, lines).value && InfoOf(fields, lines).value[key] == fields[k].1(Unpack(lines[j]).value.1)
  {
    FieldTableEntries(fields, key);
    PrefixValues(FieldTable(fields), lines, HeaderLength(lines), key);
  }

  lemma PrefixValues(table: map<string, string -> int>, lines: seq<string>, h: nat, key: string)
    requires h <= |lines| && forall j :: 0 <= j < h ==> Unpack(lines[j]).Some?
    ensures InfoFrom(table, Unpacked(lines[..h])).Ok?
    ensures key in InfoFrom(table, Unpacked(lines[..h])).value <==> key in table && exists j :: 0 <= j < h && Unpack(lines[j]).value.0 == key
    ensures forall j :: 0 <= j < h && Unpack(lines[j]).value.0 == key && (forall l :: j < l < h ==> Unpack(lines[l]).value.0 != key) ==>
      key in table ==> key in InfoFrom(table, Unpacked(lines[..h])).value && InfoFrom(table, Unpacked(lines[..h])).value[key] == table[key](Unpack(lines[j]).value.1)
  {
    var entries := Unpacked(lines[..h]);
    assert forall j :: 0 <= j < h ==> entries[j] == Unpack(lines[j]);
    EntryValues(table, entries, key);
  }

  /** Whatever follows the marker line is never read. */
  lemma InfoIgnoresRest(fields: seq<InfoField>, lines: seq<string>, more: seq<string>)
    requires HeaderLength(lines) < |lines|
    ensures InfoOf(fields, lines + more) == InfoOf(fields, lines)
  {
    HeaderPrefix(lines, more);
    SameHeader(FieldTable(fields), lines, more, HeaderLength(lines));
  }

  lemma SameHeader(table: map<string, string -> int>, lines: seq<string>, more: seq<string>, h: nat)
    requires h <= |lines|
    ensures InfoFrom(table, Unpacked((lines + more)[..h])) == InfoFrom(table, Unpacked(lines[..h]))
  {
    assert (lines + more)[..h] == lines[..h];
  }

  lemma {:induction false} HeaderPrefix(lines: seq<string>, more: seq<string>)
    requires HeaderLength(lines) < |lines|
    ensures HeaderLength(lines + more) == HeaderLength(lines)
  {
    var h, h' := HeaderLength(lines), HeaderLength(lines + more);
    HeaderEnd(lines);
    HeaderEnd(lines + more);
    assert (lines + more)[h] == lines[h];
    assert h' <= h;
    assert (lines + more)[h'] == lines[h'];
  }

  // ---------------------------------------------------------------------------
  // The name of a result file (lines 134-135)

  /** An instance's name and the pivot rule it was solved with. */
  datatype RunName = RunName(basename: string, pivotRule: string)

  /** `*t, pivot_rule = stem.split('.')` and `basename = '.'.join(t)`. */
  function SplitName(stem: string): RunName {
    var parts := SplitOn(stem, ".");
    RunName(JoinWith(parts[..|parts| - 1], "."), parts[|parts| - 1])
  }

  /** The pivot rule is the text after the stem's last dot and the base
      name the text before it; a stem without a dot is all pivot rule. */
  lemma SplitNameParts(stem: string)
    ensures '.' !in SplitName(stem).pivotRule
    ensures '.' in stem ==> stem == SplitName(stem).basename + "." + SplitName(stem).pivotRule
    ensures '.' !in stem ==> SplitName(stem) == RunName("", stem)
  {
    var parts := SplitOn(stem, ".");
    var n := |parts|;
    var r := SplitName(stem);
    JoinSplit(stem, ".");
    SplitOnParts(stem, ".");
    ContainsChar(r.pivotRule, '.');
    if n > 1 {
      assert parts == parts[..n - 1] + [parts[n - 1]];
      JoinWithSnoc(parts[..n - 1], ".", parts[n - 1]);
      assert stem == r.basename + "." + r.pivotRule;
      assert stem[|r.basename|] == '.';
    } else {
      assert parts[..0] == [];
    }
  }

  /** Splitting a base name, a dot and a dot-free pivot rule gives them back. */
  lemma SplitNameOfJoin(basename: string, pivotRule: string)
    requires '.' !in pivotRule
    ensures SplitName(basename + "." + pivotRule) == RunName(basename, pivotRule)
  {
    var stem := basename + "." + pivotRule;
    assert stem[|basename|] == '.';
    SplitNameParts(stem);
    var r := SplitName(stem);
    LastDot(r.basename, r.pivotRule, basename, pivotRule);
  }

  /** A string cut at a dot with no dot after it is cut at its last dot. */
  lemma LastDot(b1: string, p1: string, b2: string, p2: string)
    requires '.' !in p1 && '.' !in p2
    requires b1 + "." + p1 == b2 + "." + p2
    ensures b1 == b2 && p1 == p2
  {
    var s := b1 + "." + p1;
    var i1, i2 := |s| - |p1|, |s| - |p2|;
    assert s[i1 - 1] == '.' && s[i2 - 1] == '.';
    assert forall k :: i1 <= k < |s| ==> s[k] == p1[k - i1];
    assert forall k :: i2 <= k < |s| ==> s[k] == p2[k - i2];
    assert |p1| == |p2|;
    assert p1 == s[|s| - |p1|..] == p2;
    assert b1 == s[..|b1|] == b2;
  }
}
