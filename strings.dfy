/** The few Python string operations the scripts rely on: `sep.join`,
    `s.split(sep)`, `s.split()`, `s.strip()` and the `in` substring test. */
module Strings {
  import opened Wrappers

  /** Python's `str.isspace` restricted to the Latin-1 range. */
  predicate IsSpace(c: char) {
    c == ' ' || c == '\t' || c == '\n' || c == '\r' || c == '\U{0B}' || c == '\U{0C}'
    || c == '\U{1C}' || c == '\U{1D}' || c == '\U{1E}' || c == '\U{1F}'
    || c == '\U{85}' || c == '\U{A0}'
  }

  predicate NoSpace(s: string) {
    forall k :: 0 <= k < |s| ==> !IsSpace(s[k])
  }

  predicate OccursAt(s: string, pat: string, j: int) {
    0 <= j && j + |pat| <= |s| && s[j..j + |pat|] == pat
  }

  /** The first occurrence of `pat` in `s` at or after position `i`. */
  function IndexFrom(s: string, pat: string, i: nat): (r: Option<nat>)
    requires i <= |s|
    ensures r.Some? ==> i <= r.value && r.value + |pat| <= |s|
    decreases |s| - i
  {
    if i + |pat| > |s| then None
    else if s[i..i + |pat|] == pat then Some(i)
    else IndexFrom(s, pat, i + 1)
  }

  /** `IndexFrom` finds an occurrence, and none is skipped. */
  lemma {:induction false} IndexFromFirst(s: string, pat: string, i: nat)
    requires i <= |s|
    ensures var r := IndexFrom(s, pat, i);
      && (r.Some? ==> OccursAt(s, pat, r.value))
      && (r.Some? ==> forall j :: i <= j < r.value ==> !OccursAt(s, pat, j))
      && (r.None? ==> forall j :: i <= j ==> !OccursAt(s, pat, j))
    decreases |s| - i
  {
    if i + |pat| <= |s| && s[i..i + |pat|] != pat {
      IndexFromFirst(s, pat, i + 1);
    }
  }

  /** `s.find(pat)`, with `None` for -1. */
  function IndexOf(s: string, pat: string): (r: Option<nat>)
    ensures r.Some? ==> r.value + |pat| <= |s|
  {
    IndexFrom(s, pat, 0)
  }

  /** `s.find(pat)` is the first position where `pat` occurs, if any. */
  lemma IndexOfFirst(s: string, pat: string)
    ensures IndexOf(s, pat).Some? <==> exists j :: OccursAt(s, pat, j)
    ensures IndexOf(s, pat).Some? ==>
      OccursAt(s, pat, IndexOf(s, pat).value) && forall j :: 0 <= j < IndexOf(s, pat).value ==> !OccursAt(s, pat, j)
  {
    IndexFromFirst(s, pat, 0);
  }

  /** `pat in s` */
  predicate Contains(s: string, pat: string) {
    IndexOf(s, pat).Some?
  }

  /** A one-character substring is found exactly when the character occurs. */
  lemma ContainsChar(s: string, c: char)
    ensures Contains(s, [c]) <==> c in s
  {
    IndexOfFirst(s, [c]);
    if c in s {
      var j :| 0 <= j < |s| && s[j] == c;
      assert s[j..j + 1] == [c];
      assert OccursAt(s, [c], j);
    }
    if Contains(s, [c]) {
      var j := IndexOf(s, [c]).value;
      assert s[j..j + 1] == [c];
      assert s[j] == c;
    }
  }

  /** `sep.join(parts)` */
  function JoinWith(parts: seq<string>, sep: string): string {
    if |parts| == 0 then ""
    else if |parts| == 1 then parts[0]
    else parts[0] + sep + JoinWith(parts[1..], sep)
  }

  /** Joining one more part appends the separator and that part. */
  lemma {:induction false} JoinWithSnoc(parts: seq<string>, sep: string, x: string)
    requires |parts| >= 1
    ensures JoinWith(parts + [x], sep) == JoinWith(parts, sep) + sep + x
    decreases |parts|
  {
    assert (parts + [x])[1..] == parts[1..] + [x];
    if |parts| > 1 {
      JoinWithSnoc(parts[1..], sep, x);
    }
  }

  /** A character found neither in the parts nor in the separator is not in their join. */
  lemma {:induction false} JoinWithout(parts: seq<string>, sep: string, c: char)
    requires forall k :: 0 <= k < |parts| ==> c !in parts[k]
    requires c !in sep
    ensures c !in JoinWith(parts, sep)
    decreases |parts|
  {
    if |parts| > 1 {
      JoinWithout(parts[1..], sep, c);
    }
  }

  /** A prefix that ends before the first occurrence of `pat` does not contain it. */
  lemma PrefixBeforeFirst(s: string, pat: string, i: nat)
    requires |pat| > 0 && i <= |s|
    requires forall j :: 0 <= j < i ==> !OccursAt(s, pat, j)
    ensures !Contains(s[..i], pat)
  {
    IndexOfFirst(s[..i], pat);
    forall j | OccursAt(s[..i], pat, j)
      ensures false
    {
      assert s[..i][j..j + |pat|] == s[j..j + |pat|];
      assert OccursAt(s, pat, j);
    }
  }

  /** `s.split(sep)` for a non-empty separator: cut at each occurrence, scanning left to right. */
  function SplitOn(s: string, sep: string): (parts: seq<string>)
    requires |sep| > 0
    ensures |parts| >= 1
    decreases |s|
  {
    match IndexOf(s, sep)
    case None => [s]
    case Some(i) => [s[..i]] + SplitOn(s[i + |sep|..], sep)
  }

  /** No part of a split contains the separator. */
  lemma {:induction false} SplitOnParts(s: string, sep: string)
    requires |sep| > 0
    ensures forall k :: 0 <= k < |SplitOn(s, sep)| ==> !Contains(SplitOn(s, sep)[k], sep)
    decreases |s|
  {
    var parts := SplitOn(s, sep);
    IndexOfFirst(s, sep);
    match IndexOf(s, sep)
    case None =>
      IndexOfFirst(s, sep);
      forall j | OccursAt(s, sep, j)
        ensures false
      {
      }
      assert parts == [s];
      assert !Contains(s, sep) by {
        if Contains(s, sep) {
          IndexOfFirst(s, sep);
        }
      }
    case Some(i) =>
      var tail := SplitOn(s[i + |sep|..], sep);
      SplitOnParts(s[i + |sep|..], sep);
      PrefixBeforeFirst(s, sep, i);
      assert parts == [s[..i]] + tail;
      forall k | 1 <= k < |parts|
        ensures !Contains(parts[k], sep)
      {
        assert parts[k] == tail[k - 1];
      }
  }

  /** Joining the parts of a split with the same separator gives back the string. */
  lemma {:induction false} JoinSplit(s: string, sep: string)
    requires |sep| > 0
    ensures JoinWith(SplitOn(s, sep), sep) == s
    decreases |s|
  {
    var idx := IndexOf(s, sep);
    IndexOfFirst(s, sep);
    if idx.Some? {
      var i := idx.value;
      var rest := s[i + |sep|..];
      var tail := SplitOn(rest, sep);
      assert SplitOn(s, sep) == [s[..i]] + tail;
      JoinSplit(rest, sep);
      assert ([s[..i]] + tail)[1..] == tail;
      assert JoinWith([s[..i]] + tail, sep) == s[..i] + sep + JoinWith(tail, sep);
      assert s[i..i + |sep|] == sep;
      assert s == s[..i] + s[i..i + |sep|] + rest;
    }
  }

  /** With a one-character separator that no part contains, splitting undoes joining. */
  lemma {:induction false} SplitJoin(parts: seq<string>, sep: string)
    requires |sep| == 1 && |parts| >= 1
    requires forall k :: 0 <= k < |parts| ==> sep[0] !in parts[k]
    ensures SplitOn(JoinWith(parts, sep), sep) == parts
    decreases |parts|
  {
    if |parts| > 1 {
      var s := JoinWith(parts, sep);
      var p := parts[0];
      var rest := JoinWith(parts[1..], sep);
      assert s == p + sep + rest;
      assert OccursAt(s, sep, |p|) by { assert s[|p|..|p| + 1] == sep; }
      forall j | 0 <= j < |p|
        ensures !OccursAt(s, sep, j)
      {
        assert s[j] == p[j];
      }
      IndexOfFirst(s, sep);
      assert IndexOf(s, sep) == Some(|p|);
      assert s[..|p|] == p;
      assert s[|p| + 1..] == rest;
      SplitJoin(parts[1..], sep);
    } else {
      var p := parts[0];
      IndexOfFirst(p, sep);
      forall j | OccursAt(p, sep, j)
        ensures false
      {
      }
    }
  }

  /** Length of the leading run of non-space characters. */
  function WordLength(s: string): (n: nat)
    ensures n <= |s|
    ensures NoSpace(s[..n])
    ensures n < |s| ==> IsSpace(s[n])
  {
    if s == [] || IsSpace(s[0]) then 0
    else
      var m := WordLength(s[1..]);
      assert s[..m + 1] == [s[0]] + s[1..][..m];
      m + 1
  }

  /** `s.split()`: the maximal runs of non-space characters, in order. */
  function Words(s: string): (r: seq<string>)
    ensures forall k :: 0 <= k < |r| ==> |r[k]| > 0 && NoSpace(r[k])
    decreases |s|
  {
    if s == [] then []
    else if IsSpace(s[0]) then Words(s[1..])
    else
      var n := WordLength(s);
      [s[..n]] + Words(s[n..])
  }

  /** Splitting on whitespace recovers words that were joined with single spaces. */
  lemma {:induction false} WordsOfJoin(ws: seq<string>)
    requires forall k :: 0 <= k < |ws| ==> |ws[k]| > 0 && NoSpace(ws[k])
    ensures Words(JoinWith(ws, " ")) == ws
    decreases |ws|
  {
    if |ws| == 1 {
      WordsOfWord(ws[0], "");
      assert ws[0] + "" == ws[0];
    } else if |ws| > 1 {
      var rest := JoinWith(ws[1..], " ");
      WordsOfJoin(ws[1..]);
      WordsOfWord(ws[0], " " + rest);
      assert ws[0] + " " + rest == ws[0] + (" " + rest);
      assert (" " + rest)[1..] == rest;
    }
  }

  /** A word followed by nothing or by a space ends the first token. */
  lemma {:induction false} WordsOfWord(w: string, tail: string)
    requires |w| > 0 && NoSpace(w)
    requires tail == [] || IsSpace(tail[0])
    ensures Words(w + tail) == [w] + Words(tail)
  {
    var s := w + tail;
    WordLengthOf(w, tail);
    assert s[..|w|] == w && s[|w|..] == tail;
  }

  lemma {:induction false} WordLengthOf(w: string, tail: string)
    requires NoSpace(w)
    requires tail == [] || IsSpace(tail[0])
    ensures WordLength(w + tail) == |w|
    decreases |w|
  {
    if w != [] {
      WordLengthOf(w[1..], tail);
      assert (w + tail)[1..] == w[1..] + tail;
    }
  }

  /** `s.lstrip()` */
  function TrimStart(s: string): (r: string)
    ensures |r| <= |s|
  {
    if s != [] && IsSpace(s[0]) then TrimStart(s[1..]) else s
  }

  /** `s.rstrip()` */
  function TrimEnd(s: string): (r: string)
    ensures |r| <= |s|
  {
    if s != [] && IsSpace(s[|s| - 1]) then TrimEnd(s[..|s| - 1]) else s
  }

  /** `s.strip()` */
  function Strip(s: string): string {
    TrimEnd(TrimStart(s))
  }

  /** `lstrip` drops the leading whitespace and nothing more. */
  lemma {:induction false} TrimStartMeaning(s: string)
    ensures var r := TrimStart(s);
      && r == s[|s| - |r|..]
      && (r == [] || !IsSpace(r[0]))
      && forall k :: 0 <= k < |s| - |r| ==> IsSpace(s[k])
  {
    if s != [] && IsSpace(s[0]) {
      TrimStartMeaning(s[1..]);
    }
  }

  /** `rstrip` drops the trailing whitespace and nothing more. */
  lemma {:induction false} TrimEndMeaning(s: string)
    ensures var r := TrimEnd(s);
      && r == s[..|r|]
      && (r == [] || !IsSpace(r[|r| - 1]))
      && forall k :: |r| <= k < |s| ==> IsSpace(s[k])
  {
    if s != [] && IsSpace(s[|s| - 1]) {
      TrimEndMeaning(s[..|s| - 1]);
    }
  }

  /** `strip` keeps the part of `s` between its leading and trailing
      whitespace, which neither starts nor ends with whitespace. */
  lemma StripMeaning(s: string)
    ensures var i, r := |s| - |TrimStart(s)|, Strip(s);
      && i + |r| <= |s| && r == s[i..i + |r|]
      && (forall k :: 0 <= k < i ==> IsSpace(s[k]))
      && (forall k :: i + |r| <= k < |s| ==> IsSpace(s[k]))
      && (r == [] || (!IsSpace(r[0]) && !IsSpace(r[|r| - 1])))
  {
    var t := TrimStart(s);
    TrimStartMeaning(s);
    TrimEndMeaning(t);
    var i, r := |s| - |t|, Strip(s);
    assert r == t[..|r|];
    forall k | i + |r| <= k < |s|
      ensures IsSpace(s[k])
    {
      assert s[k] == t[k - i];
    }
  }
}
