/** The section indexer of `ReportAnalyzer` (`build_section_index`).  The
    report file is its sequence of raw lines, each ended by a '\n' that
    `getline` consumes; byte offsets are derived from the line lengths. */
module Sections {
  import opened Strings
  import opened OrderedMaps

  // ---------------------------------------------------------------- offsets

  /** Byte offset at which line `k` starts (what `tellg` returns after the
      first `k` lines have been read). */
  function StartOf(raw: seq<string>, k: nat): nat
    requires k <= |raw|
  {
    if k == 0 then 0 else StartOf(raw, k - 1) + |raw[k - 1]| + 1
  }

  /** Offset of the end of the file. */
  function FileEnd(raw: seq<string>): nat {
    StartOf(raw, |raw|)
  }

  /** Later lines start strictly later. */
  lemma {:induction false} StartOfMonotone(raw: seq<string>, i: nat, j: nat)
    requires i < j <= |raw|
    ensures StartOf(raw, i) < StartOf(raw, j)
    decreases j
  {
    if i < j - 1 {
      StartOfMonotone(raw, i, j - 1);
    }
  }

  /** Line starts never decrease and never pass the end of the file. */
  lemma StartsInOrder(raw: seq<string>, i: nat, j: nat)
    requires i <= j <= |raw|
    ensures StartOf(raw, i) <= StartOf(raw, j) <= FileEnd(raw)
  {
    if i < j { StartOfMonotone(raw, i, j); }
    if j < |raw| { StartOfMonotone(raw, j, |raw|); }
  }

  /** One trailing '\r' removed, as after every `getline`. */
  function StripCR(line: string): string {
    if line != [] && line[|line| - 1] == '\r' then line[..|line| - 1] else line
  }

  // ---------------------------------------------------------------- delimiters

  const OpenMarker := "------ "
  const CloseMarker := " ------"

  /** The delimiter test as written: longer than 12 characters, the open
      marker at the start, and the close marker found at or after index
      `size - 7`. */
  predicate IsDelimiterAsWritten(line: string) {
    |line| > 12 && StartsWith(line, OpenMarker) && FindFrom(line, CloseMarker, |line| - 7).Some?
  }

  /** Stripping 7 characters from each end (`remove_prefix(7)` then
      `remove_suffix(7)`) is defined only on lines of 14 or more. */
  predicate TitleStripDefined(line: string) {
    |line| >= 14
  }

  /** The 13-character line "------ ------" passes the test as written (its
      two markers share the middle space), but taking its title removes 7
      characters from a 6-character view. */
  lemma DelimiterOverlap()
    ensures IsDelimiterAsWritten("------ ------")
    ensures !TitleStripDefined("------ ------")
  {
    var line := "------ ------";
    assert line[..7] == OpenMarker;
    assert line[6..13] == CloseMarker;
  }

  /** The corrected test: both markers present without overlapping. */
  predicate IsDelimiter(line: string) {
    |line| >= 14 && StartsWith(line, OpenMarker) && EndsWith(line, CloseMarker)
  }

  /** The section title: the line with both markers removed. */
  function Title(line: string): string
    requires IsDelimiter(line)
  {
    line[7..|line| - 7]
  }

  /** A delimiter is its title between the two markers. */
  lemma DelimiterShape(line: string)
    requires IsDelimiter(line)
    ensures line == OpenMarker + Title(line) + CloseMarker
  {
    assert line == line[..7] + line[7..|line| - 7] + line[|line| - 7..];
  }

  /** Every title, the empty one included, makes a delimiter that gives it
      back. */
  lemma DelimiterRoundTrip(t: string)
    ensures IsDelimiter(OpenMarker + t + CloseMarker)
    ensures Title(OpenMarker + t + CloseMarker) == t
  {
    var line := OpenMarker + t + CloseMarker;
    assert line[..7] == OpenMarker;
    assert line[|line| - 7..] == CloseMarker;
    assert line[7..|line| - 7] == t;
  }

  /** The corrected test agrees with the one as written on every line except
      those of length 13. */
  lemma DelimiterCorrected(line: string)
    ensures IsDelimiter(line) <==> IsDelimiterAsWritten(line) && |line| != 13
  {
    if |line| > 12 {
      var r := FindFrom(line, CloseMarker, |line| - 7);
      if r.Some? {
        assert r.value == |line| - 7;
      } else {
        assert !OccursAt(line, CloseMarker, |line| - 7);
      }
    }
  }

  // ---------------------------------------------------------------- the scan

  /** A section's `{start, end}` pair of stream positions. The end is an
      `int`: a `tellg` on a failed stream returns -1. */
  type Range = (nat, int)

  /** `pos_type(-1)`, what `tellg` returns once the stream has failed. */
  const FailedTell: int := -1

  /** The indexer's loop state: the ranges recorded so far (in the order
      they were written into the map), the open section's title and the
      offset it started at. */
  datatype Scan = Scan(recorded: seq<Entry<Range>>, current: string, start: nat)

  /** What a line is to the indexer: the title of a delimiter, or nothing. */
  function HeaderOf(line: string): Option<string> {
    if IsDelimiter(line) then Some(Title(line)) else None
  }

  /** The header of every line of the file, after the '\r' strip. */
  function Headers(raw: seq<string>): (hs: seq<Option<string>>)
    ensures |hs| == |raw|
  {
    if raw == [] then [] else Headers(raw[..|raw| - 1]) + [HeaderOf(StripCR(raw[|raw| - 1]))]
  }

  lemma {:induction false} HeadersAt(raw: seq<string>, k: nat)
    requires k < |raw|
    ensures Headers(raw)[k] == HeaderOf(StripCR(raw[k]))
    decreases |raw|
  {
    if k < |raw| - 1 {
      var pre := raw[..|raw| - 1];
      HeadersAt(pre, k);
      assert pre[k] == raw[k];
    }
  }

  /** The loop state after the first `n` lines with headers `hs`: a
      delimiter closes the open section (if its title is non-empty) at the
      delimiter line's start and opens its own title just after the
      delimiter line. */
  function ScanLines(raw: seq<string>, hs: seq<Option<string>>, n: nat): Scan
    requires |hs| == |raw| && n <= |raw|
  {
    if n == 0 then Scan([], "", 0)
    else
      var s := ScanLines(raw, hs, n - 1);
      match hs[n - 1]
      case Some(title) =>
        Scan(s.recorded + (if s.current != "" then [(s.current, (s.start, StartOf(raw, n - 1)))] else []),
             title, StartOf(raw, n))
      case None => s
  }

  /** Every write into the map, the section still open at end of file
      closed at `end`. */
  function Recorded(raw: seq<string>, end: int): seq<Entry<Range>> {
    Opened(ScanLines(raw, Headers(raw), |raw|), end)
  }

  /** The index `build_section_index` returns. When the `getline` loop ends
      the stream has failbit set; `seekg(0, end)` clears only eofbit, so it
      does nothing, and the following `tellg` returns -1: the section still
      open at end of file is stored with end -1. */
  function SectionIndex(raw: seq<string>): seq<Entry<Range>> {
    ClosedIndex(raw, FailedTell)
  }

  /** The index with the last section closed at end of file, as intended
      (a `clear()` before the `seekg`). */
  function CorrectedIndex(raw: seq<string>): seq<Entry<Range>> {
    ClosedIndex(raw, FileEnd(raw))
  }

  /** The map the writes build, the last section closed at `end`. */
  function ClosedIndex(raw: seq<string>, end: int): seq<Entry<Range>> {
    PutAll([], Recorded(raw, end))
  }

  // ---------------------------------------------------------------- reference: sections between delimiters

  /** Line `j` is a delimiter. */
  predicate DelimAt(hs: seq<Option<string>>, j: nat) {
    j < |hs| && hs[j].Some?
  }

  predicate AllDelims(hs: seq<Option<string>>, ds: seq<nat>) {
    forall i :: 0 <= i < |ds| ==> DelimAt(hs, ds[i])
  }

  /** The delimiter lines among the first `n`, ascending. */
  function Delims(hs: seq<Option<string>>, n: nat): (ds: seq<nat>)
    requires n <= |hs|
    ensures AllDelims(hs, ds)
    ensures forall i :: 0 <= i < |ds| ==> ds[i] < n
  {
    if n == 0 then [] else Delims(hs, n - 1) + (if DelimAt(hs, n - 1) then [n - 1] else [])
  }

  /** `Delims` lists every delimiter line, in file order. */
  lemma {:induction false} DelimsSpec(hs: seq<Option<string>>, n: nat)
    requires n <= |hs|
    ensures forall j :: 0 <= j < n && DelimAt(hs, j) ==> j in Delims(hs, n)
    ensures forall i, i' :: 0 <= i < i' < |Delims(hs, n)| ==> Delims(hs, n)[i] < Delims(hs, n)[i']
  {
    if n > 0 {
      DelimsSpec(hs, n - 1);
    }
  }

  /** The range of the `i`-th section: from just after its delimiter line to
      the start of the next delimiter line, or to `end` for the last one. */
  function SpanRange(raw: seq<string>, ds: seq<nat>, i: nat, end: int): Range
    requires forall i' :: 0 <= i' < |ds| ==> ds[i'] < |raw|
    requires i < |ds|
  {
    (StartOf(raw, ds[i] + 1), if i + 1 < |ds| then StartOf(raw, ds[i + 1]) else end)
  }

  /** The sections the delimiters `ds` cut the file into, in file order;
      a section with an empty title is not kept. */
  function Spans(raw: seq<string>, hs: seq<Option<string>>, ds: seq<nat>, end: int): seq<Entry<Range>>
    requires |hs| == |raw| && AllDelims(hs, ds)
  {
    if ds == [] then []
    else
      (if hs[ds[0]].value != "" then [(hs[ds[0]].value, SpanRange(raw, ds, 0, end))] else [])
      + Spans(raw, hs, ds[1..], end)
  }

  function LastSpan(raw: seq<string>, hs: seq<Option<string>>, j: nat, end: int): seq<Entry<Range>>
    requires |hs| == |raw| && DelimAt(hs, j)
  {
    if hs[j].value != "" then [(hs[j].value, (StartOf(raw, j + 1), end))] else []
  }

  lemma AllDelimsSnoc(hs: seq<Option<string>>, ds: seq<nat>, j: nat)
    requires AllDelims(hs, ds) && DelimAt(hs, j)
    ensures AllDelims(hs, ds + [j])
  {
    var ds' := ds + [j];
    forall i | 0 <= i < |ds'| ensures DelimAt(hs, ds'[i]) {
      if i < |ds| { assert ds'[i] == ds[i]; }
    }
  }

  lemma AllDelimsSlice(hs: seq<Option<string>>, ds: seq<nat>, a: nat, b: nat)
    requires AllDelims(hs, ds) && a <= b <= |ds|
    ensures AllDelims(hs, ds[a..b])
  {
    forall i | 0 <= i < b - a ensures DelimAt(hs, ds[a..b][i]) {
      assert ds[a..b][i] == ds[a + i];
    }
  }

  lemma {:induction false} SpansSnoc(raw: seq<string>, hs: seq<Option<string>>, ds: seq<nat>, j: nat, end: int)
    requires |hs| == |raw| && AllDelims(hs, ds) && DelimAt(hs, j)
    ensures AllDelims(hs, ds + [j])
    ensures Spans(raw, hs, ds + [j], end) == Spans(raw, hs, ds, StartOf(raw, j)) + LastSpan(raw, hs, j, end)
    decreases |ds|
  {
    AllDelimsSnoc(hs, ds, j);
    var ds' := ds + [j];
    if ds == [] {
      assert ds' == [j];
    } else {
      AllDelimsSlice(hs, ds, 1, |ds|);
      assert ds'[1..] == ds[1..] + [j];
      SpansSnoc(raw, hs, ds[1..], j, end);
      var x := StartOf(raw, j);
      var h := if hs[ds[0]].value != "" then [(hs[ds[0]].value, SpanRange(raw, ds, 0, x))] else [];
      assert SpanRange(raw, ds', 0, end) == SpanRange(raw, ds, 0, x);
      var rest := Spans(raw, hs, ds[1..], x);
      var last := LastSpan(raw, hs, j, end);
      calc {
        Spans(raw, hs, ds', end);
        h + Spans(raw, hs, ds'[1..], end);
        h + (rest + last);
        (h + rest) + last;
        Spans(raw, hs, ds, x) + last;
      }
    }
  }

  function Opened(s: Scan, end: int): seq<Entry<Range>> {
    s.recorded + (if s.current != "" then [(s.current, (s.start, end))] else [])
  }

  /** After `n` lines the open section belongs to the last delimiter seen,
      and nothing is open or recorded before the first. */
  lemma {:induction false} ScanState(raw: seq<string>, hs: seq<Option<string>>, n: nat)
    requires |hs| == |raw| && n <= |raw|
    ensures var s := ScanLines(raw, hs, n);
            var ds := Delims(hs, n);
            && (ds == [] ==> s == Scan([], "", 0))
            && (ds != [] ==> s.current == hs[ds[|ds| - 1]].value && s.start == StartOf(raw, ds[|ds| - 1] + 1))
    decreases n
  {
    if n > 0 {
      ScanState(raw, hs, n - 1);
      if DelimAt(hs, n - 1) {
        assert Delims(hs, n) == Delims(hs, n - 1) + [n - 1];
      } else {
        assert Delims(hs, n) == Delims(hs, n - 1);
      }
    }
  }

  /** The scan agrees with the reference: closing the open section anywhere
      gives the sections between the delimiters seen so far. */
  lemma {:induction false} ScanIsSpans(raw: seq<string>, hs: seq<Option<string>>, n: nat, end: int)
    requires |hs| == |raw| && n <= |raw|
    ensures Opened(ScanLines(raw, hs, n), end) == Spans(raw, hs, Delims(hs, n), end)
    decreases n
  {
    if n > 0 {
      var ds0 := Delims(hs, n - 1);
      ScanState(raw, hs, n - 1);
      if DelimAt(hs, n - 1) {
        var s := ScanLines(raw, hs, n - 1);
        var x := StartOf(raw, n - 1);
        ScanIsSpans(raw, hs, n - 1, x);
        SpansSnoc(raw, hs, ds0, n - 1, end);
        assert ScanLines(raw, hs, n) == Scan(Opened(s, x), hs[n - 1].value, StartOf(raw, n));
        assert Opened(ScanLines(raw, hs, n), end) == Opened(s, x) + LastSpan(raw, hs, n - 1, end);
        assert Delims(hs, n) == ds0 + [n - 1];
      } else {
        ScanIsSpans(raw, hs, n - 1, end);
        assert Delims(hs, n) == ds0;
      }
    }
  }

  /** The writes into the map are the sections of the whole file, the last
      one closed at `end`. */
  lemma RecordedIsSpans(raw: seq<string>, end: int)
    ensures Recorded(raw, end) == Spans(raw, Headers(raw), Delims(Headers(raw), |raw|), end)
  {
    ScanIsSpans(raw, Headers(raw), |raw|, end);
  }

  /** The last section titled `t` decides the value; no section titled `t`
      (or `t` empty) means no value. */
  lemma SpansLast(raw: seq<string>, hs: seq<Option<string>>, ds: seq<nat>, end: int, t: string)
    requires |hs| == |raw| && AllDelims(hs, ds)
    ensures LastValue(Spans(raw, hs, ds, end), t).None? <==>
              t == "" || forall i :: 0 <= i < |ds| ==> hs[ds[i]].value != t
    ensures LastValue(Spans(raw, hs, ds, end), t).Some? ==>
              exists i :: 0 <= i < |ds| && hs[ds[i]].value == t &&
                LastValue(Spans(raw, hs, ds, end), t).value == SpanRange(raw, ds, i, end) &&
                forall i' :: i < i' < |ds| ==> hs[ds[i']].value != t
  {
    SpansLastNone(raw, hs, ds, end, t);
    SpansLastSome(raw, hs, ds, end, t);
  }

  lemma {:induction false} SpansLastNone(raw: seq<string>, hs: seq<Option<string>>, ds: seq<nat>, end: int, t: string)
    requires |hs| == |raw| && AllDelims(hs, ds)
    ensures LastValue(Spans(raw, hs, ds, end), t).None? <==>
              t == "" || forall i :: 0 <= i < |ds| ==> hs[ds[i]].value != t
    decreases |ds|
  {
    if ds != [] {
      var n := |ds|;
      var pre := ds[..n - 1];
      var j := ds[n - 1];
      assert ds == pre + [j];
      AllDelimsSlice(hs, ds, 0, n - 1);
      SpansSnoc(raw, hs, pre, j, end);
      LastValueAppend(Spans(raw, hs, pre, StartOf(raw, j)), LastSpan(raw, hs, j, end), t);
      SpansLastNone(raw, hs, pre, StartOf(raw, j), t);
      if hs[j].value == t && t != "" {
        assert LastValue(LastSpan(raw, hs, j, end), t) == Some((StartOf(raw, j + 1), end));
      } else {
        assert LastValue(LastSpan(raw, hs, j, end), t) == None;
      }
    }
  }

  lemma {:induction false} SpansLastSome(raw: seq<string>, hs: seq<Option<string>>, ds: seq<nat>, end: int, t: string)
    requires |hs| == |raw| && AllDelims(hs, ds)
    ensures LastValue(Spans(raw, hs, ds, end), t).Some? ==>
              exists i :: 0 <= i < |ds| && hs[ds[i]].value == t &&
                LastValue(Spans(raw, hs, ds, end), t).value == SpanRange(raw, ds, i, end) &&
                forall i' :: i < i' < |ds| ==> hs[ds[i']].value != t
    decreases |ds|
  {
    if ds != [] {
      var n := |ds|;
      var pre := ds[..n - 1];
      var j := ds[n - 1];
      assert ds == pre + [j];
      AllDelimsSlice(hs, ds, 0, n - 1);
      SpansSnoc(raw, hs, pre, j, end);
      LastValueAppend(Spans(raw, hs, pre, StartOf(raw, j)), LastSpan(raw, hs, j, end), t);
      if hs[j].value == t && t != "" {
        assert LastValue(LastSpan(raw, hs, j, end), t) == Some((StartOf(raw, j + 1), end));
        assert SpanRange(raw, ds, n - 1, end) == (StartOf(raw, j + 1), end);
      } else {
        SpansLastSome(raw, hs, pre, StartOf(raw, j), t);
        assert LastValue(LastSpan(raw, hs, j, end), t) == None;
        if LastValue(Spans(raw, hs, ds, end), t).Some? {
          var i :| 0 <= i < |pre| && hs[pre[i]].value == t &&
                   LastValue(Spans(raw, hs, pre, StartOf(raw, j)), t).value == SpanRange(raw, pre, i, StartOf(raw, j)) &&
                   forall i' :: i < i' < |pre| ==> hs[pre[i']].value != t;
          SpansLastNone(raw, hs, ds, end, t);
          WitnessExtends(raw, hs, ds, end, t, i);
        }
      }
    }
  }

  /** A section that is the last titled `t` before the last delimiter stays
      the last one when the last delimiter carries another title. */
  lemma WitnessExtends(raw: seq<string>, hs: seq<Option<string>>, ds: seq<nat>, end: int, t: string, i: nat)
    requires |hs| == |raw| && AllDelims(hs, ds) && ds != []
    requires hs[ds[|ds| - 1]].value != t
    requires var pre := ds[..|ds| - 1];
             i < |pre| && hs[pre[i]].value == t && forall i' :: i < i' < |pre| ==> hs[pre[i']].value != t
    ensures hs[ds[i]].value == t && forall i' :: i < i' < |ds| ==> hs[ds[i']].value != t
    ensures SpanRange(raw, ds[..|ds| - 1], i, StartOf(raw, ds[|ds| - 1])) == SpanRange(raw, ds, i, end)
  {
    SpanRangePrefix(raw, hs, ds, end);
  }

  /** Dropping the last delimiter leaves every earlier section's range as
      it was, the last one now closed where the dropped delimiter starts. */
  lemma SpanRangePrefix(raw: seq<string>, hs: seq<Option<string>>, ds: seq<nat>, end: int)
    requires |hs| == |raw| && AllDelims(hs, ds) && ds != []
    ensures var pre := ds[..|ds| - 1];
            forall i :: 0 <= i < |pre| ==> SpanRange(raw, pre, i, StartOf(raw, ds[|ds| - 1])) == SpanRange(raw, ds, i, end)
  {
  }

  /** The index closed at `end`: `t` maps to the range of the last
      section titled `t`, from just after its delimiter line to the start of
      the next delimiter line, or to `end` for the file's last section. A
      title carried by no delimiter line, and the empty title, are absent. */
  lemma ClosedIndexLookup(raw: seq<string>, end: int, t: string)
    ensures var hs := Headers(raw);
            var ds := Delims(hs, |raw|);
            var index := ClosedIndex(raw, end);
            && (Get(index, t).None? <==> t == "" || forall i :: 0 <= i < |ds| ==> hs[ds[i]].value != t)
            && (Get(index, t).Some? ==>
                  exists i :: 0 <= i < |ds| && hs[ds[i]].value == t &&
                    Get(index, t).value == SpanRange(raw, ds, i, end) &&
                    forall i' :: i < i' < |ds| ==> hs[ds[i']].value != t)
  {
    var hs := Headers(raw);
    var ds := Delims(hs, |raw|);
    SpansLast(raw, hs, ds, end, t);
    RecordedIsSpans(raw, end);
    PutAllLastWins([], Recorded(raw, end), t);
    assert Get(ClosedIndex(raw, end), t) == LastValue(Spans(raw, hs, ds, end), t);
  }

  /** `index[t]` as written: the range of the last section titled `t`, from
      just after its delimiter line to the start of the next delimiter line,
      or to -1 when it is the file's last section. */
  lemma SectionIndexLookup(raw: seq<string>, t: string)
    ensures var hs := Headers(raw);
            var ds := Delims(hs, |raw|);
            && (Get(SectionIndex(raw), t).None? <==> t == "" || forall i :: 0 <= i < |ds| ==> hs[ds[i]].value != t)
            && (Get(SectionIndex(raw), t).Some? ==>
                  exists i :: 0 <= i < |ds| && hs[ds[i]].value == t &&
                    Get(SectionIndex(raw), t).value == SpanRange(raw, ds, i, FailedTell) &&
                    forall i' :: i < i' < |ds| ==> hs[ds[i']].value != t)
  {
    ClosedIndexLookup(raw, FailedTell, t);
  }

  /** The corrected index: the same ranges, the file's last section ending
      at end of file. */
  lemma CorrectedIndexLookup(raw: seq<string>, t: string)
    ensures var hs := Headers(raw);
            var ds := Delims(hs, |raw|);
            && (Get(CorrectedIndex(raw), t).None? <==> t == "" || forall i :: 0 <= i < |ds| ==> hs[ds[i]].value != t)
            && (Get(CorrectedIndex(raw), t).Some? ==>
                  exists i :: 0 <= i < |ds| && hs[ds[i]].value == t &&
                    Get(CorrectedIndex(raw), t).value == SpanRange(raw, ds, i, FileEnd(raw)) &&
                    forall i' :: i < i' < |ds| ==> hs[ds[i']].value != t)
  {
    ClosedIndexLookup(raw, FileEnd(raw), t);
  }

  /** `t` is the title of the file's last delimiter line. */
  predicate LastTitle(raw: seq<string>, t: string) {
    var ds := Delims(Headers(raw), |raw|);
    ds != [] && Headers(raw)[ds[|ds| - 1]].value == t
  }

  /** The title of the file's last delimiter line maps to the range from
      just after that line to `end`. */
  lemma LastTitleIndexed(raw: seq<string>, end: int, t: string)
    requires LastTitle(raw, t) && t != ""
    ensures var ds := Delims(Headers(raw), |raw|);
            Get(ClosedIndex(raw, end), t) == Some((StartOf(raw, ds[|ds| - 1] + 1), end))
  {
    var hs := Headers(raw);
    var ds := Delims(hs, |raw|);
    SpansLastDelim(raw, hs, ds, end, t);
    RecordedIsSpans(raw, end);
    PutAllLastWins([], Recorded(raw, end), t);
  }

  /** The last delimiter's section is the last write of its title. */
  lemma SpansLastDelim(raw: seq<string>, hs: seq<Option<string>>, ds: seq<nat>, end: int, t: string)
    requires |hs| == |raw| && AllDelims(hs, ds) && ds != []
    requires hs[ds[|ds| - 1]].value == t && t != ""
    ensures LastValue(Spans(raw, hs, ds, end), t) == Some((StartOf(raw, ds[|ds| - 1] + 1), end))
  {
    var n := |ds|;
    var pre := ds[..n - 1];
    var j := ds[n - 1];
    assert ds == pre + [j];
    AllDelimsSlice(hs, ds, 0, n - 1);
    SpansSnoc(raw, hs, pre, j, end);
    LastValueAppend(Spans(raw, hs, pre, StartOf(raw, j)), LastSpan(raw, hs, j, end), t);
    assert LastValue(LastSpan(raw, hs, j, end), t) == Some((StartOf(raw, j + 1), end));
  }

  /** Every range of the index as written starts at a line boundary within
      the file. Its end is -1 exactly for the title of the file's last
      delimiter line; every other range ends no earlier than it starts and
      within the file. */
  lemma SectionIndexBounds(raw: seq<string>, t: string)
    requires Get(SectionIndex(raw), t).Some?
    ensures var r := Get(SectionIndex(raw), t).value;
            && r.0 <= FileEnd(raw)
            && (exists k :: 0 <= k <= |raw| && StartOf(raw, k) == r.0)
            && (r.1 == FailedTell <==> LastTitle(raw, t))
            && (r.1 != FailedTell ==> r.0 <= r.1 <= FileEnd(raw))
  {
    var i := SectionOf(raw, FailedTell, t);
    ClosedAtFailedTell(raw, i, t);
  }

  /** The position among the delimiters of the section `index[t]` holds. */
  lemma SectionOf(raw: seq<string>, end: int, t: string) returns (i: nat)
    requires Get(ClosedIndex(raw, end), t).Some?
    ensures var hs := Headers(raw);
            var ds := Delims(hs, |raw|);
            && i < |ds| && hs[ds[i]].value == t
            && Get(ClosedIndex(raw, end), t).value == SpanRange(raw, ds, i, end)
            && forall i' :: i < i' < |ds| ==> hs[ds[i']].value != t
  {
    var hs := Headers(raw);
    var ds := Delims(hs, |raw|);
    ClosedIndexLookup(raw, end, t);
    i :| 0 <= i < |ds| && hs[ds[i]].value == t &&
         Get(ClosedIndex(raw, end), t).value == SpanRange(raw, ds, i, end) &&
         forall i' :: i < i' < |ds| ==> hs[ds[i']].value != t;
  }

  /** The range of the last section titled `t`, the file's last section
      closed at -1. */
  lemma ClosedAtFailedTell(raw: seq<string>, i: nat, t: string)
    requires var hs := Headers(raw);
             var ds := Delims(hs, |raw|);
             && i < |ds| && hs[ds[i]].value == t
             && forall i' :: i < i' < |ds| ==> hs[ds[i']].value != t
    ensures var r := SpanRange(raw, Delims(Headers(raw), |raw|), i, FailedTell);
            && r.0 <= FileEnd(raw)
            && (exists k :: 0 <= k <= |raw| && StartOf(raw, k) == r.0)
            && (r.1 == FailedTell <==> LastTitle(raw, t))
            && (r.1 != FailedTell ==> r.0 <= r.1 <= FileEnd(raw))
  {
    var hs := Headers(raw);
    var ds := Delims(hs, |raw|);
    DelimsSpec(hs, |raw|);
    SpanRangeBounds(raw, ds, i, FailedTell);
    if i + 1 < |ds| {
      assert hs[ds[|ds| - 1]].value != t;
    }
  }

  /** Every range of the corrected index lies within the file, starts no
      later than it ends, and starts at a line boundary. */
  lemma CorrectedIndexBounds(raw: seq<string>, t: string)
    requires Get(CorrectedIndex(raw), t).Some?
    ensures var r := Get(CorrectedIndex(raw), t).value;
            && r.0 <= r.1 <= FileEnd(raw)
            && exists k :: 0 <= k <= |raw| && StartOf(raw, k) == r.0
  {
    var r := Get(CorrectedIndex(raw), t).value;
    var hs := Headers(raw);
    var ds := Delims(hs, |raw|);
    CorrectedIndexLookup(raw, t);
    var i :| 0 <= i < |ds| && hs[ds[i]].value == t && r == SpanRange(raw, ds, i, FileEnd(raw));
    DelimsSpec(hs, |raw|);
    if i + 1 < |ds| { assert ds[i] < ds[i + 1]; }
    else { StartsInOrder(raw, ds[i] + 1, |raw|); }
    SpanRangeBounds(raw, ds, i, FileEnd(raw));
  }

  lemma SpanRangeBounds(raw: seq<string>, ds: seq<nat>, i: nat, end: int)
    requires forall i' :: 0 <= i' < |ds| ==> ds[i'] < |raw|
    requires i < |ds| && (i + 1 < |ds| ==> ds[i] < ds[i + 1])
    ensures var r := SpanRange(raw, ds, i, end);
            && r.0 == StartOf(raw, ds[i] + 1) && r.0 <= FileEnd(raw)
            && (i + 1 < |ds| ==> r.0 <= r.1 <= FileEnd(raw))
            && (i + 1 == |ds| ==> r.1 == end)
  {
    var r := SpanRange(raw, ds, i, end);
    assert r.0 == StartOf(raw, ds[i] + 1);
    if i + 1 < |ds| {
      StartsInOrder(raw, ds[i] + 1, ds[i + 1]);
      StartsInOrder(raw, ds[i + 1], |raw|);
      assert r.1 == StartOf(raw, ds[i + 1]);
    } else {
      StartsInOrder(raw, ds[i] + 1, |raw|);
      assert r.1 == end;
    }
  }

  /** The index is ordered by title: `std::map` iteration visits sections
      alphabetically, not in file order. */
  lemma SectionIndexSorted(raw: seq<string>)
    ensures Sorted(SectionIndex(raw))
  {
    PutAllSorted([], Recorded(raw, FailedTell));
  }

  // ---------------------------------------------------------------- progress

  /** The value the "emit on change" discipline holds after `vs`. */
  function Latest(last: int, vs: seq<int>): int {
    if vs == [] then last else vs[|vs| - 1]
  }

  /** The values passed to the progress callback when the computed values
      are `vs` and the last emitted value starts as `last`. */
  function Reported(last: int, vs: seq<int>): seq<int> {
    if vs == [] then []
    else
      var pre := vs[..|vs| - 1];
      Reported(last, pre) + (if vs[|vs| - 1] != Latest(last, pre) then [vs[|vs| - 1]] else [])
  }

  /** No value is reported twice in a row nor repeats the starting value;
      every reported value was computed; every computed value other than
      the starting one is reported; and the value held at the end is the
      last one reported. */
  lemma {:induction false} ReportedSpec(last: int, vs: seq<int>)
    ensures var r := Reported(last, vs);
            && (forall i :: 0 <= i < |r| - 1 ==> r[i] != r[i + 1])
            && (r != [] ==> r[0] != last)
            && (forall v :: v in r ==> v in vs)
            && (forall v :: v in vs && v != last ==> v in r)
            && Latest(last, r) == Latest(last, vs)
    decreases |vs|
  {
    if vs != [] {
      var pre := vs[..|vs| - 1];
      ReportedSpec(last, pre);
      assert vs == pre + [vs[|vs| - 1]];
      forall v | v in vs && v != last ensures v in Reported(last, vs) {
        if v !in pre {
          assert v == vs[|vs| - 1];
        }
      }
    }
  }

  /** `static_cast<int>(20.0f * pos / file_size)`, 0 for an empty file. */
  function IndexProgress(pos: nat, fileSize: int): int {
    if fileSize > 0 then (20 * pos) / fileSize else 0
  }

  /** The progress computed after each of the first `n` lines. */
  function IndexProgressValues(raw: seq<string>, fileSize: int, n: nat): (vs: seq<int>)
    requires n <= |raw|
    ensures |vs| == n
  {
    if n == 0 then [] else IndexProgressValues(raw, fileSize, n - 1) + [IndexProgress(StartOf(raw, n), fileSize)]
  }

  /** With the file's real size, indexing reports progress within 0..20. */
  lemma IndexProgressBounds(raw: seq<string>, k: nat)
    requires k <= |raw|
    ensures 0 <= IndexProgress(StartOf(raw, k), FileEnd(raw)) <= 20
  {
    if k < |raw| { StartOfMonotone(raw, k, |raw|); }
    var size := FileEnd(raw);
    if size > 0 {
      DivBound(StartOf(raw, k), size, 20);
    }
  }

  lemma DivBound(a: nat, b: nat, c: nat)
    requires a <= b && b > 0
    ensures 0 <= (c * a) / b <= c
  {
    var q := (c * a) / b;
    assert q * b + (c * a) % b == c * a;
    assert c * a <= c * b;
    assert (c - q) * b == c * b - q * b;
    assert (c - q) * b >= 0;
  }

  // ---------------------------------------------------------------- the method

  /** `build_section_index`: one pass over the lines, writing each closed
      section into the map and reporting progress when it changes. */
  method BuildSectionIndex(raw: seq<string>, fileSize: int) returns (index: seq<Entry<Range>>, progress: seq<int>)
    ensures index == SectionIndex(raw)
    ensures progress == Reported(-1, IndexProgressValues(raw, fileSize, |raw|))
  {
    index := [];
    var currentSection := "";
    var currentStart: nat := 0;
    var lineStart: nat := 0;
    var lastProgress := -1;
    progress := [];
    var k := 0;
    while k < |raw|
      invariant k <= |raw|
      invariant ScanLines(raw, Headers(raw), k).current == currentSection
      invariant ScanLines(raw, Headers(raw), k).start == currentStart
      invariant index == PutAll([], ScanLines(raw, Headers(raw), k).recorded)
      invariant lineStart == StartOf(raw, k)
      invariant progress == Reported(-1, IndexProgressValues(raw, fileSize, k))
      invariant lastProgress == Latest(-1, IndexProgressValues(raw, fileSize, k))
    {
      index, currentSection, currentStart := IndexLine(raw, k, index, currentSection, currentStart, lineStart);
      lineStart := lineStart + |raw[k]| + 1;
      progress, lastProgress := IndexReport(raw, fileSize, k, lineStart, progress, lastProgress);
      k := k + 1;
    }
    IndexFinal(raw);
    if currentSection != "" {
      // `seekg(0, end)` on the failed stream, then `tellg()`
      index := Put(index, currentSection, (currentStart, FailedTell));
    }
  }

  /** One line of the loop: a delimiter line writes the open section, if
      any, and opens its own title. */
  method IndexLine(raw: seq<string>, k: nat, index: seq<Entry<Range>>, currentSection: string, currentStart: nat, lineStart: nat)
    returns (index': seq<Entry<Range>>, currentSection': string, currentStart': nat)
    requires k < |raw| && lineStart == StartOf(raw, k)
    requires ScanLines(raw, Headers(raw), k).current == currentSection && ScanLines(raw, Headers(raw), k).start == currentStart
    requires index == PutAll([], ScanLines(raw, Headers(raw), k).recorded)
    ensures ScanLines(raw, Headers(raw), k + 1).current == currentSection'
    ensures ScanLines(raw, Headers(raw), k + 1).start == currentStart'
    ensures index' == PutAll([], ScanLines(raw, Headers(raw), k + 1).recorded)
  {
    ghost var hs := Headers(raw);
    index', currentSection', currentStart' := index, currentSection, currentStart;
    var header := ReadHeader(raw, k);
    if header.Some? {
      if currentSection != "" {
        IndexCloses(raw, hs, k);
        index' := Put(index, currentSection, (currentStart, lineStart));
      } else {
        IndexOpens(raw, hs, k);
      }
      currentSection' := header.value;
      currentStart' := lineStart + |raw[k]| + 1;
    } else {
      assert ScanLines(raw, hs, k + 1) == ScanLines(raw, hs, k);
    }
  }

  /** Progress after line `k`, passed on only when it changed. */
  method IndexReport(raw: seq<string>, fileSize: int, k: nat, lineStart: nat, progress: seq<int>, lastProgress: int)
    returns (progress': seq<int>, lastProgress': int)
    requires k < |raw| && lineStart == StartOf(raw, k + 1)
    requires progress == Reported(-1, IndexProgressValues(raw, fileSize, k))
    requires lastProgress == Latest(-1, IndexProgressValues(raw, fileSize, k))
    ensures progress' == Reported(-1, IndexProgressValues(raw, fileSize, k + 1))
    ensures lastProgress' == Latest(-1, IndexProgressValues(raw, fileSize, k + 1))
  {
    var p := IndexProgress(lineStart, fileSize);
    IndexProgressStep(raw, fileSize, k, p);
    progress', lastProgress' := progress, lastProgress;
    if p != lastProgress {
      progress' := progress + [p];
      lastProgress' := p;
    }
  }

  /** After the last line the open section, if any, is written with the end
      the failed stream reports. */
  lemma IndexFinal(raw: seq<string>)
    ensures var s := ScanLines(raw, Headers(raw), |raw|);
            SectionIndex(raw) ==
              if s.current != "" then Put(PutAll([], s.recorded), s.current, (s.start, FailedTell))
              else PutAll([], s.recorded)
  {
    var s := ScanLines(raw, Headers(raw), |raw|);
    if s.current != "" {
      PutAllSnoc([], s.recorded, s.current, (s.start, FailedTell));
    } else {
      assert Recorded(raw, FailedTell) == s.recorded;
    }
  }

  /** Line `k` as the indexer sees it: the '\r' stripped, then the
      delimiter test and the title strip. */
  method ReadHeader(raw: seq<string>, k: nat) returns (header: Option<string>)
    requires k < |raw|
    ensures header == Headers(raw)[k]
  {
    var line := StripCR(raw[k]);
    if |line| >= 14 && line[..7] == OpenMarker && line[|line| - 7..] == CloseMarker {
      header := Some(line[7..|line| - 7]);
    } else {
      header := None;
    }
    HeadersAt(raw, k);
  }

  /** A delimiter line while a section is open writes that section into
      the map, ending at the delimiter line, and opens its own title. */
  lemma IndexCloses(raw: seq<string>, hs: seq<Option<string>>, k: nat)
    requires |hs| == |raw| && k < |raw|
    requires hs[k].Some? && ScanLines(raw, hs, k).current != ""
    ensures var s := ScanLines(raw, hs, k);
            var s' := ScanLines(raw, hs, k + 1);
            && s'.current == hs[k].value && s'.start == StartOf(raw, k + 1)
            && PutAll([], s'.recorded) == Put(PutAll([], s.recorded), s.current, (s.start, StartOf(raw, k)))
  {
    var s := ScanLines(raw, hs, k);
    PutAllSnoc([], s.recorded, s.current, (s.start, StartOf(raw, k)));
  }

  /** A delimiter line while no section is open only opens its title. */
  lemma IndexOpens(raw: seq<string>, hs: seq<Option<string>>, k: nat)
    requires |hs| == |raw| && k < |raw|
    requires hs[k].Some? && ScanLines(raw, hs, k).current == ""
    ensures var s' := ScanLines(raw, hs, k + 1);
            && s'.current == hs[k].value && s'.start == StartOf(raw, k + 1)
            && s'.recorded == ScanLines(raw, hs, k).recorded
  {
  }

  /** Indexing one more line computes one more progress value. */
  lemma IndexProgressStep(raw: seq<string>, fileSize: int, k: nat, p: int)
    requires k < |raw| && p == IndexProgress(StartOf(raw, k + 1), fileSize)
    ensures var vs := IndexProgressValues(raw, fileSize, k);
            && Reported(-1, IndexProgressValues(raw, fileSize, k + 1)) == Reported(-1, vs) + (if p != Latest(-1, vs) then [p] else [])
            && Latest(-1, IndexProgressValues(raw, fileSize, k + 1)) == p
  {
    ReportedSnoc(-1, IndexProgressValues(raw, fileSize, k), p);
  }

  /** Computing one more value reports it exactly when it differs from the
      value reported last. */
  lemma ReportedSnoc(last: int, vs: seq<int>, p: int)
    ensures Reported(last, vs + [p]) == Reported(last, vs) + (if p != Latest(last, vs) then [p] else [])
    ensures Latest(last, vs + [p]) == p
  {
    assert (vs + [p])[..|vs|] == vs;
  }
}
