/** `ReportAnalyzer::analyze`: index the report, give each section's lines
    to the rules that target it, scan the mount tables, finalize every
    rule, correlate and clamp the score, reporting progress throughout. */
module Analyzer {
  import opened Strings
  import opened OrderedMaps
  import opened Report
  import opened Sections
  import opened Registry
  import opened Dispatch
  import PR = ProcessRules

  // ---------------------------------------------------------------- one line, several rules

  /** `for (auto* rule : active_rules) rule->processLine(sv, result, context);` */
  function RunRules(rules: seq<Rule>, line: string, w: World): World {
    if rules == [] then w else LineStep(rules[|rules| - 1], line, RunRules(rules[..|rules| - 1], line, w))
  }

  /** Running rules over a line leaves the metadata as it was. */
  lemma {:induction false} RunRulesKeepsMeta(rules: seq<Rule>, line: string, w: World)
    ensures RunRules(rules, line, w).meta == w.meta
    decreases |rules|
  {
    if rules != [] {
      RunRulesKeepsMeta(rules[..|rules| - 1], line, w);
      LineStepKeepsMeta(rules[|rules| - 1], line, RunRules(rules[..|rules| - 1], line, w));
    }
  }

  function Logged(w: World, msg: string): World {
    w.(meta := w.meta.(debugLog := w.meta.debugLog + [msg]))
  }

  // ---------------------------------------------------------------- the section pass

  /** The world, the progress values reported so far and the last one. */
  datatype Run = Run(w: World, progress: seq<int>, last: int)

  /** Progress after reading up to `pos` in the section pass: 20 to 90. */
  function ScanProgress(pos: nat, fileSize: int): int {
    if fileSize > 0 then 20 + (70 * pos) / fileSize else 20
  }

  function Tick(run: Run, p: int): Run {
    if p != run.last then run.(progress := run.progress + [p], last := p) else run
  }

  /** Line `k` read in a section: the rules run on it, then progress. */
  function Step(raw: seq<string>, fileSize: int, rules: seq<Rule>, k: nat, run: Run): Run
    requires k < |raw|
  {
    Tick(run.(w := RunRules(rules, StripCR(raw[k]), run.w)), ScanProgress(StartOf(raw, k + 1), fileSize))
  }

  /** Reading from line `k` while the read position is before `e`. */
  function RunSpan(raw: seq<string>, fileSize: int, rules: seq<Rule>, k: nat, e: int, run: Run): Run
    requires k <= |raw|
    decreases |raw| - k
  {
    if k < |raw| && StartOf(raw, k) < e then RunSpan(raw, fileSize, rules, k + 1, e, Step(raw, fileSize, rules, k, run))
    else run
  }

  /** `seekg(s)`: the first line starting at or after `s`. */
  function LineAt(raw: seq<string>, s: nat, k: nat): (j: nat)
    requires k <= |raw|
    ensures k <= j <= |raw|
    decreases |raw| - k
  {
    if k < |raw| && StartOf(raw, k) < s then LineAt(raw, s, k + 1) else k
  }

  function SectionMsg(name: string): string {
    "[DEBUG] Processing section: '" + name + "'"
  }

  /** One entry of the index: logged, then (if any rule is active for its
      title) its lines read. */
  function Section(raw: seq<string>, fileSize: int, m: RuleMap<Rule>, entry: Entry<Range>, run: Run): Run {
    var run1 := run.(w := Logged(run.w, SectionMsg(entry.0)));
    var active := Active(m, entry.0);
    if active == [] then run1
    else RunSpan(raw, fileSize, active, LineAt(raw, entry.1.0, 0), entry.1.1, run1)
  }

  /** The index entries visited in key order. */
  function RunSections(raw: seq<string>, fileSize: int, m: RuleMap<Rule>, index: seq<Entry<Range>>, run: Run): Run {
    if index == [] then run
    else Section(raw, fileSize, m, index[|index| - 1], RunSections(raw, fileSize, m, index[..|index| - 1], run))
  }

  // ---------------------------------------------------------------- reference: the lines of a range

  /** The lines from `k` on whose start offset lies in `[s, e)`. */
  function LinesIn(raw: seq<string>, s: nat, e: int, k: nat): seq<nat>
    requires k <= |raw|
    decreases |raw| - k
  {
    if k == |raw| then []
    else (if s <= StartOf(raw, k) < e then [k] else []) + LinesIn(raw, s, e, k + 1)
  }

  /** Folding `Step` over an explicit list of lines. */
  function RunLines(raw: seq<string>, fileSize: int, rules: seq<Rule>, ks: seq<nat>, run: Run): Run
    requires forall i :: 0 <= i < |ks| ==> ks[i] < |raw|
  {
    if ks == [] then run else RunLines(raw, fileSize, rules, ks[1..], Step(raw, fileSize, rules, ks[0], run))
  }

  /** `LinesIn` lists exactly the lines starting inside the range, in file
      order. */
  lemma LinesInSpec(raw: seq<string>, s: nat, e: int, k: nat)
    requires k <= |raw|
    ensures var ks := LinesIn(raw, s, e, k);
            && (forall j :: j in ks <==> k <= j < |raw| && s <= StartOf(raw, j) < e)
            && (forall i, i' :: 0 <= i < i' < |ks| ==> ks[i] < ks[i'])
  {
    LinesInMembers(raw, s, e, k);
    LinesInOrdered(raw, s, e, k);
  }

  lemma {:induction false} LinesInMembers(raw: seq<string>, s: nat, e: int, k: nat)
    requires k <= |raw|
    ensures forall j :: j in LinesIn(raw, s, e, k) <==> k <= j < |raw| && s <= StartOf(raw, j) < e
    decreases |raw| - k
  {
    if k < |raw| {
      LinesInMembers(raw, s, e, k + 1);
    }
  }

  lemma {:induction false} LinesInRange(raw: seq<string>, s: nat, e: int, k: nat)
    requires k <= |raw|
    ensures forall i :: 0 <= i < |LinesIn(raw, s, e, k)| ==> k <= LinesIn(raw, s, e, k)[i] < |raw|
    decreases |raw| - k
  {
    if k < |raw| {
      LinesInRange(raw, s, e, k + 1);
      var ks := LinesIn(raw, s, e, k);
      var tail := LinesIn(raw, s, e, k + 1);
      if s <= StartOf(raw, k) < e {
        assert forall i :: 0 < i < |ks| ==> ks[i] == tail[i - 1];
      } else {
        assert ks == tail;
      }
    }
  }

  lemma {:induction false} LinesInOrdered(raw: seq<string>, s: nat, e: int, k: nat)
    requires k <= |raw|
    ensures forall i, i' :: 0 <= i < i' < |LinesIn(raw, s, e, k)| ==> LinesIn(raw, s, e, k)[i] < LinesIn(raw, s, e, k)[i']
    decreases |raw| - k
  {
    if k < |raw| {
      LinesInOrdered(raw, s, e, k + 1);
      LinesInRange(raw, s, e, k + 1);
      var tail := LinesIn(raw, s, e, k + 1);
      if s <= StartOf(raw, k) < e {
        ConsAscending(k, tail);
      }
    }
  }

  lemma ConsAscending(k: nat, tail: seq<nat>)
    requires forall i, i' :: 0 <= i < i' < |tail| ==> tail[i] < tail[i']
    requires forall i :: 0 <= i < |tail| ==> k < tail[i]
    ensures forall i, i' :: 0 <= i < i' < |[k] + tail| ==> ([k] + tail)[i] < ([k] + tail)[i']
  {
    var ks := [k] + tail;
    forall i, i' | 0 <= i < i' < |ks| ensures ks[i] < ks[i'] {
      assert ks[i'] == tail[i' - 1];
      if i > 0 { assert ks[i] == tail[i - 1]; }
    }
  }

  /** No line from `k` on starts inside the range when line `k` already
      starts at or after its end. */
  lemma {:induction false} LinesInPastEnd(raw: seq<string>, s: nat, e: int, k: nat)
    requires k <= |raw| && (k < |raw| ==> StartOf(raw, k) >= e)
    ensures LinesIn(raw, s, e, k) == []
    decreases |raw| - k
  {
    if k < |raw| {
      assert StartOf(raw, k + 1) >= e;
      LinesInPastEnd(raw, s, e, k + 1);
    }
  }

  /** Lines before the seek target start before `s` and are skipped. */
  lemma {:induction false} LinesInBeforeSeek(raw: seq<string>, s: nat, e: int, k: nat)
    requires k <= |raw|
    ensures LinesIn(raw, s, e, k) == LinesIn(raw, s, e, LineAt(raw, s, k))
    decreases |raw| - k
  {
    if k < |raw| && StartOf(raw, k) < s {
      LinesInBeforeSeek(raw, s, e, k + 1);
    }
  }

  /** Reading from the line the seek lands on reads exactly the lines
      that start inside the range, in file order. */
  lemma {:induction false} RunSpanIsRunLines(raw: seq<string>, fileSize: int, rules: seq<Rule>, s: nat, e: int, k: nat, run: Run)
    requires k <= |raw| && (k < |raw| ==> StartOf(raw, k) >= s)
    ensures LinesInBounded(raw, s, e, k)
    ensures RunSpan(raw, fileSize, rules, k, e, run) == RunLines(raw, fileSize, rules, LinesIn(raw, s, e, k), run)
    decreases |raw| - k
  {
    LinesInRange(raw, s, e, k);
    if k < |raw| && StartOf(raw, k) < e {
      if k + 1 < |raw| { StartOfMonotone(raw, k, k + 1); }
      RunSpanIsRunLines(raw, fileSize, rules, s, e, k + 1, Step(raw, fileSize, rules, k, run));
      assert LinesIn(raw, s, e, k) == [k] + LinesIn(raw, s, e, k + 1);
    } else {
      LinesInPastEnd(raw, s, e, k);
    }
  }

  predicate LinesInBounded(raw: seq<string>, s: nat, e: int, k: nat)
    requires k <= |raw|
  {
    forall i :: 0 <= i < |LinesIn(raw, s, e, k)| ==> LinesIn(raw, s, e, k)[i] < |raw|
  }

  /** A section's pass runs its active rules on exactly the lines whose
      start offset lies in its range, in file order. */
  lemma SectionReadsItsLines(raw: seq<string>, fileSize: int, rules: seq<Rule>, s: nat, e: int, run: Run)
    ensures LinesInBounded(raw, s, e, 0)
    ensures RunSpan(raw, fileSize, rules, LineAt(raw, s, 0), e, run)
            == RunLines(raw, fileSize, rules, LinesIn(raw, s, e, 0), run)
  {
    var k := LineAt(raw, s, 0);
    LinesInBeforeSeek(raw, s, e, 0);
    LineAtSpec(raw, s, 0);
    RunSpanIsRunLines(raw, fileSize, rules, s, e, k, run);
    LinesInSpec(raw, s, e, 0);
  }

  lemma {:induction false} LineAtSpec(raw: seq<string>, s: nat, k: nat)
    requires k <= |raw|
    ensures var j := LineAt(raw, s, k);
            j < |raw| ==> StartOf(raw, j) >= s
    decreases |raw| - k
  {
    if k < |raw| && StartOf(raw, k) < s {
      LineAtSpec(raw, s, k + 1);
    }
  }

  /** The file's last section as written: its range ends at -1, so no line
      starts inside it and its pass only logs its title. */
  lemma LastSectionSkipped(raw: seq<string>, fileSize: int, m: RuleMap<Rule>, t: string, run: Run)
    requires LastTitle(raw, t) && t != ""
    ensures Get(SectionIndex(raw), t).Some?
    ensures var r := Get(SectionIndex(raw), t).value;
            && r.1 == FailedTell
            && LinesIn(raw, r.0, r.1, 0) == []
            && Section(raw, fileSize, m, (t, r), run) == run.(w := Logged(run.w, SectionMsg(t)))
  {
    LastTitleIndexed(raw, FailedTell, t);
    var r := Get(SectionIndex(raw), t).value;
    LinesInPastEnd(raw, r.0, r.1, 0);
  }

  /** The file's last section with the corrected index: its pass reads
      every line after its delimiter line, to the end of the file. */
  lemma CorrectedLastSectionRead(raw: seq<string>, t: string)
    requires LastTitle(raw, t) && t != ""
    ensures Get(CorrectedIndex(raw), t).Some?
    ensures var r := Get(CorrectedIndex(raw), t).value;
            var ds := Delims(Headers(raw), |raw|);
            forall j :: j in LinesIn(raw, r.0, r.1, 0) <==> ds[|ds| - 1] < j < |raw|
  {
    var ds := Delims(Headers(raw), |raw|);
    LastTitleIndexed(raw, FileEnd(raw), t);
    LinesAfter(raw, ds[|ds| - 1]);
  }

  /** The lines starting between the end of line `d` and the end of the
      file are the lines after `d`. */
  lemma LinesAfter(raw: seq<string>, d: nat)
    requires d < |raw|
    ensures var ks := LinesIn(raw, StartOf(raw, d + 1), FileEnd(raw), 0);
            forall j :: j in ks <==> d < j < |raw|
  {
    var ks := LinesIn(raw, StartOf(raw, d + 1), FileEnd(raw), 0);
    LinesInSpec(raw, StartOf(raw, d + 1), FileEnd(raw), 0);
    forall j: nat ensures j in ks <==> d < j < |raw| {
      if j < |raw| {
        StartOfMonotone(raw, j, |raw|);
        if d < j {
          StartsInOrder(raw, d + 1, j);
        } else {
          StartOfMonotone(raw, j, d + 1);
        }
      }
    }
  }

  /** A report of one section, `------ A ------` then `x`: as written the
      section `A` is indexed as (16, -1) and its line is never read;
      corrected it is (16, 18) and line 1 is read. */
  lemma LastSectionExample()
    ensures SectionIndex(["------ A ------", "x"]) == [("A", (16, -1))]
    ensures LinesIn(["------ A ------", "x"], 16, -1, 0) == []
    ensures CorrectedIndex(["------ A ------", "x"]) == [("A", (16, 18))]
    ensures LinesIn(["------ A ------", "x"], 16, 18, 0) == [1]
  {
    var raw := ["------ A ------", "x"];
    DelimiterRoundTrip("A");
    assert raw[0] == OpenMarker + "A" + CloseMarker;
    assert raw[..1] == [raw[0]] && raw[..1][..0] == [];
    assert Headers(raw[..1]) == [Some("A")];
    assert Headers(raw) == [Some("A"), None];
    assert StartOf(raw, 1) == 16 && FileEnd(raw) == 18;
    var hs := Headers(raw);
    assert ScanLines(raw, hs, 0) == Scan([], "", 0);
    assert ScanLines(raw, hs, 1) == Scan([], "A", 16);
    assert ScanLines(raw, hs, 2) == Scan([], "A", 16);
  }

  // ---------------------------------------------------------------- mountinfo, finalize, correlate, clamp

  const MountsKey := "MOUNTS"
  const StartMountMsg := "[DEBUG] Starting mountinfo analysis in "
  const NoMountRulesMsg := "[DEBUG] No rules found for MOUNTS section, skipping mountinfo scan."
  const NoProcMsg := "[DEBUG] FS/proc directory not found, skipping mountinfo scan."

  /** Every line of every mountinfo file, '\r' stripped, through the rules. */
  function RunFiles(rules: seq<Rule>, files: seq<seq<string>>, w: World): World {
    if files == [] then w else RunFileLines(rules, files[|files| - 1], RunFiles(rules, files[..|files| - 1], w))
  }

  function RunFileLines(rules: seq<Rule>, lines: seq<string>, w: World): World {
    if lines == [] then w else RunRules(rules, StripCR(lines[|lines| - 1]), RunFileLines(rules, lines[..|lines| - 1], w))
  }

  /** The mountinfo step. `proc` is `None` when `FS/proc` does not exist,
      otherwise the lines of each `mountinfo` file found beneath it. */
  function MountScan(m: RuleMap<Rule>, procDir: string, proc: Option<seq<seq<string>>>, w: World): World {
    match proc
    case None => Logged(w, NoProcMsg)
    case Some(files) =>
      var w1 := Logged(w, StartMountMsg + procDir);
      match Get(m, MountsKey)
      case None => Logged(w1, NoMountRulesMsg)
      case Some(rules) => RunFiles(rules, files, w1)
  }

  /** `for (const auto& rule : rules) rule->finalize(result, context);` */
  function FinalizeAll(rules: seq<Rule>, spamThreshold: int, w: World): World {
    if rules == [] then w else FinalizeStep(rules[|rules| - 1], spamThreshold, FinalizeAll(rules[..|rules| - 1], spamThreshold, w))
  }

  const TrickyStoreMarker := "TrickyStore"
  const TrickyStoreStatus := "Разблокирован (TrickyStore detected)"

  predicate TrickyStoreFound(t: Tally) {
    exists f :: f in Findings(t.detections, RootHidingAndEvasion) && Contains(f, TrickyStoreMarker)
  }

  /** `run_correlation_engine`. */
  function Correlate(w: World): World {
    if TrickyStoreFound(w.tally) then w.(meta := w.meta.(bootloaderStatus := TrickyStoreStatus)) else w
  }

  /** `totalScore = min(10, totalScore)`. */
  function Clamp(w: World): World {
    w.(tally := w.tally.(score := if w.tally.score < 10 then w.tally.score else 10))
  }

  // ---------------------------------------------------------------- the whole run

  /** What `analyze` leaves behind, starting from `w0` (its context fresh):
      the world and every value passed to the progress callback. */
  function Analysis(raw: seq<string>, procDir: string, proc: Option<seq<seq<string>>>, spamThreshold: int, w0: World): Run {
    Pipeline(raw, RuleMapOf(Registered, Targets), Registered, procDir, proc, spamThreshold, w0)
  }

  /** The same steps for a given rule map and rule list. */
  function Pipeline(raw: seq<string>, m: RuleMap<Rule>, rules: seq<Rule>, procDir: string, proc: Option<seq<seq<string>>>,
                    spamThreshold: int, w0: World): Run {
    var fileSize := FileEnd(raw);
    var r := RunSections(raw, fileSize, m, SectionIndex(raw), Run(w0, [], 0));
    var w := Clamp(Correlate(FinalizeAll(rules, spamThreshold, MountScan(m, procDir, proc, r.w))));
    Run(w, Reported(-1, IndexProgressValues(raw, fileSize, |raw|)) + r.progress + [90, 95, 100], 100)
  }

  // ---------------------------------------------------------------- properties of the run

  /** The reported score never exceeds 10, and is the accumulated score
      when that is at most 10. */
  lemma ClampSpec(w: World)
    ensures Clamp(w).tally.score <= 10
    ensures w.tally.score <= 10 ==> Clamp(w) == w
    ensures w.tally.score > 10 ==> Clamp(w).tally.score == 10
    ensures Clamp(w).tally.detections == w.tally.detections && Clamp(w).meta == w.meta && Clamp(w).ctx == w.ctx
  {
  }

  /** Correlation touches only the bootloader status, and afterwards it is
      the TrickyStore status exactly when a RootHidingAndEvasion finding
      mentions TrickyStore or it already was. */
  lemma CorrelateSpec(w: World)
    ensures Correlate(w).tally == w.tally && Correlate(w).ctx == w.ctx && Correlate(w).pmHidden == w.pmHidden
    ensures Correlate(w).meta.(bootloaderStatus := w.meta.bootloaderStatus) == w.meta
    ensures Correlate(w).meta.bootloaderStatus == TrickyStoreStatus
            <==> TrickyStoreFound(w.tally) || w.meta.bootloaderStatus == TrickyStoreStatus
  {
  }

  /** Section passes add to the debug log one line per index entry, in key
      order, and change no other metadata. */
  function SectionLog(index: seq<Entry<Range>>): seq<string> {
    if index == [] then [] else SectionLog(index[..|index| - 1]) + [SectionMsg(index[|index| - 1].0)]
  }

  lemma {:induction false} RunSpanKeepsMeta(raw: seq<string>, fileSize: int, rules: seq<Rule>, k: nat, e: int, run: Run)
    requires k <= |raw|
    ensures RunSpan(raw, fileSize, rules, k, e, run).w.meta == run.w.meta
    decreases |raw| - k
  {
    if k < |raw| && StartOf(raw, k) < e {
      StepKeepsMeta(raw, fileSize, rules, k, run);
      RunSpanKeepsMeta(raw, fileSize, rules, k + 1, e, Step(raw, fileSize, rules, k, run));
    }
  }

  lemma StepKeepsMeta(raw: seq<string>, fileSize: int, rules: seq<Rule>, k: nat, run: Run)
    requires k < |raw|
    ensures Step(raw, fileSize, rules, k, run).w.meta == run.w.meta
  {
    RunRulesKeepsMeta(rules, StripCR(raw[k]), run.w);
  }

  lemma {:induction false} RunSectionsLog(raw: seq<string>, fileSize: int, m: RuleMap<Rule>, index: seq<Entry<Range>>, run: Run)
    ensures RunSections(raw, fileSize, m, index, run).w.meta
            == run.w.meta.(debugLog := run.w.meta.debugLog + SectionLog(index))
    decreases |index|
  {
    if index != [] {
      var pre := index[..|index| - 1];
      var entry := index[|index| - 1];
      RunSectionsLog(raw, fileSize, m, pre, run);
      SectionKeepsMeta(raw, fileSize, m, entry, RunSections(raw, fileSize, m, pre, run));
      SectionLogAppend(run.w.meta.debugLog, index);
    }
  }

  /** One index entry adds its own line to the debug log and nothing else. */
  lemma SectionKeepsMeta(raw: seq<string>, fileSize: int, m: RuleMap<Rule>, entry: Entry<Range>, run: Run)
    ensures Section(raw, fileSize, m, entry, run).w.meta
            == run.w.meta.(debugLog := run.w.meta.debugLog + [SectionMsg(entry.0)])
  {
    var run1 := run.(w := Logged(run.w, SectionMsg(entry.0)));
    RunSpanKeepsMeta(raw, fileSize, Active(m, entry.0), LineAt(raw, entry.1.0, 0), entry.1.1, run1);
  }

  lemma SectionLogAppend(log: seq<string>, index: seq<Entry<Range>>)
    requires index != []
    ensures log + SectionLog(index) == log + SectionLog(index[..|index| - 1]) + [SectionMsg(index[|index| - 1].0)]
  {
    var head := SectionLog(index[..|index| - 1]);
    var tail := [SectionMsg(index[|index| - 1].0)];
    assert SectionLog(index) == head + tail;
    AppendAssoc(log, head, tail);
  }

  lemma AppendAssoc<T>(a: seq<T>, b: seq<T>, c: seq<T>)
    ensures a + (b + c) == a + b + c
  {
  }

  predicate Within(ps: seq<int>, lo: int, hi: int) {
    forall i :: 0 <= i < |ps| ==> lo <= ps[i] <= hi
  }

  lemma ScanProgressBounds(raw: seq<string>, k: nat)
    requires k <= |raw|
    ensures 20 <= ScanProgress(StartOf(raw, k), FileEnd(raw)) <= 90
  {
    if k < |raw| { StartOfMonotone(raw, k, |raw|); }
    if FileEnd(raw) > 0 {
      DivBound(StartOf(raw, k), FileEnd(raw), 70);
    }
  }

  lemma {:induction false} RunSpanProgress(raw: seq<string>, rules: seq<Rule>, k: nat, e: int, run: Run)
    requires k <= |raw| && Within(run.progress, 20, 90)
    ensures Within(RunSpan(raw, FileEnd(raw), rules, k, e, run).progress, 20, 90)
    decreases |raw| - k
  {
    if k < |raw| && StartOf(raw, k) < e {
      StepProgress(raw, rules, k, run);
      RunSpanProgress(raw, rules, k + 1, e, Step(raw, FileEnd(raw), rules, k, run));
    }
  }

  lemma StepProgress(raw: seq<string>, rules: seq<Rule>, k: nat, run: Run)
    requires k < |raw| && Within(run.progress, 20, 90)
    ensures Within(Step(raw, FileEnd(raw), rules, k, run).progress, 20, 90)
  {
    ScanProgressBounds(raw, k + 1);
    TickWithin(run.(w := RunRules(rules, StripCR(raw[k]), run.w)), ScanProgress(StartOf(raw, k + 1), FileEnd(raw)), 20, 90);
  }

  lemma TickWithin(run: Run, p: int, lo: int, hi: int)
    requires Within(run.progress, lo, hi) && lo <= p <= hi
    ensures Within(Tick(run, p).progress, lo, hi)
  {
  }

  lemma {:induction false} RunSectionsProgress(raw: seq<string>, m: RuleMap<Rule>, index: seq<Entry<Range>>, run: Run)
    requires Within(run.progress, 20, 90)
    ensures Within(RunSections(raw, FileEnd(raw), m, index, run).progress, 20, 90)
    decreases |index|
  {
    if index != [] {
      var pre := index[..|index| - 1];
      var entry := index[|index| - 1];
      RunSectionsProgress(raw, m, pre, run);
      var r := RunSections(raw, FileEnd(raw), m, pre, run);
      var run1 := r.(w := Logged(r.w, SectionMsg(entry.0)));
      RunSpanProgress(raw, Active(m, entry.0), LineAt(raw, entry.1.0, 0), entry.1.1, run1);
    }
  }

  /** The indexing pass reports values within 0..20. */
  lemma IndexPassProgress(raw: seq<string>)
    ensures Within(Reported(-1, IndexProgressValues(raw, FileEnd(raw), |raw|)), 0, 20)
  {
    IndexValuesWithin(raw, |raw|);
    ReportedWithin(-1, IndexProgressValues(raw, FileEnd(raw), |raw|), 0, 20);
  }

  lemma {:induction false} IndexValuesWithin(raw: seq<string>, n: nat)
    requires n <= |raw|
    ensures Within(IndexProgressValues(raw, FileEnd(raw), n), 0, 20)
    decreases n
  {
    if n > 0 {
      IndexValuesWithin(raw, n - 1);
      IndexProgressBounds(raw, n);
      WithinConcat(IndexProgressValues(raw, FileEnd(raw), n - 1), [IndexProgress(StartOf(raw, n), FileEnd(raw))], 0, 20);
    }
  }

  /** Deduplication reports only values it was given. */
  lemma {:induction false} ReportedWithin(last: int, vs: seq<int>, lo: int, hi: int)
    requires Within(vs, lo, hi)
    ensures Within(Reported(last, vs), lo, hi)
    decreases |vs|
  {
    if vs != [] {
      ReportedWithin(last, vs[..|vs| - 1], lo, hi);
      WithinConcat(Reported(last, vs[..|vs| - 1]), if vs[|vs| - 1] != Latest(last, vs[..|vs| - 1]) then [vs[|vs| - 1]] else [], lo, hi);
    }
  }

  lemma WithinConcat(a: seq<int>, b: seq<int>, lo: int, hi: int)
    requires Within(a, lo, hi) && Within(b, lo, hi)
    ensures Within(a + b, lo, hi)
  {
    forall i | 0 <= i < |a + b| ensures lo <= (a + b)[i] <= hi {
      if i >= |a| { assert (a + b)[i] == b[i - |a|]; }
    }
  }

  /** Every value passed to the progress callback lies in 0..100: the
      indexing pass reports 0..20, the section pass 20..90; the run always
      ends with 90, 95 and 100. */
  lemma PipelineProgress(raw: seq<string>, m: RuleMap<Rule>, rules: seq<Rule>, procDir: string, proc: Option<seq<seq<string>>>,
                         spamThreshold: int, w0: World)
    ensures var ps := Pipeline(raw, m, rules, procDir, proc, spamThreshold, w0).progress;
            && Within(ps, 0, 100)
            && |ps| >= 3 && ps[|ps| - 3..] == [90, 95, 100]
  {
    IndexPassProgress(raw);
    var p1 := Reported(-1, IndexProgressValues(raw, FileEnd(raw), |raw|));
    RunSectionsProgress(raw, m, SectionIndex(raw), Run(w0, [], 0));
    var p2 := RunSections(raw, FileEnd(raw), m, SectionIndex(raw), Run(w0, [], 0)).progress;
    PipelineProgressParts(raw, m, rules, procDir, proc, spamThreshold, w0);
    ProgressJoin(p1, p2);
  }

  /** The progress of a run: the indexing pass, the section pass, then the
      three fixed values of the tail. */
  lemma PipelineProgressParts(raw: seq<string>, m: RuleMap<Rule>, rules: seq<Rule>, procDir: string, proc: Option<seq<seq<string>>>,
                              spamThreshold: int, w0: World)
    ensures Pipeline(raw, m, rules, procDir, proc, spamThreshold, w0).progress
            == Reported(-1, IndexProgressValues(raw, FileEnd(raw), |raw|))
               + RunSections(raw, FileEnd(raw), m, SectionIndex(raw), Run(w0, [], 0)).progress
               + [90, 95, 100]
  {
  }

  lemma ProgressJoin(p1: seq<int>, p2: seq<int>)
    requires Within(p1, 0, 20) && Within(p2, 20, 90)
    ensures var ps := p1 + p2 + [90, 95, 100];
            && Within(ps, 0, 100)
            && |ps| >= 3 && ps[|ps| - 3..] == [90, 95, 100]
  {
    WithinConcat(p1, p2, 0, 100);
    WithinConcat(p1 + p2, [90, 95, 100], 0, 100);
    var ps := p1 + p2 + [90, 95, 100];
    assert ps[|ps| - 3..] == [90, 95, 100];
  }

  lemma AnalysisProgress(raw: seq<string>, procDir: string, proc: Option<seq<seq<string>>>, spamThreshold: int, w0: World)
    ensures var ps := Analysis(raw, procDir, proc, spamThreshold, w0).progress;
            && Within(ps, 0, 100)
            && |ps| >= 3 && ps[|ps| - 3..] == [90, 95, 100]
  {
    PipelineProgress(raw, RuleMapOf(Registered, Targets), Registered, procDir, proc, spamThreshold, w0);
  }

  /** The final score is at most 10; the bootloader status is the
      TrickyStore status when, after every rule is finalized, a
      RootHidingAndEvasion finding mentions TrickyStore. */
  lemma PipelineOutcome(raw: seq<string>, m: RuleMap<Rule>, rules: seq<Rule>, procDir: string, proc: Option<seq<seq<string>>>,
                        spamThreshold: int, w0: World)
    ensures Pipeline(raw, m, rules, procDir, proc, spamThreshold, w0).w.tally.score <= 10
    ensures var r := RunSections(raw, FileEnd(raw), m, SectionIndex(raw), Run(w0, [], 0));
            var wf := FinalizeAll(rules, spamThreshold, MountScan(m, procDir, proc, r.w));
            TrickyStoreFound(wf.tally) ==> Pipeline(raw, m, rules, procDir, proc, spamThreshold, w0).w.meta.bootloaderStatus == TrickyStoreStatus
  {
    var r := RunSections(raw, FileEnd(raw), m, SectionIndex(raw), Run(w0, [], 0));
    var wf := FinalizeAll(rules, spamThreshold, MountScan(m, procDir, proc, r.w));
    CorrelateSpec(wf);
    ClampSpec(Correlate(wf));
  }

  lemma AnalysisScore(raw: seq<string>, procDir: string, proc: Option<seq<seq<string>>>, spamThreshold: int, w0: World)
    ensures Analysis(raw, procDir, proc, spamThreshold, w0).w.tally.score <= 10
  {
    PipelineOutcome(raw, RuleMapOf(Registered, Targets), Registered, procDir, proc, spamThreshold, w0);
  }

  // ---------------------------------------------------------------- the imperative driver

  /** Runs `rules` in order over one line. */
  method ApplyRules(rules: seq<Rule>, line: string, report: ReportData, context: AnalysisContext, pm: PR.PackageManagerRule)
    modifies report, context, pm
    ensures WorldOf(report, context, pm) == RunRules(rules, line, old(WorldOf(report, context, pm)))
  {
    ghost var w0 := WorldOf(report, context, pm);
    for i := 0 to |rules|
      invariant WorldOf(report, context, pm) == RunRules(rules[..i], line, w0)
    {
      assert rules[..i + 1][..i] == rules[..i];
      ProcessLine(rules[i], line, report, context, pm);
    }
    assert rules[..|rules|] == rules;
  }

  /** `file.seekg(s)`: walk line starts up to the first at or after `s`. */
  method SeekLine(raw: seq<string>, s: nat) returns (k: nat, pos: nat)
    ensures k == LineAt(raw, s, 0) && pos == StartOf(raw, k)
  {
    k, pos := 0, 0;
    while k < |raw| && pos < s
      invariant k <= |raw| && pos == StartOf(raw, k)
      invariant LineAt(raw, s, k) == LineAt(raw, s, 0)
      decreases |raw| - k
    {
      pos := pos + |raw[k]| + 1;
      k := k + 1;
    }
  }

  /** `while (file.tellg() < e && std::getline(file, line))`: each line is
      given to every active rule, then progress is reported if it moved. */
  method ReadSpan(raw: seq<string>, fileSize: int, rules: seq<Rule>, k0: nat, pos0: nat, e: int,
                  report: ReportData, context: AnalysisContext, pm: PR.PackageManagerRule,
                  progress0: seq<int>, last0: int)
    returns (progress: seq<int>, last: int)
    requires k0 <= |raw| && pos0 == StartOf(raw, k0)
    modifies report, context, pm
    ensures Run(WorldOf(report, context, pm), progress, last)
            == RunSpan(raw, fileSize, rules, k0, e, Run(old(WorldOf(report, context, pm)), progress0, last0))
  {
    ghost var goal := RunSpan(raw, fileSize, rules, k0, e, Run(WorldOf(report, context, pm), progress0, last0));
    var k, pos := k0, pos0;
    progress, last := progress0, last0;
    while k < |raw| && pos < e
      invariant k <= |raw| && pos == StartOf(raw, k)
      invariant RunSpan(raw, fileSize, rules, k, e, Run(WorldOf(report, context, pm), progress, last)) == goal
      decreases |raw| - k
    {
      progress, last := ReadLine(raw, fileSize, rules, k, pos, report, context, pm, progress, last);
      pos := pos + |raw[k]| + 1;
      k := k + 1;
    }
  }

  /** One `getline` of a section pass: the active rules see the line, then
      progress is reported if it moved. */
  method ReadLine(raw: seq<string>, fileSize: int, rules: seq<Rule>, k: nat, pos: nat,
                  report: ReportData, context: AnalysisContext, pm: PR.PackageManagerRule,
                  progress0: seq<int>, last0: int)
    returns (progress: seq<int>, last: int)
    requires k < |raw| && pos == StartOf(raw, k)
    modifies report, context, pm
    ensures Run(WorldOf(report, context, pm), progress, last)
            == Step(raw, fileSize, rules, k, Run(old(WorldOf(report, context, pm)), progress0, last0))
  {
    var line := StripCR(raw[k]);
    ApplyRules(rules, line, report, context, pm);
    assert StartOf(raw, k + 1) == pos + |raw[k]| + 1;
    var p := ScanProgress(pos + |raw[k]| + 1, fileSize);
    progress, last := TickProgress(WorldOf(report, context, pm), p, progress0, last0);
  }

  /** Progress is reported only when it moved. */
  method TickProgress(ghost w: World, p: int, progress0: seq<int>, last0: int) returns (progress: seq<int>, last: int)
    ensures Run(w, progress, last) == Tick(Run(w, progress0, last0), p)
  {
    progress, last := progress0, last0;
    if p != last {
      progress := progress + [p];
      last := p;
    }
  }

  /** The section pass over the index, in key order. */
  method ScanSections(raw: seq<string>, fileSize: int, m: RuleMap<Rule>, index: seq<Entry<Range>>,
                      report: ReportData, context: AnalysisContext, pm: PR.PackageManagerRule)
    returns (progress: seq<int>)
    modifies report, context, pm
    ensures Run(WorldOf(report, context, pm), progress, RunSections(raw, fileSize, m, index, Run(old(WorldOf(report, context, pm)), [], 0)).last)
            == RunSections(raw, fileSize, m, index, Run(old(WorldOf(report, context, pm)), [], 0))
  {
    ghost var w0 := WorldOf(report, context, pm);
    progress := [];
    var last := 0;
    for i := 0 to |index|
      invariant Run(WorldOf(report, context, pm), progress, last) == RunSections(raw, fileSize, m, index[..i], Run(w0, [], 0))
    {
      assert index[..i + 1][..i] == index[..i];
      var name := index[i].0;
      report.debugLog := report.debugLog + [SectionMsg(name)];
      var active := ActiveRules(m, name);
      if active != [] {
        var k, pos := SeekLine(raw, index[i].1.0);
        progress, last := ReadSpan(raw, fileSize, active, k, pos, index[i].1.1, report, context, pm, progress, last);
      }
    }
    assert index[..|index|] == index;
  }

  /** `analyze_proc_mountinfo`, or the note that `FS/proc` is missing. */
  method ScanMountInfo(m: RuleMap<Rule>, procDir: string, proc: Option<seq<seq<string>>>,
                       report: ReportData, context: AnalysisContext, pm: PR.PackageManagerRule)
    modifies report, context, pm
    ensures WorldOf(report, context, pm) == MountScan(m, procDir, proc, old(WorldOf(report, context, pm)))
  {
    if proc.None? {
      report.debugLog := report.debugLog + [NoProcMsg];
      return;
    }
    report.debugLog := report.debugLog + [StartMountMsg + procDir];
    var found := Get(m, MountsKey);
    if found.None? {
      report.debugLog := report.debugLog + [NoMountRulesMsg];
      return;
    }
    ScanFiles(found.value, proc.value, report, context, pm);
  }

  /** Each `mountinfo` file in turn. */
  method ScanFiles(rules: seq<Rule>, files: seq<seq<string>>, report: ReportData, context: AnalysisContext, pm: PR.PackageManagerRule)
    modifies report, context, pm
    ensures WorldOf(report, context, pm) == RunFiles(rules, files, old(WorldOf(report, context, pm)))
  {
    ghost var w0 := WorldOf(report, context, pm);
    for i := 0 to |files|
      invariant WorldOf(report, context, pm) == RunFiles(rules, files[..i], w0)
    {
      assert files[..i + 1][..i] == files[..i];
      ScanFile(rules, files[i], report, context, pm);
    }
    assert files[..|files|] == files;
  }

  /** `while (std::getline(file, line))` over one `mountinfo` file. */
  method ScanFile(rules: seq<Rule>, lines: seq<string>, report: ReportData, context: AnalysisContext, pm: PR.PackageManagerRule)
    modifies report, context, pm
    ensures WorldOf(report, context, pm) == RunFileLines(rules, lines, old(WorldOf(report, context, pm)))
  {
    ghost var w0 := WorldOf(report, context, pm);
    for j := 0 to |lines|
      invariant WorldOf(report, context, pm) == RunFileLines(rules, lines[..j], w0)
    {
      assert lines[..j + 1][..j] == lines[..j];
      ApplyRules(rules, StripCR(lines[j]), report, context, pm);
    }
    assert lines[..|lines|] == lines;
  }

  /** Every registered rule's `finalize`, in registration order. */
  method FinalizeRules(spamThreshold: int, report: ReportData, context: AnalysisContext, pm: PR.PackageManagerRule)
    modifies report, context, pm
    ensures WorldOf(report, context, pm) == FinalizeAll(Registered, spamThreshold, old(WorldOf(report, context, pm)))
  {
    ghost var w0 := WorldOf(report, context, pm);
    for i := 0 to |Registered|
      invariant WorldOf(report, context, pm) == FinalizeAll(Registered[..i], spamThreshold, w0)
    {
      assert Registered[..i + 1][..i] == Registered[..i];
      Finalize(Registered[i], spamThreshold, report, context, pm);
    }
    assert Registered[..|Registered|] == Registered;
  }

  /** `run_correlation_engine`: look through the RootHidingAndEvasion
      findings for one mentioning TrickyStore. */
  method RunCorrelationEngine(report: ReportData)
    modifies report
    ensures report.Scoring() == old(report.Scoring())
    ensures report.Metadata() == (if TrickyStoreFound(old(report.Scoring())) then old(report.Metadata()).(bootloaderStatus := TrickyStoreStatus) else old(report.Metadata()))
  {
    var detected := false;
    if RootHidingAndEvasion in report.detections {
      var all := report.detections[RootHidingAndEvasion];
      var rest := all;
      while rest != {} && !detected
        invariant rest <= all
        invariant detected ==> exists f :: f in all && Contains(f, TrickyStoreMarker)
        invariant !detected ==> forall f :: f in all - rest ==> !Contains(f, TrickyStoreMarker)
        decreases |rest|
      {
        var f :| f in rest;
        if Contains(f, TrickyStoreMarker) {
          detected := true;
        }
        rest := rest - {f};
      }
    }
    if detected {
      report.bootloaderStatus := TrickyStoreStatus;
    }
  }

  /** `ReportAnalyzer`: the registered rules, of which only
      PackageManagerRule keeps state of its own between lines. */
  class ReportAnalyzer {
    const pm: PR.PackageManagerRule

    constructor ()
      ensures fresh(pm) && !pm.isHidden
    {
      pm := new PR.PackageManagerRule();
    }

    /** `analyze` on a report whose lines are `raw` (each ended by a
        newline); `proc` stands for the `FS/proc` directory (see
        `MountScan`). Returns the values passed to the progress callback. */
    method Analyze(raw: seq<string>, procDir: string, proc: Option<seq<seq<string>>>, spamThreshold: int, report: ReportData)
      returns (progress: seq<int>)
      modifies report, pm
      ensures var r := Analysis(raw, procDir, proc, spamThreshold,
                                World(old(report.Scoring()), old(report.Metadata()), InitialCtx, old(pm.isHidden)));
              && report.Scoring() == r.w.tally && report.Metadata() == r.w.meta
              && pm.isHidden == r.w.pmHidden && progress == r.progress
    {
      var fileSize := FileEnd(raw);
      var index, indexProgress := BuildSectionIndex(raw, fileSize);
      var ruleMap := MapRulesToSections();
      var context := new AnalysisContext();
      ghost var w0 := WorldOf(report, context, pm);
      var sectionProgress := ScanSections(raw, fileSize, ruleMap, index, report, context, pm);
      ghost var r := RunSections(raw, fileSize, ruleMap, index, Run(w0, [], 0));
      ScanMountInfo(ruleMap, procDir, proc, report, context, pm);
      ghost var w3 := MountScan(ruleMap, procDir, proc, r.w);
      FinalizeRules(spamThreshold, report, context, pm);
      ghost var w4 := FinalizeAll(Registered, spamThreshold, w3);
      RunCorrelationEngine(report);
      assert WorldOf(report, context, pm) == Correlate(w4);
      if report.totalScore > 10 {
        report.totalScore := 10;
      }
      assert WorldOf(report, context, pm) == Clamp(Correlate(w4));
      progress := indexProgress + sectionProgress + [90, 95, 100];
      assert Run(WorldOf(report, context, pm), progress, 100)
          == Pipeline(raw, ruleMap, Registered, procDir, proc, spamThreshold, w0);
    }
  }
}
