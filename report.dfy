/** The run's output (`ReportData`) and the per-run scratchpad shared by the
    rules (`AnalysisContext`), together with the finding-emission idiom every
    rule uses: insert the finding text into its category's set and add the
    finding's score only if the insert was new. */
module Report {
  import opened Strings

  datatype Category =
    | RootAndFrameworks
    | RootHidingAndEvasion
    | ProhibitedPackages
    | Anomalies
    | FileSystemAndMounts
    | AnomalousLogs
    | SuspiciousProperties
    | CustomBuild
    | AppAnalysis

  /** `std::map<DetectionCategory, std::set<std::string>>`. */
  type Detections = map<Category, set<string>>

  /** `detections[c]`, an absent key reading as the empty set. */
  function Findings(d: Detections, c: Category): set<string> {
    if c in d then d[c] else {}
  }

  /** One attempted finding: its category, its text and the points its
      rule's `getScore` gives it. */
  datatype Emission = Emission(cat: Category, msg: string, pts: int)

  /** The scoring part of `ReportData`. */
  datatype Tally = Tally(detections: Detections, score: int)

  /** The emission idiom: the text joins its category's set; the score
      grows by the points exactly when the text was not there before. */
  function Emitted(t: Tally, e: Emission): (r: Tally)
    ensures Findings(r.detections, e.cat) == Findings(t.detections, e.cat) + {e.msg}
    ensures forall c :: c != e.cat ==> Findings(r.detections, c) == Findings(t.detections, c)
    ensures r.score == t.score + (if e.msg in Findings(t.detections, e.cat) then 0 else e.pts)
  {
    var old_set := Findings(t.detections, e.cat);
    Tally(t.detections[e.cat := old_set + {e.msg}],
          if e.msg in old_set then t.score else t.score + e.pts)
  }

  /** `detections[cat].insert(msg); totalScore += pts;` with no check of
      whether the insert was new: the points are added every time. */
  function Inserted(t: Tally, e: Emission): (r: Tally)
    ensures Findings(r.detections, e.cat) == Findings(t.detections, e.cat) + {e.msg}
    ensures forall c :: c != e.cat ==> Findings(r.detections, c) == Findings(t.detections, c)
    ensures r.score == t.score + e.pts
  {
    Tally(t.detections[e.cat := Findings(t.detections, e.cat) + {e.msg}], t.score + e.pts)
  }

  /** Emissions performed one after the other, in order. */
  function EmittedAll(t: Tally, es: seq<Emission>): Tally
    decreases |es|
  {
    if es == [] then t else EmittedAll(Emitted(t, es[0]), es[1..])
  }

  /** The texts a list of emissions files under category `c`. */
  function MessagesOf(es: seq<Emission>, c: Category): (r: set<string>)
    ensures forall i :: 0 <= i < |es| && es[i].cat == c ==> es[i].msg in r
    ensures forall m :: m in r ==> exists i :: 0 <= i < |es| && es[i].cat == c && es[i].msg == m
  {
    if es == [] then {}
    else
      var rest := MessagesOf(es[1..], c);
      assert forall i :: 1 <= i < |es| ==> es[i] == es[1..][i - 1];
      (if es[0].cat == c then {es[0].msg} else {}) + rest
  }

  function SumPts(es: seq<Emission>): int {
    if es == [] then 0 else es[0].pts + SumPts(es[1..])
  }

  predicate NonNegative(es: seq<Emission>) {
    forall i :: 0 <= i < |es| ==> es[i].pts >= 0
  }

  lemma EmittedOne(t: Tally, e: Emission)
    ensures EmittedAll(t, [e]) == Emitted(t, e)
  {
    assert [e][1..] == [];
  }

  lemma {:induction false} EmittedAllAppend(t: Tally, a: seq<Emission>, b: seq<Emission>)
    ensures EmittedAll(t, a + b) == EmittedAll(EmittedAll(t, a), b)
    decreases |a|
  {
    if a == [] {
      assert a + b == b;
    } else {
      assert (a + b)[1..] == a[1..] + b;
      EmittedAllAppend(Emitted(t, a[0]), a[1..], b);
    }
  }

  /** After a series of emissions each category holds exactly its old
      findings plus the texts emitted under it. */
  lemma {:induction false} EmittedAllFindings(t: Tally, es: seq<Emission>, c: Category)
    ensures Findings(EmittedAll(t, es).detections, c) == Findings(t.detections, c) + MessagesOf(es, c)
    decreases |es|
  {
    if es != [] {
      EmittedAllFindings(Emitted(t, es[0]), es[1..], c);
    }
  }

  /** Emitting a text already filed under its category changes nothing. */
  lemma RepeatedEmissionIsNoOp(t: Tally, e: Emission)
    requires e.msg in Findings(t.detections, e.cat)
    ensures Emitted(t, e) == t
  {
    assert Findings(t.detections, e.cat) + {e.msg} == t.detections[e.cat];
    assert t.detections[e.cat := t.detections[e.cat]] == t.detections;
  }

  /** Replaying the same emissions a second time changes nothing: re-detecting
      the same findings never scores twice. */
  lemma {:induction false} EmittedAllIdempotent(t: Tally, es: seq<Emission>)
    ensures EmittedAll(EmittedAll(t, es), es) == EmittedAll(t, es)
  {
    var u := EmittedAll(t, es);
    forall i | 0 <= i < |es| ensures es[i].msg in Findings(u.detections, es[i].cat) {
      EmittedAllFindings(t, es, es[i].cat);
    }
    ReplayPresent(u, es);
  }

  lemma {:induction false} ReplayPresent(u: Tally, es: seq<Emission>)
    requires forall i :: 0 <= i < |es| ==> es[i].msg in Findings(u.detections, es[i].cat)
    ensures EmittedAll(u, es) == u
    decreases |es|
  {
    if es != [] {
      RepeatedEmissionIsNoOp(u, es[0]);
      forall i | 0 <= i < |es[1..]| ensures es[1..][i].msg in Findings(u.detections, es[1..][i].cat) {
        assert es[1..][i] == es[i + 1];
      }
      ReplayPresent(u, es[1..]);
    }
  }

  /** With non-negative points the score never drops and grows by at most
      the sum of the points. */
  lemma {:induction false} EmittedAllScoreBounds(t: Tally, es: seq<Emission>)
    requires NonNegative(es)
    ensures t.score <= EmittedAll(t, es).score <= t.score + SumPts(es)
    decreases |es|
  {
    if es != [] {
      assert NonNegative(es[1..]) by {
        forall i | 0 <= i < |es[1..]| ensures es[1..][i].pts >= 0 { assert es[1..][i] == es[i + 1]; }
      }
      EmittedAllScoreBounds(Emitted(t, es[0]), es[1..]);
    }
  }

  /** The emissions of a loop over `xs` that performs `f(x)` for each
      element in turn. */
  function Collect<T>(xs: seq<T>, f: T -> seq<Emission>): seq<Emission>
    decreases |xs|
  {
    if xs == [] then [] else Collect(xs[..|xs| - 1], f) + f(xs[|xs| - 1])
  }

  lemma CollectStep<T>(xs: seq<T>, i: nat, f: T -> seq<Emission>)
    requires i < |xs|
    ensures Collect(xs[..i + 1], f) == Collect(xs[..i], f) + f(xs[i])
  {
    assert xs[..i + 1][..i] == xs[..i];
  }

  lemma {:induction false} MessagesOfAppend(a: seq<Emission>, b: seq<Emission>, c: Category)
    ensures MessagesOf(a + b, c) == MessagesOf(a, c) + MessagesOf(b, c)
  {
    forall m | m in MessagesOf(a + b, c) ensures m in MessagesOf(a, c) + MessagesOf(b, c) {
      var i :| 0 <= i < |a + b| && (a + b)[i].cat == c && (a + b)[i].msg == m;
      if i >= |a| { assert (a + b)[i] == b[i - |a|]; }
    }
    forall m | m in MessagesOf(a, c) + MessagesOf(b, c) ensures m in MessagesOf(a + b, c) {
      if m in MessagesOf(a, c) {
        var i :| 0 <= i < |a| && a[i].cat == c && a[i].msg == m;
        assert (a + b)[i] == a[i];
      } else {
        var i :| 0 <= i < |b| && b[i].cat == c && b[i].msg == m;
        assert (a + b)[|a| + i] == b[i];
      }
    }
  }

  /** A loop files under `c` exactly what its iterations file there. */
  lemma {:induction false} CollectMessages<T>(xs: seq<T>, f: T -> seq<Emission>, c: Category, m: string)
    ensures m in MessagesOf(Collect(xs, f), c) <==> exists i :: 0 <= i < |xs| && m in MessagesOf(f(xs[i]), c)
    decreases |xs|
  {
    if xs != [] {
      var n := |xs| - 1;
      CollectMessages(xs[..n], f, c, m);
      MessagesOfAppend(Collect(xs[..n], f), f(xs[n]), c);
      if m in MessagesOf(Collect(xs[..n], f), c) {
        var i :| 0 <= i < n && m in MessagesOf(f(xs[..n][i]), c);
        assert xs[..n][i] == xs[i];
      } else if m !in MessagesOf(f(xs[n]), c) {
        forall i | 0 <= i < |xs| ensures m !in MessagesOf(f(xs[i]), c) {
          if i < n { assert xs[..n][i] == xs[i]; }
        }
      }
    }
  }

  /** Every emission of a loop comes from one of its iterations. */
  lemma {:induction false} CollectFrom<T>(xs: seq<T>, f: T -> seq<Emission>, e: Emission)
    requires e in Collect(xs, f)
    ensures exists i :: 0 <= i < |xs| && e in f(xs[i])
    decreases |xs|
  {
    var n := |xs| - 1;
    if e !in f(xs[n]) {
      CollectFrom(xs[..n], f, e);
      var i :| 0 <= i < n && e in f(xs[..n][i]);
      assert xs[..n][i] == xs[i];
    }
  }

  /** Metadata strings of `ReportData` and its diagnostic log. */
  datatype Meta = Meta(seLinuxStatus: string, bootloaderStatus: string,
                       buildFingerprint: string, debugLog: seq<string>)

  /** `ReportData`, owned by the caller and mutated by the driver and rules. */
  class ReportData {
    var detections: Detections
    var totalScore: int
    var seLinuxStatus: string
    var bootloaderStatus: string
    var buildFingerprint: string
    var debugLog: seq<string>

    constructor ()
      ensures Scoring() == Tally(map[], 0)
      ensures Metadata() == Meta("", "", "", [])
    {
      detections, totalScore := map[], 0;
      seLinuxStatus, bootloaderStatus, buildFingerprint, debugLog := "", "", "", [];
    }

    function Scoring(): Tally reads this {
      Tally(detections, totalScore)
    }

    function Metadata(): Meta reads this {
      Meta(seLinuxStatus, bootloaderStatus, buildFingerprint, debugLog)
    }

    /** `if (detections[cat].insert(msg).second) totalScore += pts;` */
    method Emit(e: Emission) returns (added: bool)
      modifies this
      ensures added == (e.msg !in Findings(old(detections), e.cat))
      ensures Scoring() == Emitted(old(Scoring()), e)
      ensures Metadata() == old(Metadata())
    {
      var s := Findings(detections, e.cat);
      added := e.msg !in s;
      detections := detections[e.cat := s + {e.msg}];
      if added {
        totalScore := totalScore + e.pts;
      }
    }

    /** `detections[cat].insert(msg); totalScore += pts;` with no check
        of whether the insert was new. */
    method InsertAndAdd(e: Emission)
      modifies this
      ensures Scoring() == Inserted(old(Scoring()), e)
      ensures Metadata() == old(Metadata())
    {
      detections := detections[e.cat := Findings(detections, e.cat) + {e.msg}];
      totalScore := totalScore + e.pts;
    }
  }

  datatype SELinuxState = Enforcing | Permissive

  /** Abstract value of `AnalysisContext`.  `suspiciousRootProcs` is a
      `std::set<std::string>`, kept as its ascending element sequence. */
  datatype Ctx = Ctx(
    magiskdPid: Option<int>,
    zygotePpid: Option<int>,
    suspiciousRootProcs: seq<string>,
    reportedLogThreats: set<string>,
    selinuxDenialCount: nat,
    zygoteForkCount: nat,
    lastDetectedFramework: string,
    seLinuxState: SELinuxState,
    bootloaderStateConfirmedByKernel: bool,
    verifiedBootState: string,
    currentPackageName: string,
    currentSeinfo: string,
    lastPidDump: string)

  /** A freshly constructed context. */
  const InitialCtx := Ctx(None, None, [], {}, 0, 0, "", Enforcing, false, "", "", "", "")

  /** `AnalysisContext`: created fresh for one run and shared by all rules. */
  class AnalysisContext {
    var magiskdPid: Option<int>
    var zygotePpid: Option<int>
    var suspiciousRootProcs: seq<string>
    var reportedLogThreats: set<string>
    var selinuxDenialCount: nat
    var zygoteForkCount: nat
    var lastDetectedFramework: string
    var seLinuxState: SELinuxState
    var bootloaderStateConfirmedByKernel: bool
    var verifiedBootState: string
    var currentPackageName: string
    var currentSeinfo: string
    var lastPidDump: string

    constructor ()
      ensures State() == InitialCtx
    {
      magiskdPid, zygotePpid := None, None;
      suspiciousRootProcs, reportedLogThreats := [], {};
      selinuxDenialCount, zygoteForkCount := 0, 0;
      lastDetectedFramework, seLinuxState := "", Enforcing;
      bootloaderStateConfirmedByKernel, verifiedBootState := false, "";
      currentPackageName, currentSeinfo, lastPidDump := "", "", "";
    }

    function State(): Ctx reads this {
      Ctx(magiskdPid, zygotePpid, suspiciousRootProcs, reportedLogThreats,
          selinuxDenialCount, zygoteForkCount, lastDetectedFramework, seLinuxState,
          bootloaderStateConfirmedByKernel, verifiedBootState,
          currentPackageName, currentSeinfo, lastPidDump)
    }
  }
}
