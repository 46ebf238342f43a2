/** Rules over the package-manager dump and the process list
    (src/rules/ProcessRules.cpp). */
module ProcessRules {
  import opened Strings
  import opened Report
  import opened Chains
  import opened Patterns

  // ---------------------------------------------------------------- PackageManagerRule

  const FacebookLiteMsg := "Suspicious App Present: " + "com.facebook.lite" + " detected (Can be used for " + "cheats, e.g., Elysium)."

  function SeinfoMsg(name: string, seinfo: string): string {
    "App '" + name + "' has " + "non-standard SELinux context" + ": " + seinfo
  }

  const PackageScores: seq<Branch<int>> := [Has("non-standard SELinux context", 2), Has("com.facebook.lite", 0)]

  /** `process_current_package`: what the flush of the open record files. */
  function FlushHits(c: Ctx): seq<Emission> {
    if c.currentPackageName == "" then []
    else
      (if c.currentPackageName == "com.facebook.lite"
       then [Emission(Anomalies, FacebookLiteMsg, ScoreOf(FacebookLiteMsg, PackageScores))] else [])
      + (if c.currentSeinfo != "" && !Contains(c.currentSeinfo, "untrusted_app")
         then [Emission(AppAnalysis, SeinfoMsg(c.currentPackageName, c.currentSeinfo),
                        ScoreOf(SeinfoMsg(c.currentPackageName, c.currentSeinfo), PackageScores))]
         else [])
  }

  /** The context after the flush: the record is closed. */
  function FlushCtx(c: Ctx): Ctx {
    if c.currentPackageName == "" then c else c.(currentPackageName := "", currentSeinfo := "")
  }

  /** `is_hidden` after the flush. */
  function FlushHidden(c: Ctx, hidden: bool): bool {
    if c.currentPackageName == "" then hidden else false
  }

  /** `seinfo=` value: from after the marker up to the first space. */
  function SeinfoValue(line: string): (r: string)
    requires Contains(line, "seinfo=")
    ensures ' ' !in r
    ensures OccursAt(line, "seinfo=" + r, Find(line, "seinfo=").value)
  {
    var pos := Find(line, "seinfo=").value;
    var v := line[pos + 7..];
    assert line[pos..pos + 7] == "seinfo=";
    match FindChar(v, ' ')
    case None =>
      assert line[pos..] == line[pos..pos + 7] + v;
      v
    case Some(k) =>
      assert line[pos..pos + 7 + k] == line[pos..pos + 7] + v[..k];
      v[..k]
  }

  /** One line of the record parser: what it files, the new context and
      the new `is_hidden`. */
  function PackageLineStep(line: string, c: Ctx, hidden: bool): (seq<Emission>, Ctx, bool) {
    if StartsWith(line, "  Package [") then
      var c1 := FlushCtx(c);
      var part := line[11..];
      var name := match FindChar(part, ']') case None => c1.currentPackageName case Some(k) => part[..k];
      (FlushHits(c), c1.(currentPackageName := name), FlushHidden(c, hidden))
    else if c.currentPackageName != "" && Contains(line, "hidden=true") then
      ([], c, true)
    else if c.currentPackageName != "" && Contains(line, "seinfo=") then
      ([], c.(currentSeinfo := SeinfoValue(line)), hidden)
    else
      ([], c, hidden)
  }

  /** No open record means no pending `seinfo`. */
  predicate RecordInv(c: Ctx) {
    c.currentPackageName == "" ==> c.currentSeinfo == ""
  }

  /** The parser keeps the record invariant; every step changes only the
      two record fields of the context; a header line names the package
      before its ']' (or leaves no record open when there is none); and the
      `is_hidden` flag never influences what is filed. */
  lemma PackageLineStepSpec(line: string, c: Ctx, hidden: bool)
    requires RecordInv(c)
    ensures var (es, c2, _) := PackageLineStep(line, c, hidden);
            && RecordInv(c2)
            && c2.(currentPackageName := c.currentPackageName, currentSeinfo := c.currentSeinfo) == c
            && (StartsWith(line, "  Package [") ==>
                  es == FlushHits(c) &&
                  c2.currentSeinfo == "" &&
                  (']' in line[11..] ==> c2.currentPackageName + "]" == line[11..][..|c2.currentPackageName| + 1]) &&
                  (']' !in line[11..] ==> c2.currentPackageName == ""))
            && (!StartsWith(line, "  Package [") ==> es == [])
            && PackageLineStep(line, c, !hidden).0 == es
  {
    if StartsWith(line, "  Package [") {
      var part := line[11..];
      match FindChar(part, ']') {
        case Some(k) => assert part[..k + 1] == part[..k] + "]";
        case None =>
      }
    }
  }

  /** A flush files nothing for an empty record and otherwise closes it. */
  lemma FlushSpec(c: Ctx)
    ensures c.currentPackageName == "" ==> FlushHits(c) == [] && FlushCtx(c) == c
    ensures c.currentPackageName != "" ==> FlushCtx(c).currentPackageName == "" && FlushCtx(c).currentSeinfo == ""
    ensures c.currentPackageName != "" ==>
              (SeinfoMsg(c.currentPackageName, c.currentSeinfo) in MessagesOf(FlushHits(c), AppAnalysis) <==>
               c.currentSeinfo != "" && !Contains(c.currentSeinfo, "untrusted_app"))
  {
    var es := FlushHits(c);
    if c.currentPackageName != "" {
      var m := SeinfoMsg(c.currentPackageName, c.currentSeinfo);
      if m in MessagesOf(es, AppAnalysis) {
        var i :| 0 <= i < |es| && es[i].cat == AppAnalysis && es[i].msg == m;
      }
    }
  }

  /** The com.facebook.lite finding adds nothing to the score. */
  lemma FacebookLiteScoresZero()
    ensures ScoreOf(FacebookLiteMsg, PackageScores) == 0
  {
    MissingCharNotContained(FacebookLiteMsg, "non-standard SELinux context", 15);
    HasFires(FacebookLiteMsg, "non-standard SELinux context", 2);
    HasFires(FacebookLiteMsg, "com.facebook.lite", 0);
  }

  /** A non-standard SELinux context scores 2. */
  lemma SeinfoScore(name: string, seinfo: string)
    ensures ScoreOf(SeinfoMsg(name, seinfo), PackageScores) == 2
  {
    var m := SeinfoMsg(name, seinfo);
    assert m == ("App '" + name + "' has ") + "non-standard SELinux context" + (": " + seinfo);
    ContainsMiddle("App '" + name + "' has ", "non-standard SELinux context", ": " + seinfo);
    HasFires(m, "non-standard SELinux context", 2);
    FirstBranchDecides(m, PackageScores);
  }

  /** `PackageManagerRule`: the only rule with state of its own,
      `is_hidden`, which lives as long as the analyzer that owns it. */
  class PackageManagerRule {
    var isHidden: bool

    constructor ()
      ensures !isHidden
    {
      isHidden := false;
    }

    method ProcessCurrentPackage(report: ReportData, context: AnalysisContext)
      modifies this, report, context
      ensures report.Scoring() == EmittedAll(old(report.Scoring()), FlushHits(old(context.State())))
      ensures report.Metadata() == old(report.Metadata())
      ensures context.State() == FlushCtx(old(context.State()))
      ensures isHidden == FlushHidden(old(context.State()), old(isHidden))
    {
      if context.currentPackageName == "" {
        return;
      }
      ghost var t0 := report.Scoring();
      ghost var c0 := context.State();
      ghost var first: seq<Emission> := [];
      if context.currentPackageName == "com.facebook.lite" {
        var e := Emission(Anomalies, FacebookLiteMsg, ScoreOf(FacebookLiteMsg, PackageScores));
        first := [e];
        var _ := report.Emit(e);
      }
      assert report.Scoring() == EmittedAll(t0, first);
      ghost var t1 := report.Scoring();
      ghost var second: seq<Emission> := [];
      if context.currentSeinfo != "" && !Contains(context.currentSeinfo, "untrusted_app") {
        var reportStr := SeinfoMsg(context.currentPackageName, context.currentSeinfo);
        var e := Emission(AppAnalysis, reportStr, ScoreOf(reportStr, PackageScores));
        second := [e];
        var _ := report.Emit(e);
      }
      assert report.Scoring() == EmittedAll(t1, second);
      EmittedAllAppend(t0, first, second);
      assert FlushHits(c0) == first + second;
      context.currentPackageName := "";
      context.currentSeinfo := "";
      isHidden := false;
    }

    method ProcessLine(line: string, report: ReportData, context: AnalysisContext)
      modifies this, report, context
      ensures var (es, c, h) := PackageLineStep(line, old(context.State()), old(isHidden));
              report.Scoring() == EmittedAll(old(report.Scoring()), es) &&
              context.State() == c && isHidden == h
      ensures report.Metadata() == old(report.Metadata())
    {
      if StartsWith(line, "  Package [") {
        ProcessCurrentPackage(report, context);
        var pkgPart := line[11..];
        var endPos := FindChar(pkgPart, ']');
        if endPos.Some? {
          context.currentPackageName := pkgPart[..endPos.value];
        }
      } else if context.currentPackageName != "" && Contains(line, "hidden=true") {
        isHidden := true;
      } else if context.currentPackageName != "" && Contains(line, "seinfo=") {
        var seinfoPos := Find(line, "seinfo=").value;
        var seinfoVal := line[seinfoPos + 7..];
        var space := FindChar(seinfoVal, ' ');
        if space.Some? {
          seinfoVal := seinfoVal[..space.value];
        }
        context.currentSeinfo := seinfoVal;
      }
    }

    method Finalize(report: ReportData, context: AnalysisContext)
      modifies this, report, context
      ensures report.Scoring() == EmittedAll(old(report.Scoring()), FlushHits(old(context.State())))
      ensures report.Metadata() == old(report.Metadata())
      ensures context.State() == FlushCtx(old(context.State()))
      ensures isHidden == FlushHidden(old(context.State()), old(isHidden))
    {
      ProcessCurrentPackage(report, context);
    }
  }

  // ---------------------------------------------------------------- AppRootUsageRule

  function RootUsageMsg(app: string): string {
    "Root Usage: App" + " '" + app + "' was granted root access."
  }

  const RootUsageScores: seq<Branch<int>> := [Has("Root Usage: App", 2)]

  /** The gate: "su" and either "allow" or "grant". */
  predicate IsSuGrantLine(line: string) {
    Contains(line, "su") && (Contains(line, "allow") || Contains(line, "grant"))
  }

  function AppRootUsageHits(line: string): seq<Emission> {
    if !IsSuGrantLine(line) then []
    else match Search(line, SuGrantAt)
      case None => []
      case Some(app) =>
        if app == "" then []
        else [Emission(AppAnalysis, RootUsageMsg(app), ScoreOf(RootUsageMsg(app), RootUsageScores))]
  }

  lemma RootUsageScore(app: string)
    ensures ScoreOf(RootUsageMsg(app), RootUsageScores) == 2
  {
    assert RootUsageMsg(app) == "Root Usage: App" + (" '" + app + "' was granted root access.");
    ContainsFront("Root Usage: App", " '" + app + "' was granted root access.");
    HasFires(RootUsageMsg(app), "Root Usage: App", 2);
    FirstBranchDecides(RootUsageMsg(app), RootUsageScores);
  }

  /** The rule files something exactly on a line that has the gate words
      and somewhere matches `pkg=(.+?)\s|cmd=(.+?)\s`; a line without the
      gate words is never reported. */
  lemma AppRootUsageGate(line: string)
    ensures AppRootUsageHits(line) != [] <==> IsSuGrantLine(line) && Search(line, SuGrantAt).Some?
  {
    if IsSuGrantLine(line) && Search(line, SuGrantAt).Some? {
      var app := Search(line, SuGrantAt).value;
      var i :| 0 <= i <= |line| && SuGrantAt(line, i) == Some(app);
      assert app != [];
    }
  }

  /** On a gated line, the group of the leftmost match (`pkg=` tried
      before `cmd=` at each position) is the app reported, for 2 points. */
  lemma AppRootUsageFound(line: string, app: string)
    requires IsSuGrantLine(line) && Search(line, SuGrantAt) == Some(app)
    ensures AppRootUsageHits(line) == [Emission(AppAnalysis, RootUsageMsg(app), 2)]
  {
    var i :| 0 <= i <= |line| && SuGrantAt(line, i) == Some(app);
    RootUsageScore(app);
  }

  /** On a grant line that opens with `cmd=<app> `, the `cmd=` group is
      the app reported. */
  lemma AppRootUsageCmd(app: string, sp: char, rest: string)
    requires app != [] && !IsLineTerminator(app[0])
    requires forall k :: 1 <= k < |app| ==> !IsRegexSpace(app[k])
    requires IsRegexSpace(sp)
    requires IsSuGrantLine("cmd=" + app + [sp] + rest)
    ensures AppRootUsageHits("cmd=" + app + [sp] + rest) == [Emission(AppAnalysis, RootUsageMsg(app), 2)]
  {
    var line := "cmd=" + app + [sp] + rest;
    LazyUntilSpaceRoundTrip("cmd=", app, sp, rest);
    assert line[..4] == "cmd=";
    assert !OccursAt(line, "pkg=", 0);
    assert SuGrantAt(line, 0) == Some(app);
    SearchAtStart(line, SuGrantAt);
    AppRootUsageFound(line, app);
  }

  /** On a grant line that opens with `pkg=<app> `, the app is reported
      for 2 points. */
  lemma AppRootUsageSpec(app: string, sp: char, rest: string)
    requires app != [] && !IsLineTerminator(app[0])
    requires forall k :: 1 <= k < |app| ==> !IsRegexSpace(app[k])
    requires IsRegexSpace(sp)
    requires IsSuGrantLine("pkg=" + app + [sp] + rest)
    ensures AppRootUsageHits("pkg=" + app + [sp] + rest) == [Emission(AppAnalysis, RootUsageMsg(app), 2)]
  {
    var line := "pkg=" + app + [sp] + rest;
    LazyUntilSpaceRoundTrip("pkg=", app, sp, rest);
    assert SuGrantAt(line, 0) == Some(app);
    SearchAtStart(line, SuGrantAt);
    RootUsageScore(app);
  }

  method ProcessAppRootUsage(line: string, report: ReportData)
    modifies report
    ensures report.Scoring() == EmittedAll(old(report.Scoring()), AppRootUsageHits(line))
    ensures report.Metadata() == old(report.Metadata())
  {
    if Contains(line, "su") && (Contains(line, "allow") || Contains(line, "grant")) {
      var found := Search(line, SuGrantAt);
      if found.Some? {
        var app := found.value;
        if app != "" {
          var _ := report.Emit(Emission(AppAnalysis, RootUsageMsg(app), ScoreOf(RootUsageMsg(app), RootUsageScores)));
        }
      }
    }
  }

  // ---------------------------------------------------------------- TracerPidRule

  const TracerMsg := "CRITICAL: Active process tracer detected (" + "TracerPid is not 0" +
                     "). This may indicate Frida or other instrumentation frameworks."
  const TracerScores: seq<Branch<int>> := [Has("TracerPid is not 0", 7)]

  predicate IsTraced(line: string) {
    StartsWith(line, "TracerPid:") && TrimLeft(line[10..]) != "0"
  }

  function TracerPidHits(line: string): seq<Emission> {
    if IsTraced(line) then [Emission(Anomalies, TracerMsg, ScoreOf(TracerMsg, TracerScores))] else []
  }

  /** A "TracerPid:" line whose value, after blanks, is anything but "0"
      is reported for 7 points. */
  lemma TracerPidSpec(line: string)
    ensures TracerPidHits(line) != [] <==> StartsWith(line, "TracerPid:") && TrimLeft(line[10..]) != "0"
    ensures TracerPidHits(line) != [] ==> TracerPidHits(line) == [Emission(Anomalies, TracerMsg, 7)]
  {
    ContainsMiddle("CRITICAL: Active process tracer detected (", "TracerPid is not 0",
                   "). This may indicate Frida or other instrumentation frameworks.");
    HasFires(TracerMsg, "TracerPid is not 0", 7);
    FirstBranchDecides(TracerMsg, TracerScores);
  }

  /** Tabs and spaces before the value do not matter. */
  lemma TracerPidBlanks(pad: string, v: string)
    requires forall k :: 0 <= k < |pad| ==> IsBlank(pad[k])
    requires v == [] || !IsBlank(v[0])
    ensures IsTraced("TracerPid:" + pad + v) <==> v != "0"
    decreases |pad|
  {
    var line := "TracerPid:" + pad + v;
    assert line[..10] == "TracerPid:";
    assert line[10..] == pad + v;
    TrimBlanks(pad, v);
  }

  lemma {:induction false} TrimBlanks(pad: string, v: string)
    requires forall k :: 0 <= k < |pad| ==> IsBlank(pad[k])
    requires v == [] || !IsBlank(v[0])
    ensures TrimLeft(pad + v) == v
    decreases |pad|
  {
    if pad == [] {
      assert pad + v == v;
    } else {
      assert (pad + v)[1..] == pad[1..] + v;
      TrimBlanks(pad[1..], v);
    }
  }

  method ProcessTracerPid(line: string, report: ReportData)
    modifies report
    ensures report.Scoring() == EmittedAll(old(report.Scoring()), TracerPidHits(line))
    ensures report.Metadata() == old(report.Metadata())
  {
    if StartsWith(line, "TracerPid:") {
      var valueSv := TrimLeft(line[10..]);
      if valueSv != "0" {
        var _ := report.Emit(Emission(Anomalies, TracerMsg, ScoreOf(TracerMsg, TracerScores)));
      }
    }
  }

  // ---------------------------------------------------------------- TrickyStoreProcessRule

  const TrickyStoreProcessMsg := "TrickyStore" + " process detected."
  const TrickyStoreProcessBranches: seq<Branch<string>> := [Has("TrickyStore", TrickyStoreProcessMsg)]
  const TrickyStoreProcessScores: seq<Branch<int>> := [Has("TrickyStore", 6)]

  function TrickyStoreProcessHits(line: string): seq<Emission> {
    ChainHits(line, RootHidingAndEvasion, TrickyStoreProcessBranches, TrickyStoreProcessScores)
  }

  /** Any line naming TrickyStore files the process finding, for 6 points. */
  lemma TrickyStoreProcessSpec(line: string)
    ensures TrickyStoreProcessHits(line) != [] <==> Contains(line, "TrickyStore")
    ensures TrickyStoreProcessHits(line) != [] ==>
              TrickyStoreProcessHits(line) == [Emission(RootHidingAndEvasion, TrickyStoreProcessMsg, 6)]
  {
    HasFires(line, "TrickyStore", TrickyStoreProcessMsg);
    ContainsFront("TrickyStore", " process detected.");
    HasFires(TrickyStoreProcessMsg, "TrickyStore", 6);
    FirstBranchDecides(TrickyStoreProcessMsg, TrickyStoreProcessScores);
  }
}
