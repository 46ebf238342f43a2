/** Rules over the log sections (logcat, system log, kernel log, lsmod)
    (src/rules/LogRules.cpp). */
module LogRules {
  import opened Strings
  import opened Report
  import opened Chains
  import opened Patterns
  import opened RulesCommon

  // ---------------------------------------------------------------- LogKeywordRule

  /** One lexicon entry: the keyword, the threat's name, its points and
      the category its finding goes to. */
  datatype LogThreat = LogThreat(keyword: string, name: string, pts: int, cat: Category)

  const LogThreatLexicon: seq<LogThreat> := [
    LogThreat("com.google.android.gms.unstable", "GMS Unstable package", 1, RootHidingAndEvasion),
    LogThreat("org.microg.gms.core", "MicroG services", 2, RootHidingAndEvasion),
    LogThreat("/lspd/service.jar", "LSPosed Zygote injection", 5, RootAndFrameworks),
    LogThreat("post-fs-data.d", "Magisk boot script execution", 4, RootAndFrameworks)]

  function LogThreatMsg(name: string, line: string): string {
    name + " detected in log: " + line
  }

  /** The rule's view of the run: the scoring part of the report and the
      names already reported (`reported_log_threats`). */
  datatype KeywordState = KeywordState(tally: Tally, reported: set<string>)

  /** One entry against a line. A threat is filed once per run: its name
      gates it, and its points are added with no check of the insert. */
  function LogThreatStep(line: string, st: KeywordState, th: LogThreat): KeywordState {
    if Contains(line, th.keyword) && th.name !in st.reported then
      KeywordState(Inserted(st.tally, Emission(th.cat, LogThreatMsg(th.name, line), th.pts)),
                   st.reported + {th.name})
    else st
  }

  /** The entries of `xs` tried in order. */
  function LogKeywordScan(line: string, st: KeywordState, xs: seq<LogThreat>): KeywordState
    decreases |xs|
  {
    if xs == [] then st
    else LogThreatStep(line, LogKeywordScan(line, st, xs[..|xs| - 1]), xs[|xs| - 1])
  }

  /** The names of the entries whose keyword the line contains. */
  function KeywordNames(line: string, xs: seq<LogThreat>): (r: set<string>)
    ensures forall i :: 0 <= i < |xs| && Contains(line, xs[i].keyword) ==> xs[i].name in r
    ensures forall n :: n in r ==> exists i :: 0 <= i < |xs| && Contains(line, xs[i].keyword) && xs[i].name == n
    decreases |xs|
  {
    if xs == [] then {}
    else
      var n := |xs| - 1;
      var rest := KeywordNames(line, xs[..n]);
      assert forall i :: 0 <= i < n ==> xs[..n][i] == xs[i];
      rest + (if Contains(line, xs[n].keyword) then {xs[n].name} else {})
  }

  predicate DistinctNames(xs: seq<LogThreat>) {
    forall i, j :: 0 <= i < j < |xs| ==> xs[i].name != xs[j].name
  }

  /** After a line, the reported names are the old ones plus the name of
      every entry whose keyword the line contains. */
  lemma {:induction false} LogKeywordNames(line: string, st: KeywordState, xs: seq<LogThreat>)
    ensures LogKeywordScan(line, st, xs).reported == st.reported + KeywordNames(line, xs)
    decreases |xs|
  {
    if xs != [] {
      LogKeywordNames(line, st, xs[..|xs| - 1]);
    }
  }

  /** A line all of whose threats were already reported changes nothing. */
  lemma {:induction false} LogKeywordQuiet(line: string, st: KeywordState, xs: seq<LogThreat>)
    requires KeywordNames(line, xs) <= st.reported
    ensures LogKeywordScan(line, st, xs) == st
    decreases |xs|
  {
    if xs != [] {
      var n := |xs| - 1;
      assert forall i :: 0 <= i < n ==> xs[..n][i] == xs[i];
      LogKeywordQuiet(line, st, xs[..n]);
    }
  }

  /** Every threat whose keyword the line contains, and whose name was not
      yet reported, has its finding (the name and the whole line) filed. */
  lemma {:induction false} LogKeywordFiles(line: string, st: KeywordState, xs: seq<LogThreat>, i: nat)
    requires DistinctNames(xs)
    requires i < |xs| && Contains(line, xs[i].keyword) && xs[i].name !in st.reported
    ensures LogThreatMsg(xs[i].name, line) in Findings(LogKeywordScan(line, st, xs).tally.detections, xs[i].cat)
    decreases |xs|
  {
    var n := |xs| - 1;
    var pre := xs[..n];
    assert forall k :: 0 <= k < n ==> pre[k] == xs[k];
    var mid := LogKeywordScan(line, st, pre);
    if i == n {
      LogKeywordNames(line, st, pre);
      assert xs[n].name !in KeywordNames(line, pre);
    } else {
      LogKeywordFiles(line, st, pre, i);
    }
  }

  function SumThreatPts(xs: seq<LogThreat>): int
    decreases |xs|
  {
    if xs == [] then 0 else SumThreatPts(xs[..|xs| - 1]) + xs[|xs| - 1].pts
  }

  /** With non-negative points, a line never lowers the score and adds at
      most the sum of the points of the entries. */
  lemma {:induction false} LogKeywordScoreBounds(line: string, st: KeywordState, xs: seq<LogThreat>)
    requires forall i :: 0 <= i < |xs| ==> xs[i].pts >= 0
    ensures st.tally.score <= LogKeywordScan(line, st, xs).tally.score <= st.tally.score + SumThreatPts(xs)
    decreases |xs|
  {
    if xs != [] {
      var n := |xs| - 1;
      assert forall i :: 0 <= i < n ==> xs[..n][i] == xs[i];
      LogKeywordScoreBounds(line, st, xs[..n]);
    }
  }

  /** Each threat is filed at most once per run: a second line carrying
      only keywords already seen changes nothing, and no line adds more
      than 12 points. */
  lemma LogKeywordOncePerRun(first: string, second: string, st: KeywordState)
    requires KeywordNames(second, LogThreatLexicon) <= KeywordNames(first, LogThreatLexicon)
    ensures var st1 := LogKeywordScan(first, st, LogThreatLexicon);
            LogKeywordScan(second, st1, LogThreatLexicon) == st1
    ensures st.tally.score <= LogKeywordScan(first, st, LogThreatLexicon).tally.score <= st.tally.score + 12
  {
    LogKeywordNames(first, st, LogThreatLexicon);
    LogKeywordQuiet(second, LogKeywordScan(first, st, LogThreatLexicon), LogThreatLexicon);
    LexiconPoints();
    LogKeywordScoreBounds(first, st, LogThreatLexicon);
  }

  /** The lexicon's points are non-negative and add up to 12. */
  lemma LexiconPoints()
    ensures forall i :: 0 <= i < |LogThreatLexicon| ==> LogThreatLexicon[i].pts >= 0
    ensures SumThreatPts(LogThreatLexicon) == 12
  {
    var l := LogThreatLexicon;
    assert l[..3][..2] == l[..2] && l[..2][..1] == l[..1] && l[..1][..0] == [];
    assert SumThreatPts(l[..1]) == 1;
    assert SumThreatPts(l[..2]) == 3;
    assert SumThreatPts(l[..3]) == 8;
    assert l[..4] == l;
  }

  /** The LSPosed injection keyword files the whole line under
      RootAndFrameworks the first time it appears. */
  lemma LsposedInjectionFiled(line: string, st: KeywordState)
    requires Contains(line, "/lspd/service.jar") && "LSPosed Zygote injection" !in st.reported
    ensures LogThreatMsg("LSPosed Zygote injection", line) in
              Findings(LogKeywordScan(line, st, LogThreatLexicon).tally.detections, RootAndFrameworks)
  {
    assert LogThreatLexicon[2].name == "LSPosed Zygote injection";
    LogKeywordFiles(line, st, LogThreatLexicon, 2);
  }

  method ProcessLogKeyword(line: string, report: ReportData, context: AnalysisContext)
    modifies report, context
    ensures KeywordState(report.Scoring(), context.reportedLogThreats) ==
              LogKeywordScan(line, KeywordState(old(report.Scoring()), old(context.reportedLogThreats)), LogThreatLexicon)
    ensures context.State() == old(context.State()).(reportedLogThreats := context.reportedLogThreats)
    ensures report.Metadata() == old(report.Metadata())
  {
    ghost var st0 := KeywordState(report.Scoring(), context.reportedLogThreats);
    for i := 0 to |LogThreatLexicon|
      invariant KeywordState(report.Scoring(), context.reportedLogThreats) ==
                  LogKeywordScan(line, st0, LogThreatLexicon[..i])
      invariant context.State() == old(context.State()).(reportedLogThreats := context.reportedLogThreats)
      invariant report.Metadata() == old(report.Metadata())
    {
      var th := LogThreatLexicon[i];
      assert LogThreatLexicon[..i + 1][..i] == LogThreatLexicon[..i];
      if Contains(line, th.keyword) {
        if th.name !in context.reportedLogThreats {
          var reportStr := LogThreatMsg(th.name, line);
          report.InsertAndAdd(Emission(th.cat, reportStr, th.pts));
          context.reportedLogThreats := context.reportedLogThreats + {th.name};
        }
      }
    }
    assert LogThreatLexicon[..|LogThreatLexicon|] == LogThreatLexicon;
  }

  // ---------------------------------------------------------------- InvalidSelinuxTransitionRule

  const MagiskTransitionMsg := "SELinux Anomaly: App " + "requested root via Magisk context" + "."
  const TransitionBranches: seq<Branch<string>> :=
    [Branch("", ["scontext=u:r:untrusted_app", "tcontext=u:r:magisk:s0"], [], MagiskTransitionMsg)]
  const TransitionScores: seq<Branch<int>> := [Has("requested root via Magisk context", 5)]

  function InvalidSelinuxTransitionHits(line: string): seq<Emission> {
    ChainHits(line, AnomalousLogs, TransitionBranches, TransitionScores)
  }

  /** An untrusted app's transition into the magisk domain is filed, for
      5 points; nothing else is. */
  lemma InvalidSelinuxTransitionSpec(line: string)
    ensures InvalidSelinuxTransitionHits(line) != [] <==>
              Contains(line, "scontext=u:r:untrusted_app") && Contains(line, "tcontext=u:r:magisk:s0")
    ensures InvalidSelinuxTransitionHits(line) != [] ==>
              InvalidSelinuxTransitionHits(line) == [Emission(AnomalousLogs, MagiskTransitionMsg, 5)]
  {
    BothFires(line, "scontext=u:r:untrusted_app", "tcontext=u:r:magisk:s0", MagiskTransitionMsg);
    ContainsMiddle("SELinux Anomaly: App ", "requested root via Magisk context", ".");
    HasFires(MagiskTransitionMsg, "requested root via Magisk context", 5);
    FirstBranchDecides(MagiskTransitionMsg, TransitionScores);
  }

  // ---------------------------------------------------------------- SelinuxNeverallowRule

  const NeverallowMsg := "CRITICAL: SELinux '" + "neverallow" + "' rule violation detected."
  const NeverallowBranches: seq<Branch<string>> := [Branch("", ["avc: denied", "neverallow"], [], NeverallowMsg)]
  const NeverallowScores: seq<Branch<int>> := [Has("neverallow", 7)]

  function NeverallowHits(line: string): seq<Emission> {
    ChainHits(line, AnomalousLogs, NeverallowBranches, NeverallowScores)
  }

  /** A denial naming a neverallow rule is filed, for 7 points. */
  lemma NeverallowSpec(line: string)
    ensures NeverallowHits(line) != [] <==> Contains(line, "avc: denied") && Contains(line, "neverallow")
    ensures NeverallowHits(line) != [] ==> NeverallowHits(line) == [Emission(AnomalousLogs, NeverallowMsg, 7)]
  {
    BothFires(line, "avc: denied", "neverallow", NeverallowMsg);
    ContainsMiddle("CRITICAL: SELinux '", "neverallow", "' rule violation detected.");
    HasFires(NeverallowMsg, "neverallow", 7);
    FirstBranchDecides(NeverallowMsg, NeverallowScores);
  }

  // ---------------------------------------------------------------- SelinuxDenialSpamRule

  /** A denial line bumps the count. */
  function DenialSpamCtx(line: string, c: Ctx): Ctx {
    if Contains(line, "avc: denied") then c.(selinuxDenialCount := c.selinuxDenialCount + 1) else c
  }

  method ProcessDenialSpam(line: string, context: AnalysisContext)
    modifies context
    ensures context.State() == DenialSpamCtx(line, old(context.State()))
  {
    if Contains(line, "avc: denied") {
      context.selinuxDenialCount := context.selinuxDenialCount + 1;
    }
  }

  function DenialSpamMsg(n: nat): string {
    "SELinux Anomaly: " + NatToString(n) + " denials detected, indicating " + "aggressive system probing" + "."
  }

  const DenialSpamScores: seq<Branch<int>> := [Has("aggressive system probing", 2)]

  /** `finalize`: the count is reported, for 2 points, when it exceeds
      the threshold. */
  function DenialSpamFinalHits(c: Ctx, threshold: int): seq<Emission> {
    if c.selinuxDenialCount > threshold
    then [Emission(AnomalousLogs, DenialSpamMsg(c.selinuxDenialCount),
                   ScoreOf(DenialSpamMsg(c.selinuxDenialCount), DenialSpamScores))]
    else []
  }

  lemma DenialSpamScore(n: nat)
    ensures ScoreOf(DenialSpamMsg(n), DenialSpamScores) == 2
  {
    var m := DenialSpamMsg(n);
    assert m == ("SELinux Anomaly: " + NatToString(n) + " denials detected, indicating ") + "aggressive system probing" + ".";
    ContainsMiddle("SELinux Anomaly: " + NatToString(n) + " denials detected, indicating ", "aggressive system probing", ".");
    HasFires(m, "aggressive system probing", 2);
    FirstBranchDecides(m, DenialSpamScores);
  }

  /** The counting lines of a log: those carrying the marker. */
  function LinesWith(lines: seq<string>, marker: string): nat
    decreases |lines|
  {
    if lines == [] then 0
    else LinesWith(lines[..|lines| - 1], marker) + (if Contains(lines[|lines| - 1], marker) then 1 else 0)
  }

  /** The context after a series of lines. */
  function DenialsAfter(lines: seq<string>, c: Ctx): Ctx
    decreases |lines|
  {
    if lines == [] then c else DenialSpamCtx(lines[|lines| - 1], DenialsAfter(lines[..|lines| - 1], c))
  }

  /** Counting: after a series of lines the count has grown by the number
      of denial lines, and nothing else in the context has changed. */
  lemma {:induction false} DenialsCounted(lines: seq<string>, c: Ctx)
    ensures DenialsAfter(lines, c).selinuxDenialCount == c.selinuxDenialCount + LinesWith(lines, "avc: denied")
    ensures DenialsAfter(lines, c).(selinuxDenialCount := c.selinuxDenialCount) == c
    decreases |lines|
  {
    if lines != [] {
      DenialsCounted(lines[..|lines| - 1], c);
    }
  }

  /** The spam finding is filed, for 2 points and naming the count, exactly
      when more than `threshold` denial lines were seen. */
  lemma DenialSpamOverLines(lines: seq<string>, threshold: int)
    ensures var hits := DenialSpamFinalHits(DenialsAfter(lines, InitialCtx), threshold);
            && (hits != [] <==> LinesWith(lines, "avc: denied") > threshold)
            && (hits != [] ==> hits == [Emission(AnomalousLogs, DenialSpamMsg(LinesWith(lines, "avc: denied")), 2)])
  {
    DenialsCounted(lines, InitialCtx);
    DenialSpamScore(LinesWith(lines, "avc: denied"));
  }

  method FinalizeDenialSpam(threshold: int, report: ReportData, context: AnalysisContext)
    modifies report
    ensures report.Scoring() == EmittedAll(old(report.Scoring()), DenialSpamFinalHits(context.State(), threshold))
    ensures report.Metadata() == old(report.Metadata())
  {
    if context.selinuxDenialCount > threshold {
      var reportStr := DenialSpamMsg(context.selinuxDenialCount);
      var _ := report.Emit(Emission(AnomalousLogs, reportStr, ScoreOf(reportStr, DenialSpamScores)));
    }
  }

  // ---------------------------------------------------------------- SELinuxStateRule

  /** A kernel command line that turns enforcement off. */
  predicate PermissiveCommandLine(line: string) {
    (StartsWith(line, "Command line:") || StartsWith(line, "Kernel command line:")) &&
    (Contains(line, "enforcing=0") || Contains(line, "androidboot.selinux=permissive"))
  }

  /** The boot property saying permissive; the key and value start out
      empty, so a line that does not parse never matches. */
  predicate PermissiveProperty(line: string) {
    ParsePropertyLineInto(line, "", "") == ("ro.boot.selinux", "permissive")
  }

  /** A denial logged in permissive mode. */
  predicate PermissiveDenial(line: string) {
    Contains(line, "avc: denied") && Contains(line, "permissive=1")
  }

  /** The state once Permissive stays Permissive; otherwise any of the
      three kinds of evidence makes it Permissive. */
  function SelinuxStateCtx(line: string, c: Ctx): Ctx {
    if c.seLinuxState == Permissive then c
    else if PermissiveCommandLine(line) then c.(seLinuxState := Permissive)
    else if PermissiveProperty(line) then c.(seLinuxState := Permissive)
    else if PermissiveDenial(line) then c.(seLinuxState := Permissive)
    else c
  }

  /** Only the SELinux state changes; it becomes Permissive exactly when it
      was or the line is evidence of it, and it never returns to Enforcing. */
  lemma SelinuxStateSpec(line: string, c: Ctx)
    ensures SelinuxStateCtx(line, c).(seLinuxState := c.seLinuxState) == c
    ensures SelinuxStateCtx(line, c).seLinuxState == Permissive <==>
              c.seLinuxState == Permissive || PermissiveCommandLine(line) || PermissiveProperty(line) || PermissiveDenial(line)
    ensures c.seLinuxState == Permissive ==> SelinuxStateCtx(line, c) == c
  {
  }

  /** The dump line `[ro.boot.selinux]: [permissive]` switches the state. */
  lemma PermissivePropertyLine(c: Ctx)
    ensures SelinuxStateCtx("[" + "ro.boot.selinux" + "]: [" + "permissive" + "]", c).seLinuxState == Permissive
  {
    BootSelinuxParses();
  }

  lemma BootSelinuxParses()
    ensures PermissiveProperty("[" + "ro.boot.selinux" + "]: [" + "permissive" + "]")
  {
    var k := "ro.boot.selinux";
    assert k[0] == 'r';
    assert ']' !in k;
    MissingCharNotContained(k, "]:", 0);
    PropertyRoundTrip(k, "permissive");
  }

  method ProcessSelinuxState(line: string, context: AnalysisContext)
    modifies context
    ensures context.State() == SelinuxStateCtx(line, old(context.State()))
  {
    if context.seLinuxState == Permissive {
      return;
    }
    if StartsWith(line, "Command line:") || StartsWith(line, "Kernel command line:") {
      if Contains(line, "enforcing=0") || Contains(line, "androidboot.selinux=permissive") {
        context.seLinuxState := Permissive;
        return;
      }
    }
    var (key, value) := ParsePropertyLineInto(line, "", "");
    if key == "ro.boot.selinux" && value == "permissive" {
      context.seLinuxState := Permissive;
      return;
    }
    if Contains(line, "avc: denied") {
      if Contains(line, "permissive=1") {
        context.seLinuxState := Permissive;
      }
    }
  }

  const PermissiveMsg := "SELinux is in " + "Permissive mode" + ", which disables key " + "security features."
  const SelinuxStateScores: seq<Branch<int>> := [Has("Permissive mode", 5)]

  /** `finalize`: the status string, and the finding in the Permissive case. */
  function SelinuxStatus(c: Ctx): string {
    if c.seLinuxState == Permissive then "Permissive" else "Enforcing"
  }

  function SelinuxFinalHits(c: Ctx): seq<Emission> {
    if c.seLinuxState == Permissive
    then [Emission(SuspiciousProperties, PermissiveMsg, ScoreOf(PermissiveMsg, SelinuxStateScores))]
    else []
  }

  /** The status is always set, to "Permissive" exactly when the state is
      Permissive; only then is the 5-point finding filed. */
  lemma SelinuxFinalSpec(c: Ctx)
    ensures SelinuxStatus(c) == "Permissive" || SelinuxStatus(c) == "Enforcing"
    ensures SelinuxStatus(c) == "Permissive" <==> c.seLinuxState == Permissive
    ensures SelinuxFinalHits(c) != [] <==> c.seLinuxState == Permissive
    ensures SelinuxFinalHits(c) != [] ==> SelinuxFinalHits(c) == [Emission(SuspiciousProperties, PermissiveMsg, 5)]
  {
    assert "Enforcing"[0] != "Permissive"[0];
    ContainsMiddle("SELinux is in ", "Permissive mode", ", which disables key " + "security features.");
    assert PermissiveMsg == "SELinux is in " + "Permissive mode" + (", which disables key " + "security features.");
    HasFires(PermissiveMsg, "Permissive mode", 5);
    FirstBranchDecides(PermissiveMsg, SelinuxStateScores);
  }

  method FinalizeSelinuxState(report: ReportData, context: AnalysisContext)
    modifies report
    ensures report.Scoring() == EmittedAll(old(report.Scoring()), SelinuxFinalHits(context.State()))
    ensures report.Metadata() == old(report.Metadata()).(seLinuxStatus := SelinuxStatus(context.State()))
  {
    if context.seLinuxState == Permissive {
      report.seLinuxStatus := "Permissive";
      var reportStr := PermissiveMsg;
      var _ := report.Emit(Emission(SuspiciousProperties, reportStr, ScoreOf(reportStr, SelinuxStateScores)));
    } else {
      report.seLinuxStatus := "Enforcing";
    }
  }

  // ---------------------------------------------------------------- CustomSePolicyRule

  const CustomPolicyMsg := "Custom SELinux policy" + " detected, indicating " + "system-level modification."
  const CustomPolicyBranches: seq<Branch<string>> := [Branch("", [], ["custom sepolicy", "Magisk sepolicy"], CustomPolicyMsg)]
  const CustomPolicyScores: seq<Branch<int>> := [Has("Custom SELinux policy", 5)]

  function CustomSePolicyHits(line: string): seq<Emission> {
    ChainHits(line, AnomalousLogs, CustomPolicyBranches, CustomPolicyScores)
  }

  /** Either marker of a patched policy is filed, for 5 points. */
  lemma CustomSePolicySpec(line: string)
    ensures CustomSePolicyHits(line) != [] <==> Contains(line, "custom sepolicy") || Contains(line, "Magisk sepolicy")
    ensures CustomSePolicyHits(line) != [] ==> CustomSePolicyHits(line) == [Emission(AnomalousLogs, CustomPolicyMsg, 5)]
  {
    EitherFires(line, "custom sepolicy", "Magisk sepolicy", CustomPolicyMsg);
    ContainsFront("Custom SELinux policy", " detected, indicating " + "system-level modification.");
    assert CustomPolicyMsg == "Custom SELinux policy" + (" detected, indicating " + "system-level modification.");
    HasFires(CustomPolicyMsg, "Custom SELinux policy", 5);
    FirstBranchDecides(CustomPolicyMsg, CustomPolicyScores);
  }

  // ---------------------------------------------------------------- DmVerityRule

  const DmVerityMsg := "System Integrity: " + "dm-verity corruption error" + " detected."
  const DmVerityBranches: seq<Branch<string>> := [Branch("", ["dm_verity_init", "error"], [], DmVerityMsg)]
  const DmVerityScores: seq<Branch<int>> := [Has("dm-verity corruption error", 4)]

  function DmVerityHits(line: string): seq<Emission> {
    ChainHits(line, FileSystemAndMounts, DmVerityBranches, DmVerityScores)
  }

  /** A dm-verity init error is filed under file systems, for 4 points. */
  lemma DmVeritySpec(line: string)
    ensures DmVerityHits(line) != [] <==> Contains(line, "dm_verity_init") && Contains(line, "error")
    ensures DmVerityHits(line) != [] ==> DmVerityHits(line) == [Emission(FileSystemAndMounts, DmVerityMsg, 4)]
  {
    BothFires(line, "dm_verity_init", "error", DmVerityMsg);
    ContainsMiddle("System Integrity: ", "dm-verity corruption error", " detected.");
    HasFires(DmVerityMsg, "dm-verity corruption error", 4);
    FirstBranchDecides(DmVerityMsg, DmVerityScores);
  }

  // ---------------------------------------------------------------- KernelRule

  /** A kernel banner that is not the stock build host's, or a `-perf` one,
      compared in lower case. */
  predicate IsCustomKernel(line: string) {
    StartsWith(line, "Linux version ") &&
    (!Contains(ToLower(line), "build-user@build-host") || Contains(ToLower(line), "-perf"))
  }

  function KernelMsg(line: string): string {
    "Custom Kernel Detected" + ": " + line
  }

  const KernelScores: seq<Branch<int>> := [Has("Custom Kernel Detected", 2)]

  /** Only consulted while no build fingerprint is known. */
  function KernelHits(line: string, fingerprint: string): seq<Emission> {
    if fingerprint == "" && IsCustomKernel(line)
    then [Emission(CustomBuild, KernelMsg(line), ScoreOf(KernelMsg(line), KernelScores))]
    else []
  }

  lemma KernelScore(line: string)
    ensures ScoreOf(KernelMsg(line), KernelScores) == 2
  {
    ContainsFront("Custom Kernel Detected", ": " + line);
    assert KernelMsg(line) == "Custom Kernel Detected" + (": " + line);
    HasFires(KernelMsg(line), "Custom Kernel Detected", 2);
    FirstBranchDecides(KernelMsg(line), KernelScores);
  }

  /** The banner is filed (the whole line, for 2 points) exactly when the
      fingerprint is still empty and the banner is a custom one. */
  lemma KernelSpec(line: string, fingerprint: string)
    ensures KernelHits(line, fingerprint) != [] <==> fingerprint == "" && IsCustomKernel(line)
    ensures KernelHits(line, fingerprint) != [] ==>
              KernelHits(line, fingerprint) == [Emission(CustomBuild, KernelMsg(line), 2)]
  {
    KernelScore(line);
  }

  lemma {:induction false} ToLowerAppend(a: string, b: string)
    ensures ToLower(a + b) == ToLower(a) + ToLower(b)
  {
    assert forall i :: 0 <= i < |a + b| ==> ToLower(a + b)[i] == (ToLower(a) + ToLower(b))[i];
  }

  /** A stock banner, whatever its letter case around the build host, is
      not reported unless it names a `-perf` kernel. */
  lemma StockKernelNotReported(pre: string, post: string)
    requires !Contains(ToLower("Linux version " + pre + "build-user@build-host" + post), "-perf")
    ensures !IsCustomKernel("Linux version " + pre + "build-user@build-host" + post)
  {
    var host := "build-user@build-host";
    HostIsLowerCase();
    ToLowerAppend("Linux version " + pre, host);
    ToLowerAppend("Linux version " + pre + host, post);
    ContainsMiddle(ToLower("Linux version " + pre), host, ToLower(post));
  }

  lemma HostIsLowerCase()
    ensures ToLower("build-user@build-host") == "build-user@build-host"
  {
    ToLowerNoUpper("build-user@build-host");
  }

  method ProcessKernel(line: string, report: ReportData)
    modifies report
    ensures report.Scoring() == EmittedAll(old(report.Scoring()), KernelHits(line, old(report.buildFingerprint)))
    ensures report.Metadata() == old(report.Metadata())
  {
    if report.buildFingerprint == "" && StartsWith(line, "Linux version ") {
      var lowerLine := ToLower(line);
      if !Contains(lowerLine, "build-user@build-host") || Contains(lowerLine, "-perf") {
        var reportStr := KernelMsg(line);
        var _ := report.Emit(Emission(CustomBuild, reportStr, ScoreOf(reportStr, KernelScores)));
      }
    }
  }

  // ---------------------------------------------------------------- SuspiciousModulesRule

  /** `blacklist`, in ascending order. Its container's declaration is not
      part of this model; the order does not change the result, since the
      findings form a set and points are added only for a new text. */
  const ModuleBlacklist: seq<string> := ["kalilinux", "ksu", "magisk", "nethunter", "tcpdump", "wireguard", "zygisk"]

  function ModuleMsg(m: string): string {
    "Suspicious " + "Kernel Module loaded:" + " " + m
  }

  const KernelModuleScores: seq<Branch<int>> := [Has("Kernel Module loaded:", 3)]

  function ModuleCheck(line: string): string -> seq<Emission> {
    m => if Contains(line, m) then [Emission(Anomalies, ModuleMsg(m), ScoreOf(ModuleMsg(m), KernelModuleScores))] else []
  }

  function SuspiciousModulesHits(line: string): seq<Emission> {
    Collect(ModuleBlacklist, ModuleCheck(line))
  }

  /** One finding per blacklisted name the lsmod line contains, and no other. */
  lemma SuspiciousModulesSpec(line: string, m: string)
    requires m in ModuleBlacklist
    ensures ModuleMsg(m) in MessagesOf(SuspiciousModulesHits(line), Anomalies) <==> Contains(line, m)
  {
    var msg := ModuleMsg(m);
    CollectMessages(ModuleBlacklist, ModuleCheck(line), Anomalies, msg);
    if msg in MessagesOf(SuspiciousModulesHits(line), Anomalies) {
      var i :| 0 <= i < |ModuleBlacklist| && msg in MessagesOf(ModuleCheck(line)(ModuleBlacklist[i]), Anomalies);
      WrapInjective("Suspicious " + "Kernel Module loaded:" + " ", ModuleBlacklist[i], m, "");
    } else {
      var i :| 0 <= i < |ModuleBlacklist| && ModuleBlacklist[i] == m;
    }
  }

  lemma ModuleScore(m: string)
    ensures ScoreOf(ModuleMsg(m), KernelModuleScores) == 3
  {
    assert ModuleMsg(m) == "Suspicious " + "Kernel Module loaded:" + (" " + m);
    ContainsMiddle("Suspicious ", "Kernel Module loaded:", " " + m);
    HasFires(ModuleMsg(m), "Kernel Module loaded:", 3);
    FirstBranchDecides(ModuleMsg(m), KernelModuleScores);
  }

  method ProcessSuspiciousModules(line: string, report: ReportData)
    modifies report
    ensures report.Scoring() == EmittedAll(old(report.Scoring()), SuspiciousModulesHits(line))
    ensures report.Metadata() == old(report.Metadata())
  {
    for i := 0 to |ModuleBlacklist|
      invariant report.Scoring() == EmittedAll(old(report.Scoring()), Collect(ModuleBlacklist[..i], ModuleCheck(line)))
      invariant report.Metadata() == old(report.Metadata())
    {
      var mod := ModuleBlacklist[i];
      ghost var before := report.Scoring();
      if Contains(line, mod) {
        var _ := report.Emit(Emission(Anomalies, ModuleMsg(mod), ScoreOf(ModuleMsg(mod), KernelModuleScores)));
      }
      assert report.Scoring() == EmittedAll(before, ModuleCheck(line)(mod));
      CollectStep(ModuleBlacklist, i, ModuleCheck(line));
      EmittedAllAppend(old(report.Scoring()), Collect(ModuleBlacklist[..i], ModuleCheck(line)), ModuleCheck(line)(mod));
    }
    assert ModuleBlacklist[..|ModuleBlacklist|] == ModuleBlacklist;
  }

  // ---------------------------------------------------------------- ResetpropRule

  const ResetpropMsg := "Evasion: " + "resetprop utility executed" + " by init."
  const ResetpropBranches: seq<Branch<string>> := [Branch("", ["init", "Command 'resetprop'"], [], ResetpropMsg)]
  const ResetpropScores: seq<Branch<int>> := [Has("resetprop utility executed", 2)]

  function ResetpropHits(line: string): seq<Emission> {
    ChainHits(line, RootHidingAndEvasion, ResetpropBranches, ResetpropScores)
  }

  /** init running resetprop is filed as evasion, for 2 points. */
  lemma ResetpropSpec(line: string)
    ensures ResetpropHits(line) != [] <==> Contains(line, "init") && Contains(line, "Command 'resetprop'")
    ensures ResetpropHits(line) != [] ==> ResetpropHits(line) == [Emission(RootHidingAndEvasion, ResetpropMsg, 2)]
  {
    BothFires(line, "init", "Command 'resetprop'", ResetpropMsg);
    ContainsMiddle("Evasion: ", "resetprop utility executed", " by init.");
    HasFires(ResetpropMsg, "resetprop utility executed", 2);
    FirstBranchDecides(ResetpropMsg, ResetpropScores);
  }

  // ---------------------------------------------------------------- InitServiceRule

  function InitServiceMsg(line: string): string {
    "Init: " + "Starting suspicious service" + ": " + line
  }

  function InitServiceBranches(line: string): seq<Branch<string>> {
    [Branch("", ["init", "starting service"], ["magisk", "ksu"], InitServiceMsg(line))]
  }

  const InitServiceScores: seq<Branch<int>> := [Has("Starting suspicious service", 4)]

  function InitServiceHits(line: string): seq<Emission> {
    ChainHits(line, AnomalousLogs, InitServiceBranches(line), InitServiceScores)
  }

  /** init starting a magisk or ksu service files the whole line, for 4 points. */
  lemma InitServiceSpec(line: string)
    ensures InitServiceHits(line) != [] <==>
              Contains(line, "init") && Contains(line, "starting service") &&
              (Contains(line, "magisk") || Contains(line, "ksu"))
    ensures InitServiceHits(line) != [] ==> InitServiceHits(line) == [Emission(AnomalousLogs, InitServiceMsg(line), 4)]
  {
    var b := InitServiceBranches(line)[0];
    assert StartsWith(line, "");
    assert b.all[0] == "init" && b.all[1] == "starting service";
    assert b.any[0] == "magisk" && b.any[1] == "ksu";
    var m := InitServiceMsg(line);
    assert m == "Init: " + "Starting suspicious service" + (": " + line);
    ContainsMiddle("Init: ", "Starting suspicious service", ": " + line);
    HasFires(m, "Starting suspicious service", 4);
    FirstBranchDecides(m, InitServiceScores);
  }

  // ---------------------------------------------------------------- LinkerAnomalyRule

  function LinkErrorMsg(line: string): string {
    "Linker: " + "Library linking error detected" + ": " + line
  }

  const CrashMsg := "Debuggerd: " + "Process crash detected" + ", potential sign of " + "instability or tampering."

  function LinkerBranches(line: string): seq<Branch<string>> {
    [Branch("", ["linker", "CANNOT LINK"], [], LinkErrorMsg(line)),
     Branch("", ["debuggerd", "crash"], [], CrashMsg)]
  }

  const LinkerScores: seq<Branch<int>> := [Has("CANNOT LINK", 1), Has("Process crash detected", 1)]

  function LinkerAnomalyHits(line: string): seq<Emission> {
    ChainHits(line, AnomalousLogs, LinkerBranches(line), LinkerScores)
  }

  lemma CrashLacks()
    ensures !Contains(CrashMsg, "CANNOT LINK")
  {
    assert 'N' !in "Debuggerd: " && 'N' !in "Process crash detected";
    assert 'N' !in ", potential sign of " && 'N' !in "instability or tampering.";
    MissingCharNotContained(CrashMsg, "CANNOT LINK", 2);
  }

  /** A link failure files the whole line, for 1 point. */
  lemma LinkErrorFiled(line: string)
    requires Contains(line, "linker") && Contains(line, "CANNOT LINK")
    ensures LinkerAnomalyHits(line) == [Emission(AnomalousLogs, LinkErrorMsg(line), 1)]
  {
    BothFires(line, "linker", "CANNOT LINK", LinkErrorMsg(line));
    FirstBranchDecides(line, LinkerBranches(line));
    LinkErrorScore(line);
  }

  lemma LinkErrorScore(line: string)
    requires Contains(line, "CANNOT LINK")
    ensures ScoreOf(LinkErrorMsg(line), LinkerScores) == 1
  {
    var m := LinkErrorMsg(line);
    assert m == "Linker: " + "Library linking error detected" + ": " + line + "";
    ContainsConcat("Linker: " + "Library linking error detected" + ": ", line, "", "CANNOT LINK");
    HasFires(m, "CANNOT LINK", 1);
    FirstBranchDecides(m, LinkerScores);
  }

  /** Otherwise a debuggerd crash files the crash finding, for 1 point. */
  lemma CrashFiled(line: string)
    requires !(Contains(line, "linker") && Contains(line, "CANNOT LINK"))
    requires Contains(line, "debuggerd") && Contains(line, "crash")
    ensures LinkerAnomalyHits(line) == [Emission(AnomalousLogs, CrashMsg, 1)]
  {
    var bs := LinkerBranches(line);
    BothFires(line, "linker", "CANNOT LINK", LinkErrorMsg(line));
    BothFires(line, "debuggerd", "crash", CrashMsg);
    FirstMatchIs(line, bs, 1);
    CrashScore();
  }

  lemma CrashScore()
    ensures ScoreOf(CrashMsg, LinkerScores) == 1
  {
    CrashLacks();
    HasFires(CrashMsg, "CANNOT LINK", 1);
    ContainsMiddle("Debuggerd: ", "Process crash detected", ", potential sign of " + "instability or tampering.");
    assert CrashMsg == "Debuggerd: " + "Process crash detected" + (", potential sign of " + "instability or tampering.");
    HasFires(CrashMsg, "Process crash detected", 1);
    ScoreIs(CrashMsg, LinkerScores, 1);
  }

  /** Lines with neither pair of markers file nothing. */
  lemma LinkerQuiet(line: string)
    requires !(Contains(line, "linker") && Contains(line, "CANNOT LINK"))
    requires !(Contains(line, "debuggerd") && Contains(line, "crash"))
    ensures LinkerAnomalyHits(line) == []
  {
    BothFires(line, "linker", "CANNOT LINK", LinkErrorMsg(line));
    BothFires(line, "debuggerd", "crash", CrashMsg);
    assert !Fires(line, LinkerBranches(line)[0]) && !Fires(line, LinkerBranches(line)[1]);
  }

  // ---------------------------------------------------------------- UserSnippetRule

  function ZygoteDumpMsg(pid: string): string {
    "Zygote process dump found" + " (PID: " + pid + ")"
  }

  const ZygoteDumpScores: seq<Branch<int>> := [Has("Zygote process dump found", 2)]

  /** A `----- pid N at` header remembers N; a following zygote command
      line files the dump; any other line without a dump marker forgets. */
  function UserSnippetHits(line: string, c: Ctx): seq<Emission> {
    if Search(line, PidDumpAt).None? && c.lastPidDump != "" && Contains(line, "Cmd line: zygote")
    then [Emission(AnomalousLogs, ZygoteDumpMsg(c.lastPidDump), ScoreOf(ZygoteDumpMsg(c.lastPidDump), ZygoteDumpScores))]
    else []
  }

  function UserSnippetCtx(line: string, c: Ctx): Ctx {
    match Search(line, PidDumpAt)
    case Some(pid) => c.(lastPidDump := pid)
    case None =>
      if c.lastPidDump != "" && Contains(line, "Cmd line: zygote") then c.(lastPidDump := "")
      else if !Contains(line, "-----") && !Contains(line, "Cmd line:") then c.(lastPidDump := "")
      else c
  }

  /** The remembered pid is empty or a decimal number; only it changes. */
  predicate PidDumpInv(c: Ctx) {
    c.lastPidDump == "" || IsNumeric(c.lastPidDump)
  }

  lemma UserSnippetKeepsInv(line: string, c: Ctx)
    requires PidDumpInv(c)
    ensures PidDumpInv(UserSnippetCtx(line, c))
    ensures UserSnippetCtx(line, c).(lastPidDump := c.lastPidDump) == c
  {
    match Search(line, PidDumpAt) {
      case Some(pid) =>
        var j :| 0 <= j <= |line| && PidDumpAt(line, j) == Some(pid);
      case None =>
    }
  }

  lemma ZygoteDumpScore(pid: string)
    ensures ScoreOf(ZygoteDumpMsg(pid), ZygoteDumpScores) == 2
  {
    assert ZygoteDumpMsg(pid) == "Zygote process dump found" + (" (PID: " + pid + ")");
    ContainsFront("Zygote process dump found", " (PID: " + pid + ")");
    HasFires(ZygoteDumpMsg(pid), "Zygote process dump found", 2);
    FirstBranchDecides(ZygoteDumpMsg(pid), ZygoteDumpScores);
  }

  /** The two-line correlation: a dump header for pid N followed by the
      zygote command line files "Zygote process dump found (PID: N)" for
      2 points and forgets the pid. */
  lemma PidDumpThenZygote(n: nat, rest: string, second: string, c: Ctx)
    requires Search(second, PidDumpAt).None? && Contains(second, "Cmd line: zygote")
    ensures var c1 := UserSnippetCtx("----- pid " + NatToString(n) + " at" + rest, c);
            && UserSnippetHits(second, c1) == [Emission(AnomalousLogs, ZygoteDumpMsg(NatToString(n)), 2)]
            && UserSnippetCtx(second, c1).lastPidDump == ""
  {
    PidDumpRoundTrip(n, rest);
    ZygoteDumpScore(NatToString(n));
  }

  method ProcessUserSnippet(line: string, report: ReportData, context: AnalysisContext)
    modifies report, context
    ensures report.Scoring() == EmittedAll(old(report.Scoring()), UserSnippetHits(line, old(context.State())))
    ensures report.Metadata() == old(report.Metadata())
    ensures context.State() == UserSnippetCtx(line, old(context.State()))
  {
    var found := Search(line, PidDumpAt);
    if found.Some? {
      context.lastPidDump := found.value;
    } else if context.lastPidDump != "" && Contains(line, "Cmd line: zygote") {
      var reportStr := ZygoteDumpMsg(context.lastPidDump);
      var _ := report.Emit(Emission(AnomalousLogs, reportStr, ScoreOf(reportStr, ZygoteDumpScores)));
      context.lastPidDump := "";
    } else if !Contains(line, "-----") && !Contains(line, "Cmd line:") {
      context.lastPidDump := "";
    }
  }

  // ---------------------------------------------------------------- ZygoteForkSpamRule

  predicate IsForkLine(line: string) {
    Contains(line, "Zygote") && Contains(line, "Forked child process")
  }

  function ForkCountCtx(line: string, c: Ctx): Ctx {
    if IsForkLine(line) then c.(zygoteForkCount := c.zygoteForkCount + 1) else c
  }

  method ProcessZygoteForkSpam(line: string, context: AnalysisContext)
    modifies context
    ensures context.State() == ForkCountCtx(line, old(context.State()))
  {
    if Contains(line, "Zygote") && Contains(line, "Forked child process") {
      context.zygoteForkCount := context.zygoteForkCount + 1;
    }
  }

  const ForkSpamThreshold := 50

  function ForkSpamMsg(n: nat): string {
    "Anomalous Zygote Activity" + ": Zygote forked " + NatToString(n) + " times, which may indicate " + "process spam or instability."
  }

  const ForkSpamScores: seq<Branch<int>> := [Has("Anomalous Zygote Activity", 1)]

  function ForkSpamFinalHits(c: Ctx): seq<Emission> {
    if c.zygoteForkCount > ForkSpamThreshold
    then [Emission(AnomalousLogs, ForkSpamMsg(c.zygoteForkCount), ScoreOf(ForkSpamMsg(c.zygoteForkCount), ForkSpamScores))]
    else []
  }

  lemma ForkSpamScore(n: nat)
    ensures ScoreOf(ForkSpamMsg(n), ForkSpamScores) == 1
  {
    var tail := ": Zygote forked " + NatToString(n) + " times, which may indicate " + "process spam or instability.";
    assert ForkSpamMsg(n) == "Anomalous Zygote Activity" + tail;
    ContainsFront("Anomalous Zygote Activity", tail);
    HasFires(ForkSpamMsg(n), "Anomalous Zygote Activity", 1);
    FirstBranchDecides(ForkSpamMsg(n), ForkSpamScores);
  }

  function ForksAfter(lines: seq<string>, c: Ctx): Ctx
    decreases |lines|
  {
    if lines == [] then c else ForkCountCtx(lines[|lines| - 1], ForksAfter(lines[..|lines| - 1], c))
  }

  function ForkLines(lines: seq<string>): nat
    decreases |lines|
  {
    if lines == [] then 0 else ForkLines(lines[..|lines| - 1]) + (if IsForkLine(lines[|lines| - 1]) then 1 else 0)
  }

  lemma {:induction false} ForksCounted(lines: seq<string>, c: Ctx)
    ensures ForksAfter(lines, c).zygoteForkCount == c.zygoteForkCount + ForkLines(lines)
    ensures ForksAfter(lines, c).(zygoteForkCount := c.zygoteForkCount) == c
    decreases |lines|
  {
    if lines != [] {
      ForksCounted(lines[..|lines| - 1], c);
    }
  }

  /** The fork-spam finding is filed, for 1 point and naming the count,
      exactly when more than 50 fork lines were seen. */
  lemma ForkSpamOverLines(lines: seq<string>)
    ensures var hits := ForkSpamFinalHits(ForksAfter(lines, InitialCtx));
            && (hits != [] <==> ForkLines(lines) > 50)
            && (hits != [] ==> hits == [Emission(AnomalousLogs, ForkSpamMsg(ForkLines(lines)), 1)])
  {
    ForksCounted(lines, InitialCtx);
    ForkSpamScore(ForkLines(lines));
  }

  method FinalizeZygoteForkSpam(report: ReportData, context: AnalysisContext)
    modifies report
    ensures report.Scoring() == EmittedAll(old(report.Scoring()), ForkSpamFinalHits(context.State()))
    ensures report.Metadata() == old(report.Metadata())
  {
    if context.zygoteForkCount > ForkSpamThreshold {
      var reportStr := ForkSpamMsg(context.zygoteForkCount);
      var _ := report.Emit(Emission(AnomalousLogs, reportStr, ScoreOf(reportStr, ForkSpamScores)));
    }
  }

  // ---------------------------------------------------------------- KeymasterLogRule

  const KeymasterUnlockedMsg := "High-Confidence: " + "Keymaster log confirms" + " device is unlocked."
  const AttestationMsg := "High-Confidence: " + "Keystore attestation reports" + " UNVERIFIED boot state."

  /** `getScore` ignores the text. */
  const KeymasterPoints := 6

  predicate KeymasterUnlockLine(line: string) {
    (Contains(line, "Keymaster") || Contains(line, "keystore")) && Contains(line, "device is unlocked")
  }

  predicate AttestationLine(line: string) {
    Contains(line, "Attestation key provisioned") && Contains(line, "boot state: UNVERIFIED")
  }

  datatype KeymasterState = KeymasterState(tally: Tally, ctx: Ctx)

  /** Filing one confirmation: the boot state is recorded and the latch set
      only when the finding is new. */
  function Confirmed(st: KeymasterState, msg: string, bootState: string): KeymasterState {
    var e := Emission(SuspiciousProperties, msg, KeymasterPoints);
    if msg in Findings(st.tally.detections, SuspiciousProperties) then KeymasterState(Emitted(st.tally, e), st.ctx)
    else KeymasterState(Emitted(st.tally, e),
                        st.ctx.(verifiedBootState := bootState, bootloaderStateConfirmedByKernel := true))
  }

  /** The latch is tested once, on entry; both tests of one line may file. */
  function KeymasterLogStep(line: string, st: KeymasterState): KeymasterState {
    if st.ctx.bootloaderStateConfirmedByKernel then st
    else
      var st1 := if KeymasterUnlockLine(line) then Confirmed(st, KeymasterUnlockedMsg, "unlocked (keymaster)") else st;
      if AttestationLine(line) then Confirmed(st1, AttestationMsg, "unlocked (attestation)") else st1
  }

  /** Once confirmed, the rule does nothing; otherwise it changes only the
      boot-state pair of the context, the latch is set exactly when a new
      finding was filed, and the score grows by at most 12. */
  lemma KeymasterLogSpec(line: string, st: KeymasterState)
    ensures st.ctx.bootloaderStateConfirmedByKernel ==> KeymasterLogStep(line, st) == st
    ensures var r := KeymasterLogStep(line, st);
            && r.ctx.(verifiedBootState := st.ctx.verifiedBootState,
                      bootloaderStateConfirmedByKernel := st.ctx.bootloaderStateConfirmedByKernel) == st.ctx
            && (r.ctx.bootloaderStateConfirmedByKernel <==> st.ctx.bootloaderStateConfirmedByKernel || r.tally.score > st.tally.score)
            && st.tally.score <= r.tally.score <= st.tally.score + 12
  {
  }

  /** A fresh unlock line confirms "unlocked (keymaster)" for 6 points. */
  lemma KeymasterUnlockConfirms(line: string, st: KeymasterState)
    requires !st.ctx.bootloaderStateConfirmedByKernel && KeymasterUnlockLine(line) && !AttestationLine(line)
    requires KeymasterUnlockedMsg !in Findings(st.tally.detections, SuspiciousProperties)
    ensures var r := KeymasterLogStep(line, st);
            && r.ctx.verifiedBootState == "unlocked (keymaster)" && r.ctx.bootloaderStateConfirmedByKernel
            && r.tally.score == st.tally.score + 6
            && KeymasterUnlockedMsg in Findings(r.tally.detections, SuspiciousProperties)
  {
  }

  /** A line carrying both confirmations files both, for 12 points, and the
      attestation's boot state is the one kept. */
  lemma KeymasterBothInOneLine(line: string, st: KeymasterState)
    requires !st.ctx.bootloaderStateConfirmedByKernel && KeymasterUnlockLine(line) && AttestationLine(line)
    requires KeymasterUnlockedMsg !in Findings(st.tally.detections, SuspiciousProperties)
    requires AttestationMsg !in Findings(st.tally.detections, SuspiciousProperties)
    ensures var r := KeymasterLogStep(line, st);
            && r.ctx.verifiedBootState == "unlocked (attestation)"
            && r.tally.score == st.tally.score + 12
  {
    assert KeymasterUnlockedMsg[20] == 'm' && AttestationMsg[20] == 's';
  }

  method ProcessKeymasterLog(line: string, report: ReportData, context: AnalysisContext)
    modifies report, context
    ensures KeymasterState(report.Scoring(), context.State()) ==
              KeymasterLogStep(line, KeymasterState(old(report.Scoring()), old(context.State())))
    ensures report.Metadata() == old(report.Metadata())
  {
    if context.bootloaderStateConfirmedByKernel {
      return;
    }
    if (Contains(line, "Keymaster") || Contains(line, "keystore")) && Contains(line, "device is unlocked") {
      var added := report.Emit(Emission(SuspiciousProperties, KeymasterUnlockedMsg, KeymasterPoints));
      if added {
        context.verifiedBootState := "unlocked (keymaster)";
        context.bootloaderStateConfirmedByKernel := true;
      }
    }
    if Contains(line, "Attestation key provisioned") && Contains(line, "boot state: UNVERIFIED") {
      var added := report.Emit(Emission(SuspiciousProperties, AttestationMsg, KeymasterPoints));
      if added {
        context.verifiedBootState := "unlocked (attestation)";
        context.bootloaderStateConfirmedByKernel := true;
      }
    }
  }

  // ---------------------------------------------------------------- TrickyStoreLogRule

  const TrickyStoreLogMsg := "TrickyStore" + " log detected."
  const TrickyStoreLogBranches: seq<Branch<string>> := [Has("TrickyStore", TrickyStoreLogMsg)]
  const TrickyStoreLogScores: seq<Branch<int>> := [Has("TrickyStore", 5)]

  function TrickyStoreLogHits(line: string): seq<Emission> {
    ChainHits(line, RootHidingAndEvasion, TrickyStoreLogBranches, TrickyStoreLogScores)
  }

  /** Any log line naming TrickyStore files the log finding, for 5 points. */
  lemma TrickyStoreLogSpec(line: string)
    ensures TrickyStoreLogHits(line) != [] <==> Contains(line, "TrickyStore")
    ensures TrickyStoreLogHits(line) != [] ==>
              TrickyStoreLogHits(line) == [Emission(RootHidingAndEvasion, TrickyStoreLogMsg, 5)]
  {
    HasFires(line, "TrickyStore", TrickyStoreLogMsg);
    ContainsFront("TrickyStore", " log detected.");
    HasFires(TrickyStoreLogMsg, "TrickyStore", 5);
    FirstBranchDecides(TrickyStoreLogMsg, TrickyStoreLogScores);
  }
}
