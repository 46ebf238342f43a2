/** Rules about root frameworks, hooking frameworks and their processes
    (src/rules/FrameworkRules.cpp). */
module FrameworkRules {
  import opened Strings
  import opened Report
  import opened Chains
  import opened Patterns
  import opened OrderedMaps

  // ---------------------------------------------------------------- ProhibitedPackagesRule

  /** One lexicon entry: a package name, the finding it files and where. */
  datatype Threat = Threat(pkg: string, message: string, cat: Category)

  /** The threat lexicon, in listed order. */
  const ThreatLexicon: seq<Threat> := [
    Threat("com.topjohnwu.magisk", MagiskManagerMsg, ProhibitedPackages),
    Threat("io.github.huskydg.magisk", "Magisk (HuskyDG Fork) app detected", ProhibitedPackages),
    Threat("com.topjohnwu.magisk.alpha", "Magisk Alpha app detected", ProhibitedPackages),
    Threat("io.github.vvb2060.magisk", "Magisk (non-stable) app detected", ProhibitedPackages),
    Threat("me.weishu.kernelsu", "KernelSU Manager detected", ProhibitedPackages),
    Threat("com.rifsxd.ksunext", "KernelSU Next app detected", ProhibitedPackages),
    Threat("eu.chainfire.supersu", "SuperSU app detected", ProhibitedPackages),
    Threat("com.koushikdutta.superuser", "Koushik Dutta Superuser app detected", ProhibitedPackages),
    Threat("com.thirdparty.superuser", "Third party Superuser app detected", ProhibitedPackages),
    Threat("com.noshufou.android.su", "Noshufou Superuser app detected", ProhibitedPackages),
    Threat("com.kingroot.kinguser", "KingRoot app detected", ProhibitedPackages),
    Threat("com.kingo.root", "KingoRoot app detected", ProhibitedPackages),
    Threat("com.github.capntrips.kernelflasher", "KernelFlasher app detected", ProhibitedPackages),
    Threat("com.twj.wksu", "WKSU app detected", ProhibitedPackages),
    Threat("com.sukisu.ultra", "SukiSU app detected", ProhibitedPackages),
    Threat("de.robv.android.xposed.installer", "Xposed Installer app detected", ProhibitedPackages),
    Threat("org.lsposed.manager", "LSPosed Manager app detected", ProhibitedPackages),
    Threat("me.weishu.exp", "Exposed Framework app detected", ProhibitedPackages),
    Threat("com.keramidas.TitaniumBackup", TitaniumBackupMsg, ProhibitedPackages),
    Threat("org.adaway", "AdAway app detected", ProhibitedPackages),
    Threat("com.tsng.hidemyapplist", "Hide My Applist app detected", RootHidingAndEvasion),
    Threat("com.f1player", "F1 VM (Virtual Machine) app detected", ProhibitedPackages),
    Threat("com.dualspace.multispace", "Dual Space (Multi Account) app detected", ProhibitedPackages),
    Threat("com.amphoras.hidemyroot", "Hide My Root app detected", RootHidingAndEvasion),
    Threat("com.amphoras.hidemyrootadfree", "Hide My Root (Ad-free) app detected", RootHidingAndEvasion),
    Threat("com.deltazefiro.amarok", "Amarok root hiding app detected", RootHidingAndEvasion),
    Threat("com.saurik.substrate", "Substrate app detected", RootHidingAndEvasion),
    Threat("com.zachspong.temprootremovejb", "Temporary Root Remove JB app detected", RootHidingAndEvasion),
    Threat("org.kdrag0n.safetynetfix", "SafetyNet Fix module app detected", RootHidingAndEvasion),
    Threat("com.chelpus.luckypatcher", "Lucky Patcher app detected", ProhibitedPackages),
    Threat("com.dimonvideo.luckypatcher", "Lucky Patcher (DimonVideo) app detected", ProhibitedPackages),
    Threat("catch_.me_.if_.you_.can_", "Catch Me If You Can app detected", ProhibitedPackages),
    Threat("com.cih.game_cih", "Game CIH app detected", ProhibitedPackages),
    Threat("org.sbtools.gamehack", "SB Game Hacker app detected", ProhibitedPackages),
    Threat("com.sbgamehacker", "SB Game Hacker (legacy) app detected", ProhibitedPackages),
    Threat("com.gameguardian", "Game Guardian app detected", ProhibitedPackages),
    Threat("com.xmodgame", "Xmodgames app detected", ProhibitedPackages),
    Threat("com.lody.virtual", "VirtualXposed / Parallel Space app detected", ProhibitedPackages),
    Threat("com.excelliance.multiaccount", "Multi Parallel app detected", ProhibitedPackages),
    Threat("org.giskard.magisk", "Giskard root detected", RootAndFrameworks),
    Threat("moe.shizuku.privileged.api", "Shizuku app detected", AppAnalysis),
    Threat("com.termux", "Termux app detected", AppAnalysis),
    Threat("com.exynos.abuse", "Exynos Abuse app detected", AppAnalysis),
    Threat("com.google.android.apps.playconsole", "Play Console app detected", AppAnalysis),
    Threat("com.google.android.gms.playconsole", "Play Console (Legacy) app detected", AppAnalysis),
    Threat("meow.helper", "Meow Helper app detected", ProhibitedPackages),
    Threat("com.axlebolt.standoff2.xiaomi", "Plutonium (Standoff 2 Cheat) package detected", ProhibitedPackages)
  ]

  const MagiskManagerMsg := "Magisk" + " Manager app detected"
  const TitaniumBackupMsg := "TitaniumBackup" + " app detected"
  const MeowHelperPkg := "meow.helper"
  const MeowEvasionMsg := "Meow Helper" + " detected (Evasion Tactic)"

  const ProhibitedScores: seq<Branch<int>> := [
    Branch("", [], ["Magisk", "KernelSU", "SukiSU", "Meow Helper"], 4),
    Branch("", [], ["Xposed", "LSPosed"], 4),
    Branch("", [], ["Hide My Root", "SafetyNet Fix", "Amarok"], 3),
    Branch("", [], ["Lucky Patcher", "Game Guardian", "VirtualXposed"], 4),
    Has("Plutonium (Standoff 2 Cheat)", 4),
    Has("TitaniumBackup", 2),
    Has("AdAway", 1),
    Has("Hide My Applist", 3),
    Branch("", [], ["Virtual Machine", "Dual Space"], 2)
  ]

  /** One iteration of the lexicon loop. */
  function ThreatCheck(line: string): Threat -> seq<Emission> {
    (t: Threat) => ThreatHits(line, t)
  }

  /** The findings one package entry files for a line. */
  function ThreatHits(line: string, t: Threat): seq<Emission> {
    if Contains(line, t.pkg)
    then [ThreatFinding(t)] + (if t.pkg == MeowHelperPkg then [MeowEvasion()] else [])
    else []
  }

  /** The finding a package entry files, scored by `getScore`. */
  function ThreatFinding(t: Threat): Emission {
    Emission(t.cat, t.message, ScoreOf(t.message, ProhibitedScores))
  }

  /** The extra evasion finding filed for meow.helper. */
  function MeowEvasion(): Emission {
    Emission(RootHidingAndEvasion, MeowEvasionMsg, ScoreOf(MeowEvasionMsg, ProhibitedScores))
  }

  function ProhibitedPackagesHits(line: string): seq<Emission> {
    Collect(ThreatLexicon, ThreatCheck(line))
  }

  /** A package named in the line has its finding filed under its category. */
  lemma ProhibitedFound(line: string, i: nat)
    requires i < |ThreatLexicon| && Contains(line, ThreatLexicon[i].pkg)
    ensures ThreatLexicon[i].message in MessagesOf(ProhibitedPackagesHits(line), ThreatLexicon[i].cat)
  {
    var t := ThreatLexicon[i];
    CollectMessages(ThreatLexicon, ThreatCheck(line), t.cat, t.message);
    assert ThreatHits(line, t)[0] == ThreatFinding(t);
  }

  /** Nothing is filed but the findings of packages the line names and the
      Meow Helper evasion finding. */
  lemma ProhibitedOnlyFound(line: string, e: Emission)
    requires e in ProhibitedPackagesHits(line)
    ensures (exists i :: 0 <= i < |ThreatLexicon| && Contains(line, ThreatLexicon[i].pkg) &&
                         e == ThreatFinding(ThreatLexicon[i]))
            || (Contains(line, MeowHelperPkg) && e == MeowEvasion())
  {
    CollectFrom(ThreatLexicon, ThreatCheck(line), e);
    var i :| 0 <= i < |ThreatLexicon| && e in ThreatCheck(line)(ThreatLexicon[i]);
    ThreatHitsFrom(line, ThreatLexicon[i], e);
  }

  /** What one entry files comes from a package the line names. */
  lemma ThreatHitsFrom(line: string, t: Threat, e: Emission)
    requires e in ThreatHits(line, t)
    ensures Contains(line, t.pkg)
    ensures e == ThreatFinding(t) || (t.pkg == MeowHelperPkg && e == MeowEvasion())
  {
  }

  /** A line naming meow.helper also files the evasion finding. */
  lemma MeowHelperEvasion(line: string)
    requires Contains(line, MeowHelperPkg)
    ensures MeowEvasionMsg in MessagesOf(ProhibitedPackagesHits(line), RootHidingAndEvasion)
  {
    var t := ThreatLexicon[45];
    assert t.pkg == MeowHelperPkg;
    CollectMessages(ThreatLexicon, ThreatCheck(line), RootHidingAndEvasion, MeowEvasionMsg);
    assert ThreatHits(line, t)[1] == MeowEvasion();
  }

  /** The evasion finding scores 4 through the first score group. */
  lemma MeowEvasionScore()
    ensures ScoreOf(MeowEvasionMsg, ProhibitedScores) == 4
  {
    ContainsFront("Meow Helper", " detected (Evasion Tactic)");
    assert ProhibitedScores[0].any[3] == "Meow Helper";
    FirstBranchDecides(MeowEvasionMsg, ProhibitedScores);
  }

  lemma MagiskManagerScore()
    ensures ScoreOf(MagiskManagerMsg, ProhibitedScores) == 4
  {
    ContainsFront("Magisk", " Manager app detected");
    assert ProhibitedScores[0].any[0] == "Magisk";
    FirstBranchDecides(MagiskManagerMsg, ProhibitedScores);
  }

  lemma TitaniumMisses0()
    ensures !Fires(TitaniumBackupMsg, ProhibitedScores[0])
  {
    var m := TitaniumBackupMsg;
    MissingCharNotContained(m, "Magisk", 0);
    MissingCharNotContained(m, "KernelSU", 0);
    MissingCharNotContained(m, "SukiSU", 0);
    MissingCharNotContained(m, "Meow Helper", 0);
  }

  lemma TitaniumMisses1()
    ensures !Fires(TitaniumBackupMsg, ProhibitedScores[1])
  {
    var m := TitaniumBackupMsg;
    MissingCharNotContained(m, "Xposed", 0);
    MissingCharNotContained(m, "LSPosed", 0);
  }

  lemma TitaniumMisses2()
    ensures !Fires(TitaniumBackupMsg, ProhibitedScores[2])
  {
    var m := TitaniumBackupMsg;
    MissingCharNotContained(m, "Hide My Root", 0);
    MissingCharNotContained(m, "SafetyNet Fix", 0);
    MissingCharNotContained(m, "Amarok", 0);
  }

  lemma TitaniumMisses3()
    ensures !Fires(TitaniumBackupMsg, ProhibitedScores[3])
  {
    var m := TitaniumBackupMsg;
    MissingCharNotContained(m, "Lucky Patcher", 0);
    MissingCharNotContained(m, "Game Guardian", 0);
    MissingCharNotContained(m, "VirtualXposed", 0);
  }

  lemma TitaniumMisses4()
    ensures !Fires(TitaniumBackupMsg, ProhibitedScores[4])
  {
    var m := TitaniumBackupMsg;
    MissingCharNotContained(m, "Plutonium (Standoff 2 Cheat)", 0);
    HasFires(m, "Plutonium (Standoff 2 Cheat)", 4);
  }

  /** TitaniumBackup misses every earlier group and scores 2. */
  lemma TitaniumBackupScore()
    ensures ScoreOf(TitaniumBackupMsg, ProhibitedScores) == 2
  {
    TitaniumMisses0();
    TitaniumMisses1();
    TitaniumMisses2();
    TitaniumMisses3();
    TitaniumMisses4();
    ContainsFront("TitaniumBackup", " app detected");
    HasFires(TitaniumBackupMsg, "TitaniumBackup", 2);
    ScoreIs(TitaniumBackupMsg, ProhibitedScores, 5);
  }

  method ProcessProhibitedPackages(line: string, report: ReportData)
    modifies report
    ensures report.Scoring() == EmittedAll(old(report.Scoring()), ProhibitedPackagesHits(line))
    ensures report.Metadata() == old(report.Metadata())
  {
    for i := 0 to |ThreatLexicon|
      invariant report.Scoring() == EmittedAll(old(report.Scoring()), Collect(ThreatLexicon[..i], ThreatCheck(line)))
      invariant report.Metadata() == old(report.Metadata())
    {
      var t := ThreatLexicon[i];
      CheckThreat(line, t, report);
      CollectStep(ThreatLexicon, i, ThreatCheck(line));
      EmittedAllAppend(old(report.Scoring()), Collect(ThreatLexicon[..i], ThreatCheck(line)), ThreatCheck(line)(t));
    }
    assert ThreatLexicon[..|ThreatLexicon|] == ThreatLexicon;
  }

  /** One package entry of the scan. */
  method CheckThreat(line: string, t: Threat, report: ReportData)
    modifies report
    ensures report.Scoring() == EmittedAll(old(report.Scoring()), ThreatHits(line, t))
    ensures report.Metadata() == old(report.Metadata())
  {
    ghost var before := report.Scoring();
    if Contains(line, t.pkg) {
      var e := ThreatFinding(t);
      var _ := report.Emit(e);
      EmittedOne(before, e);
      if t.pkg == MeowHelperPkg {
        var evasion := MeowEvasion();
        ghost var mid := report.Scoring();
        var _ := report.Emit(evasion);
        EmittedOne(mid, evasion);
        assert ThreatHits(line, t) == [e] + [evasion];
        EmittedAllAppend(before, [e], [evasion]);
      } else {
        assert ThreatHits(line, t) == [e];
      }
    } else {
      assert ThreatHits(line, t) == [];
    }
  }

  // ---------------------------------------------------------------- ZygoteParentRule

  /** `std::stoi` accepts values up to this bound. */
  const IntMax := 2147483647

  /** `next_token`: skip blanks, cut at the next blank, consume that blank. */
  function NextToken(s: string): (r: (string, string))
    ensures s != [] ==> |r.1| < |s|
    ensures forall k :: 0 <= k < |r.0| ==> !IsBlank(r.0[k])
  {
    var t := TrimLeft(s);
    match FirstBlank(t)
    case None => (t, [])
    case Some(p) => (t[..p], t[p + 1..])
  }

  /** The numeric tokens of a line, in order: the values the scan keeps. */
  function NumericTokens(s: string): seq<string>
    decreases |s|
  {
    if s == [] then []
    else
      var next := NextToken(s);
      Kept(next.0) + NumericTokens(next.1)
  }

  /** A token is kept when it is numeric. */
  function Kept(token: string): (r: seq<string>)
    ensures AllNumeric(r)
  {
    if IsNumeric(token) then [token] else []
  }

  /** Every token the scan keeps is numeric. */
  lemma {:induction false} NumericTokensNumeric(s: string)
    ensures AllNumeric(NumericTokens(s))
    decreases |s|
  {
    if s != [] {
      var next := NextToken(s);
      NumericTokensNumeric(next.1);
      AllNumericConcat(Kept(next.0), NumericTokens(next.1));
    }
  }

  predicate AllNumeric(xs: seq<string>) {
    forall i :: 0 <= i < |xs| ==> IsNumeric(xs[i])
  }

  lemma AllNumericConcat(a: seq<string>, b: seq<string>)
    requires AllNumeric(a) && AllNumeric(b)
    ensures AllNumeric(a + b)
  {
    forall i | 0 <= i < |a + b| ensures IsNumeric((a + b)[i]) {
      if i >= |a| { assert (a + b)[i] == b[i - |a|]; }
    }
  }

  /** The scan from `s` on, with `pid` the pid already kept ("" when none
      yet): the pair `(pid_sv, ppid_sv)` it ends with. */
  function IdsFrom(s: string, pid: string): (string, string)
    decreases |s|
  {
    if s == [] then (pid, "")
    else
      var next := NextToken(s);
      if !IsNumeric(next.0) then IdsFrom(next.1, pid)
      else if pid == "" then IdsFrom(next.1, next.0)
      else (pid, next.0)
  }

  /** `(pid_sv, ppid_sv)` of a whole line. */
  function IdPair(line: string): (string, string) {
    IdsFrom(line, "")
  }

  lemma {:induction false} IdsFromNumeric(s: string, pid: string)
    requires pid == "" || IsNumeric(pid)
    ensures IdsFrom(s, pid).0 == "" || IsNumeric(IdsFrom(s, pid).0)
    ensures IdsFrom(s, pid).1 == "" || IsNumeric(IdsFrom(s, pid).1)
    decreases |s|
  {
    if s != [] {
      var next := NextToken(s);
      if !IsNumeric(next.0) {
        IdsFromNumeric(next.1, pid);
      } else if pid == "" {
        IdsFromNumeric(next.1, next.0);
      }
    }
  }

  function Nth(xs: seq<string>, i: nat): string {
    if i < |xs| then xs[i] else ""
  }

  /** With the pid already found, the scan keeps it and the next numeric
      token ("" if there is none). */
  lemma {:induction false} IdsFromTokensAfterPid(s: string, pid: string)
    requires pid != ""
    ensures IdsFrom(s, pid) == (pid, Nth(NumericTokens(s), 0))
    decreases |s|
  {
    if s != [] {
      var next := NextToken(s);
      if !IsNumeric(next.0) {
        assert NumericTokens(s) == NumericTokens(next.1);
        IdsFromTokensAfterPid(next.1, pid);
      } else {
        assert NumericTokens(s) == [next.0] + NumericTokens(next.1);
      }
    }
  }

  /** The scan keeps the first two numeric tokens of the line, "" standing
      for a missing one. */
  lemma {:induction false} IdsFromTokens(s: string)
    ensures IdsFrom(s, "") == (Nth(NumericTokens(s), 0), Nth(NumericTokens(s), 1))
    decreases |s|
  {
    if s != [] {
      var next := NextToken(s);
      if !IsNumeric(next.0) {
        assert NumericTokens(s) == NumericTokens(next.1);
        IdsFromTokens(next.1);
      } else {
        assert NumericTokens(s) == [next.0] + NumericTokens(next.1);
        IdsFromTokensAfterPid(next.1, next.0);
      }
    }
  }

  /** The context after one process-list line: the pid of a magiskd line
      or the parent pid of a zygote line, when both ids parse as `int`. */
  function ZygoteParentCtx(line: string, c: Ctx): Ctx {
    IdsFromNumeric(line, "");
    ParentUpdate(line, IdPair(line).0, IdPair(line).1, c)
  }

  /** What the line records once its pid and ppid tokens are known:
      nothing unless both exist and fit an `int`, and the line has a last
      column naming magiskd or zygote. */
  function ParentUpdate(line: string, p: string, q: string, c: Ctx): Ctx
    requires p == "" || IsNumeric(p)
    requires q == "" || IsNumeric(q)
  {
    if p == "" || q == "" then c
    else if DecimalValue(p) > IntMax || DecimalValue(q) > IntMax then c
    else NamedUpdate(line, DecimalValue(p), DecimalValue(q), c)
  }

  /** The last column decides which of the two ids is recorded. */
  function NamedUpdate(line: string, pid: int, ppid: int, c: Ctx): Ctx {
    match LastBlank(line)
    case None => c
    case Some(k) => NameUpdate(line[k + 1..], pid, ppid, c)
  }

  function NameUpdate(name: string, pid: int, ppid: int, c: Ctx): Ctx {
    if Contains(name, "magiskd") then c.(magiskdPid := Some(pid))
    else if Contains(name, "zygote") then c.(zygotePpid := Some(ppid))
    else c
  }

  lemma NextTokenOf(w: string, rest: string)
    requires w != [] && forall k :: 0 <= k < |w| ==> !IsBlank(w[k])
    ensures NextToken(w + " " + rest) == (w, rest)
  {
    var s := w + " " + rest;
    assert s[0] == w[0];
    assert TrimLeft(s) == s;
    assert s[|w|] == ' ';
    forall j | 0 <= j < |w| ensures !IsBlank(s[j]) { assert s[j] == w[j]; }
    assert FirstBlank(s) == Some(|w|);
    assert forall j :: 0 <= j < |w| ==> s[..|w|][j] == w[j];
    assert forall j :: 0 <= j < |rest| ==> s[|w| + 1..][j] == rest[j];
    assert s[..|w|] == w && s[|w| + 1..] == rest;
  }

  lemma LastBlankIs(s: string, p: nat)
    requires p < |s| && IsBlank(s[p])
    requires forall j :: p < j < |s| ==> !IsBlank(s[j])
    ensures LastBlank(s) == Some(p)
  {
  }

  /** A `ps` line `USER PID PPID ...` whose user column is not numeric:
      the scan keeps the PID and PPID columns. */
  lemma PsLineIds(user: string, a: string, b: string, rest: string)
    requires user != [] && !IsNumeric(user) && forall k :: 0 <= k < |user| ==> !IsBlank(user[k])
    requires IsNumeric(a) && IsNumeric(b)
    ensures IdPair(user + " " + a + " " + b + " " + rest) == (a, b)
  {
    var line := user + " " + a + " " + b + " " + rest;
    var tail := b + " " + rest;
    assert line == user + " " + (a + " " + tail);
    NumericHasNoBlank(a);
    NumericHasNoBlank(b);
    IdsFromCons(user, a + " " + tail, "");
    IdsFromCons(a, tail, "");
    IdsFromCons(b, rest, a);
  }

  lemma NumericHasNoBlank(s: string)
    requires IsNumeric(s)
    ensures s != [] && forall k :: 0 <= k < |s| ==> !IsBlank(s[k])
  {
  }

  lemma IdsFromCons(w: string, rest: string, pid: string)
    requires w != [] && forall k :: 0 <= k < |w| ==> !IsBlank(w[k])
    ensures IdsFrom(w + " " + rest, pid) ==
              if !IsNumeric(w) then IdsFrom(rest, pid) else if pid == "" then IdsFrom(rest, w) else (pid, w)
  {
    NextTokenOf(w, rest);
  }

  /** On a `ps` line whose last column names magiskd, the PID column is
      recorded as magiskd's pid; on a zygote line, the PPID column as
      zygote's parent.  Nothing else in the context changes. */
  lemma ZygoteParentPsLine(user: string, a: string, b: string, mid: string, name: string, c: Ctx)
    requires user != [] && !IsNumeric(user) && forall k :: 0 <= k < |user| ==> !IsBlank(user[k])
    requires IsNumeric(a) && IsNumeric(b) && DecimalValue(a) <= IntMax && DecimalValue(b) <= IntMax
    requires forall k :: 0 <= k < |name| ==> !IsBlank(name[k])
    ensures var line := user + " " + a + " " + b + " " + mid + " " + name;
            ZygoteParentCtx(line, c) ==
              if Contains(name, "magiskd") then c.(magiskdPid := Some(DecimalValue(a)))
              else if Contains(name, "zygote") then c.(zygotePpid := Some(DecimalValue(b)))
              else c
  {
    var line := user + " " + a + " " + b + " " + mid + " " + name;
    assert line == user + " " + a + " " + b + " " + (mid + " " + name);
    PsLineIds(user, a, b, mid + " " + name);
    var k := |line| - |name| - 1;
    assert line[k] == ' ';
    forall j | k < j < |line| ensures !IsBlank(line[j]) { assert line[j] == name[j - k - 1]; }
    LastBlankIs(line, k);
    assert line[k + 1..] == name;
  }

  /** The scan changes at most one of the two pid fields and nothing
      else, and only on a line with at least two numeric tokens. */
  lemma ZygoteParentFrame(line: string, c: Ctx)
    ensures ZygoteParentCtx(line, c).(magiskdPid := c.magiskdPid, zygotePpid := c.zygotePpid) == c
    ensures ZygoteParentCtx(line, c).magiskdPid == c.magiskdPid || ZygoteParentCtx(line, c).zygotePpid == c.zygotePpid
    ensures ZygoteParentCtx(line, c) != c ==> |NumericTokens(line)| >= 2
  {
    IdsFromTokens(line);
  }

  /** The token loop of `processLine`: the first two numeric tokens. */
  method ScanIds(line: string) returns (pidSv: string, ppidSv: string)
    ensures (pidSv, ppidSv) == IdPair(line)
  {
    var lineSv := line;
    pidSv, ppidSv := "", "";
    var pidFound := false;
    while lineSv != []
      invariant ppidSv == ""
      invariant pidFound <==> pidSv != ""
      invariant IdsFrom(lineSv, pidSv) == IdPair(line)
      decreases |lineSv|
    {
      var next := NextToken(lineSv);
      var token := next.0;
      lineSv := next.1;
      if token == [] {
        continue;
      }
      if IsNumeric(token) {
        if !pidFound {
          pidSv := token;
          pidFound := true;
        } else {
          ppidSv := token;
          return;
        }
      }
    }
  }

  method ProcessZygoteParent(line: string, context: AnalysisContext)
    modifies context
    ensures context.State() == ZygoteParentCtx(line, old(context.State()))
  {
    ghost var c := context.State();
    var pidSv, ppidSv := ScanIds(line);
    IdsFromNumeric(line, "");
    assert ZygoteParentCtx(line, c) == ParentUpdate(line, pidSv, ppidSv, c);
    if pidSv == "" || ppidSv == "" {
      return;
    }
    var pid := DecimalValue(pidSv);
    var ppid := DecimalValue(ppidSv);
    if pid > IntMax || ppid > IntMax {
      return;
    }
    var namePos := LastBlank(line);
    if namePos.None? {
      return;
    }
    var name := line[namePos.value + 1..];
    assert ParentUpdate(line, pidSv, ppidSv, c) == NamedUpdate(line, pid, ppid, c);
    RecordNamed(name, pid, ppid, context);
  }

  /** The last-column test of `processLine`. */
  method RecordNamed(name: string, pid: int, ppid: int, context: AnalysisContext)
    modifies context
    ensures context.State() == NameUpdate(name, pid, ppid, old(context.State()))
  {
    if Contains(name, "magiskd") {
      context.magiskdPid := Some(pid);
    } else if Contains(name, "zygote") {
      context.zygotePpid := Some(ppid);
    }
  }

  const ZygiskParentMsg := "Zygisk Anomaly: " + "Zygote parent process is magiskd" + "."
  const ZygoteParentScores: seq<Branch<int>> := [Has("Zygote parent process is magiskd", 7)]

  /** The finalize pass: magiskd is zygote's parent. */
  function ZygoteParentFinalHits(c: Ctx): seq<Emission> {
    if c.magiskdPid.Some? && c.zygotePpid.Some? && c.magiskdPid.value == c.zygotePpid.value
    then [Emission(Anomalies, ZygiskParentMsg, ScoreOf(ZygiskParentMsg, ZygoteParentScores))]
    else []
  }

  /** The anomaly is filed, for 7 points, exactly when both pids were
      seen and zygote's parent is magiskd. */
  lemma ZygoteParentFinalSpec(c: Ctx)
    ensures ZygoteParentFinalHits(c) != [] <==> c.magiskdPid.Some? && c.zygotePpid == c.magiskdPid
    ensures ZygoteParentFinalHits(c) != [] ==> ZygoteParentFinalHits(c) == [Emission(Anomalies, ZygiskParentMsg, 7)]
  {
    ContainsMiddle("Zygisk Anomaly: ", "Zygote parent process is magiskd", ".");
    HasFires(ZygiskParentMsg, "Zygote parent process is magiskd", 7);
    FirstBranchDecides(ZygiskParentMsg, ZygoteParentScores);
  }

  method FinalizeZygoteParent(report: ReportData, context: AnalysisContext)
    modifies report
    ensures report.Scoring() == EmittedAll(old(report.Scoring()), ZygoteParentFinalHits(context.State()))
    ensures report.Metadata() == old(report.Metadata())
  {
    if context.magiskdPid.Some? && context.zygotePpid.Some? && context.magiskdPid.value == context.zygotePpid.value {
      var _ := report.Emit(Emission(Anomalies, ZygiskParentMsg, ScoreOf(ZygiskParentMsg, ZygoteParentScores)));
    }
  }

  // ---------------------------------------------------------------- RootActivityRule

  const RootWhitelist: set<string> := {
    "init", "kthreadd", "adbd", "lmkd", "logd", "servicemanager", "ueventd", "vold",
    "healthd", "installd", "storaged", "netd", "surfaceflinger", "wificond", "zygote", "zygote64"
  }

  /** The blacklist, in ascending order. Its container's declaration is not
      part of this model; the order does not change the result, since the
      findings form a set and points are added only for a new text. */
  const RootBlacklist: seq<string> := ["apatchd", "frida-server", "ksud", "magiskd", "zygiskd"]

  function RootProcessMsg(p: string): string {
    "Root Process:" + " '" + p + "' process detected."
  }

  function SuspiciousRootMsg(p: string): string {
    "Suspicious " + "Root Process:" + " Non-standard process '" + p + "' running as root."
  }

  /** As written the general "Root Process:" test comes first. */
  const RootScores: seq<Branch<int>> := [Has("Root Process:", 6), Has("Suspicious " + "Root Process:", 3)]

  function BlacklistCheck(line: string): string -> seq<Emission> {
    p => if Contains(line, p)
         then [Emission(RootAndFrameworks, RootProcessMsg(p), ScoreOf(RootProcessMsg(p), RootScores))]
         else []
  }

  function RootActivityHits(line: string): seq<Emission> {
    Collect(RootBlacklist, BlacklistCheck(line))
  }

  /** The basename of the last column of a line that starts with "root"
      after its blanks. */
  function RootColumnBase(line: string): Option<string>
  {
    if !StartsWith(TrimLeft(line), "root") then None
    else match LastBlank(line)
      case None => None
      case Some(k) =>
        Some(BaseName(line[k + 1..]))
  }

  /** What follows the last '/' of a name, or the whole name without one. */
  function BaseName(name: string): (b: string)
    ensures '/' !in b
    ensures |b| <= |name| && forall i :: 0 <= i < |b| ==> b[i] == name[|name| - |b| + i]
  {
    match FindLastChar(name, '/')
    case None => name
    case Some(j) => name[j + 1..]
  }

  /** The process a root-owned line records, unless whitelisted. */
  function RootCandidate(line: string, whitelist: set<string>): Option<string> {
    match RootColumnBase(line)
    case None => None
    case Some(b) => if b in whitelist then None else Some(b)
  }

  /** Only a line owned by root yields a name, and that name has no '/'
      and no blanks, and ends the line. */
  lemma RootColumnBaseShape(line: string)
    ensures var r := RootColumnBase(line);
            r.Some? ==> && StartsWith(TrimLeft(line), "root")
                        && '/' !in r.value
                        && (forall k :: 0 <= k < |r.value| ==> !IsBlank(r.value[k]))
                        && EndsWith(line, r.value)
  {
    if RootColumnBase(line).Some? {
      BaseNameTail(line, LastBlank(line).value + 1);
    }
  }

  /** The basename of a blank-free tail of a line is blank-free and ends
      the line. */
  lemma BaseNameTail(line: string, t: nat)
    requires t <= |line|
    requires forall j :: t <= j < |line| ==> !IsBlank(line[j])
    ensures var b := BaseName(line[t..]);
            (forall k :: 0 <= k < |b| ==> !IsBlank(b[k])) && EndsWith(line, b)
  {
    var b := BaseName(line[t..]);
    var u := |line| - |b|;
    assert forall i :: 0 <= i < |b| ==> b[i] == line[u + i];
    assert b == line[u..];
    LineTail(line, u);
  }

  /** A blank-free tail of a line ends it. */
  lemma LineTail(line: string, t: nat)
    requires t <= |line|
    requires forall j :: t <= j < |line| ==> !IsBlank(line[j])
    ensures forall k :: 0 <= k < |line[t..]| ==> !IsBlank(line[t..][k])
    ensures EndsWith(line, line[t..])
  {
    assert |line| - |line[t..]| == t;
  }

  /** Only a line owned by root records anything, and what it records is a
      non-whitelisted name without '/' and without blanks, ending the line. */
  lemma RootCandidateShape(line: string, whitelist: set<string>)
    ensures var r := RootCandidate(line, whitelist);
            r.Some? ==> && StartsWith(TrimLeft(line), "root")
                        && r.value !in whitelist
                        && '/' !in r.value
                        && (forall k :: 0 <= k < |r.value| ==> !IsBlank(r.value[k]))
                        && EndsWith(line, r.value)
  {
    RootColumnBaseShape(line);
  }

  function RootActivityCtx(line: string, whitelist: set<string>, c: Ctx): Ctx {
    match RootCandidate(line, whitelist)
    case None => c
    case Some(b) => c.(suspiciousRootProcs := Insert(c.suspiciousRootProcs, b))
  }

  /** One finding per blacklisted name in the line, and no other, each
      for 6 points. */
  lemma RootActivitySpec(line: string, p: string)
    requires p in RootBlacklist
    ensures RootProcessMsg(p) in MessagesOf(RootActivityHits(line), RootAndFrameworks) <==> Contains(line, p)
  {
    var m := RootProcessMsg(p);
    CollectMessages(RootBlacklist, BlacklistCheck(line), RootAndFrameworks, m);
    if m in MessagesOf(RootActivityHits(line), RootAndFrameworks) {
      var i :| 0 <= i < |RootBlacklist| && m in MessagesOf(BlacklistCheck(line)(RootBlacklist[i]), RootAndFrameworks);
      var q := RootBlacklist[i];
      assert RootProcessMsg(q) == m;
      WrapInjective("Root Process:" + " '", q, p, "' process detected.");
    } else {
      var i :| 0 <= i < |RootBlacklist| && RootBlacklist[i] == p;
    }
  }

  lemma RootProcessScore(p: string)
    ensures ScoreOf(RootProcessMsg(p), RootScores) == 6
  {
    assert RootProcessMsg(p) == "Root Process:" + (" '" + p + "' process detected.");
    ContainsFront("Root Process:", " '" + p + "' process detected.");
    HasFires(RootProcessMsg(p), "Root Process:", 6);
    FirstBranchDecides(RootProcessMsg(p), RootScores);
  }

  /** Every message the 3-point test matches also matches the 6-point test
      before it, so the 3-point score is never given: a suspicious root
      process scores 6. */
  lemma SuspiciousRootScore(p: string, msg: string)
    ensures ScoreOf(SuspiciousRootMsg(p), RootScores) == 6
    ensures FirstMatch(msg, RootScores) != Some(1)
  {
    assert SuspiciousRootMsg(p) == "Suspicious " + "Root Process:" + (" Non-standard process '" + p + "' running as root.");
    ContainsMiddle("Suspicious ", "Root Process:", " Non-standard process '" + p + "' running as root.");
    HasFires(SuspiciousRootMsg(p), "Root Process:", 6);
    FirstBranchDecides(SuspiciousRootMsg(p), RootScores);
    HasFires(msg, "Root Process:", 6);
    HasFires(msg, "Suspicious " + "Root Process:", 3);
    assert "Suspicious " + "Root Process:" == "Suspicious " + "Root Process:" + "";
    ContainsMiddle("Suspicious ", "Root Process:", "");
    if Contains(msg, "Suspicious " + "Root Process:") {
      ContainsTrans(msg, "Suspicious " + "Root Process:", "Root Process:");
    }
    Shadowed(msg, RootScores, 0, 1);
  }

  lemma LastCharIs(s: string, c: char, p: nat)
    requires p < |s| && s[p] == c
    requires forall j :: p < j < |s| ==> s[j] != c
    ensures FindLastChar(s, c) == Some(p)
  {
  }

  lemma LastColumn(pre: string, name: string)
    requires forall k :: 0 <= k < |name| ==> !IsBlank(name[k])
    ensures LastBlank(pre + " " + name) == Some(|pre|)
    ensures (pre + " " + name)[|pre| + 1..] == name
  {
    var line := pre + " " + name;
    forall j | |pre| < j < |line| ensures !IsBlank(line[j]) { assert line[j] == name[j - |pre| - 1]; }
    LastBlankIs(line, |pre|);
  }

  lemma BaseNameOf(dir: string, base: string)
    requires '/' !in base
    ensures BaseName(dir + "/" + base) == base
  {
    var name := dir + "/" + base;
    forall j | |dir| < j < |name| ensures name[j] != '/' { assert name[j] == base[j - |dir| - 1]; }
    LastCharIs(name, '/', |dir|);
    assert name[|dir| + 1..] == base;
  }

  /** The basename of a root-owned line `root... DIR/BASE`. */
  lemma RootCandidateOf(pre: string, dir: string, base: string)
    requires StartsWith(pre, "root")
    requires forall k :: 0 <= k < |dir| ==> !IsBlank(dir[k])
    requires forall k :: 0 <= k < |base| ==> !IsBlank(base[k]) && base[k] != '/'
    ensures RootColumnBase(pre + " " + dir + "/" + base) == Some(base)
  {
    var name := dir + "/" + base;
    var line := pre + " " + name;
    assert line == pre + " " + dir + "/" + base;
    assert line == pre + (" " + name);
    RootOwned(pre, " " + name);
    BlankFreePath(dir, base);
    LastColumn(pre, name);
    BaseNameOf(dir, base);
    assert RootColumnBase(line) == Some(BaseName(name));
  }

  lemma RootOwned(pre: string, rest: string)
    requires StartsWith(pre, "root")
    ensures StartsWith(TrimLeft(pre + rest), "root")
  {
    var line := pre + rest;
    assert line[0] == pre[0] == 'r';
    assert TrimLeft(line) == line;
    assert forall k :: 0 <= k < 4 ==> line[..4][k] == pre[..4][k];
  }

  lemma BlankFreePath(dir: string, base: string)
    requires forall k :: 0 <= k < |dir| ==> !IsBlank(dir[k])
    requires forall k :: 0 <= k < |base| ==> !IsBlank(base[k])
    ensures forall k :: 0 <= k < |dir + "/" + base| ==> !IsBlank((dir + "/" + base)[k])
  {
    var name := dir + "/" + base;
    forall k | 0 <= k < |name| ensures !IsBlank(name[k]) {
      if k < |dir| { assert name[k] == dir[k]; } else if k > |dir| { assert name[k] == base[k - |dir| - 1]; }
    }
  }

  /** A root-owned line is recorded by basename unless whitelisted; the
      record stays a set in ascending order. */
  lemma RootActivityCtxSpec(pre: string, dir: string, base: string, whitelist: set<string>, c: Ctx)
    requires StartsWith(pre, "root")
    requires forall k :: 0 <= k < |dir| ==> !IsBlank(dir[k])
    requires forall k :: 0 <= k < |base| ==> !IsBlank(base[k]) && base[k] != '/'
    requires SortedSet(c.suspiciousRootProcs)
    ensures var c2 := RootActivityCtx(pre + " " + dir + "/" + base, whitelist, c);
            && SortedSet(c2.suspiciousRootProcs)
            && (forall q :: q in c2.suspiciousRootProcs <==>
                  q in c.suspiciousRootProcs || (q == base && base !in whitelist))
            && c2.(suspiciousRootProcs := c.suspiciousRootProcs) == c
  {
    RootCandidateOf(pre, dir, base);
    assert RootCandidate(pre + " " + dir + "/" + base, whitelist) == if base in whitelist then None else Some(base);
    if base !in whitelist {
      InsertSorted(c.suspiciousRootProcs, base);
    }
  }

  method ProcessRootActivity(line: string, report: ReportData, context: AnalysisContext)
    modifies report, context
    ensures report.Scoring() == EmittedAll(old(report.Scoring()), RootActivityHits(line))
    ensures report.Metadata() == old(report.Metadata())
    ensures context.State() == RootActivityCtx(line, RootWhitelist, old(context.State()))
  {
    for i := 0 to |RootBlacklist|
      invariant report.Scoring() == EmittedAll(old(report.Scoring()), Collect(RootBlacklist[..i], BlacklistCheck(line)))
      invariant report.Metadata() == old(report.Metadata())
      invariant unchanged(context)
    {
      var procName := RootBlacklist[i];
      ghost var before := report.Scoring();
      if Contains(line, procName) {
        var _ := report.Emit(Emission(RootAndFrameworks, RootProcessMsg(procName), ScoreOf(RootProcessMsg(procName), RootScores)));
      }
      assert report.Scoring() == EmittedAll(before, BlacklistCheck(line)(procName));
      CollectStep(RootBlacklist, i, BlacklistCheck(line));
      EmittedAllAppend(old(report.Scoring()), Collect(RootBlacklist[..i], BlacklistCheck(line)), BlacklistCheck(line)(procName));
    }
    assert RootBlacklist[..|RootBlacklist|] == RootBlacklist;

    RecordRootCandidate(line, RootWhitelist, context);
  }

  /** The root-owner check of `processLine`: the basename it derives is
      recorded unless whitelisted. */
  method RecordRootCandidate(line: string, whitelist: set<string>, context: AnalysisContext)
    modifies context
    ensures context.State() == RootActivityCtx(line, whitelist, old(context.State()))
  {
    var basename := RootColumnBase(line);
    if basename.Some? && basename.value !in whitelist {
      context.suspiciousRootProcs := Insert(context.suspiciousRootProcs, basename.value);
    }
  }

  function SuspiciousRootCheck(p: string): seq<Emission> {
    [Emission(RootAndFrameworks, SuspiciousRootMsg(p), ScoreOf(SuspiciousRootMsg(p), RootScores))]
  }

  /** The finalize pass over the recorded processes, in ascending order. */
  function RootActivityFinalHits(c: Ctx): seq<Emission> {
    Collect(c.suspiciousRootProcs, SuspiciousRootCheck)
  }

  /** Every recorded process, and no other, gets its finding. */
  lemma RootActivityFinalSpec(c: Ctx, p: string)
    ensures SuspiciousRootMsg(p) in MessagesOf(RootActivityFinalHits(c), RootAndFrameworks) <==> p in c.suspiciousRootProcs
  {
    var m := SuspiciousRootMsg(p);
    var xs := c.suspiciousRootProcs;
    CollectMessages(xs, SuspiciousRootCheck, RootAndFrameworks, m);
    if m in MessagesOf(RootActivityFinalHits(c), RootAndFrameworks) {
      var i :| 0 <= i < |xs| && m in MessagesOf(SuspiciousRootCheck(xs[i]), RootAndFrameworks);
      WrapInjective("Suspicious " + "Root Process:" + " Non-standard process '", xs[i], p, "' running as root.");
    }
  }

  method FinalizeRootActivity(report: ReportData, context: AnalysisContext)
    modifies report
    ensures report.Scoring() == EmittedAll(old(report.Scoring()), RootActivityFinalHits(context.State()))
    ensures report.Metadata() == old(report.Metadata())
  {
    var procs := context.suspiciousRootProcs;
    for i := 0 to |procs|
      invariant report.Scoring() == EmittedAll(old(report.Scoring()), Collect(procs[..i], SuspiciousRootCheck))
      invariant report.Metadata() == old(report.Metadata())
    {
      var proc := procs[i];
      ghost var before := report.Scoring();
      var _ := report.Emit(Emission(RootAndFrameworks, SuspiciousRootMsg(proc), ScoreOf(SuspiciousRootMsg(proc), RootScores)));
      assert report.Scoring() == EmittedAll(before, SuspiciousRootCheck(proc));
      CollectStep(procs, i, SuspiciousRootCheck);
      EmittedAllAppend(old(report.Scoring()), Collect(procs[..i], SuspiciousRootCheck), SuspiciousRootCheck(proc));
    }
    assert procs[..|procs|] == procs;
  }

  // ---------------------------------------------------------------- SelinuxContextRule

  const MagiskFileCtxMsg := "SELinux: Found " + "'magisk_file'" + " context, a strong indicator of Magisk."
  const MagiskProcCtxMsg := "SELinux: " + "Active Magisk process context" + " detected."
  const AlphaProcCtxMsg := "SELinux: Active " + "Magisk Alpha" + " process context detected."
  const ApatchProcCtxMsg := "SELinux: " + "Active APatch process context" + " detected."

  const SelinuxContextBranches: seq<Branch<string>> := [
    Has("u:object_r:magisk_file:s0", MagiskFileCtxMsg), Has("u:r:magisk:s0", MagiskProcCtxMsg),
    Has("u:r:magisk_alpha:s0", AlphaProcCtxMsg), Has("u:r:apatch:s0", ApatchProcCtxMsg)
  ]
  const SelinuxContextScores: seq<Branch<int>> := [
    Has("'magisk_file'", 4), Has("Active Magisk process context", 6), Has("Active APatch process context", 6)
  ]

  function SelinuxContextHits(line: string): seq<Emission> {
    ChainHits(line, AnomalousLogs, SelinuxContextBranches, SelinuxContextScores)
  }

  /** A line with the magisk_file label files that finding and no other,
      whatever other labels it carries. */
  lemma MagiskFileContextWins(line: string)
    requires Contains(line, "u:object_r:magisk_file:s0")
    ensures SelinuxContextHits(line) == [Emission(AnomalousLogs, MagiskFileCtxMsg, 4)]
  {
    HasFires(line, "u:object_r:magisk_file:s0", MagiskFileCtxMsg);
    FirstBranchDecides(line, SelinuxContextBranches);
    ContainsMiddle("SELinux: Found ", "'magisk_file'", " context, a strong indicator of Magisk.");
    HasFires(MagiskFileCtxMsg, "'magisk_file'", 4);
    FirstBranchDecides(MagiskFileCtxMsg, SelinuxContextScores);
  }

  lemma MagiskProcContextScore()
    ensures ScoreOf(MagiskProcCtxMsg, SelinuxContextScores) == 6
  {
    ContainsMiddle("SELinux: ", "Active Magisk process context", " detected.");
    MissingCharNotContained(MagiskProcCtxMsg, "'magisk_file'", 0);
    HasFires(MagiskProcCtxMsg, "'magisk_file'", 4);
    HasFires(MagiskProcCtxMsg, "Active Magisk process context", 6);
    ScoreIs(MagiskProcCtxMsg, SelinuxContextScores, 1);
  }

  lemma ApatchMissesMagiskTest()
    ensures !Contains(ApatchProcCtxMsg, "Active Magisk process context")
  {
    MissingCharNotContained(ApatchProcCtxMsg, "Active Magisk process context", 7);
  }

  lemma ApatchProcContextScore()
    ensures ScoreOf(ApatchProcCtxMsg, SelinuxContextScores) == 6
  {
    ContainsMiddle("SELinux: ", "Active APatch process context", " detected.");
    MissingCharNotContained(ApatchProcCtxMsg, "'magisk_file'", 0);
    ApatchMissesMagiskTest();
    HasFires(ApatchProcCtxMsg, "'magisk_file'", 4);
    HasFires(ApatchProcCtxMsg, "Active Magisk process context", 6);
    HasFires(ApatchProcCtxMsg, "Active APatch process context", 6);
    ScoreIs(ApatchProcCtxMsg, SelinuxContextScores, 2);
  }

  /** "Active Magisk process context" could only start where its 'M'
      lines up with the one 'M' of the Alpha text, and it does not occur
      there. */
  lemma AlphaMissesMagiskTest()
    ensures !Contains(AlphaProcCtxMsg, "Active Magisk process context")
  {
    var p := "Active Magisk process context";
    var a, b := "SELinux: Active ", "agisk Alpha" + " process context detected.";
    var m := a + [p[7]] + b;
    assert "Magisk Alpha" == [p[7]] + "agisk Alpha";
    assert m == AlphaProcCtxMsg;
    assert m[23] == 'A' && p[14] == 'p';
    assert !OccursAt(m, p, 9);
    SplitCharNotContained(a, b, p, 7);
  }

  /** The Magisk Alpha context finding is filed but scores 0: none of the
      three score tests matches its text ("Active Magisk Alpha process
      context" is not "Active Magisk process context"). */
  lemma AlphaProcContextScoresZero()
    ensures ScoreOf(AlphaProcCtxMsg, SelinuxContextScores) == 0
  {
    var m := AlphaProcCtxMsg;
    AlphaMissesMagiskTest();
    MissingCharNotContained(m, "'magisk_file'", 0);
    MissingCharNotContained(m, "Active APatch process context", 8);
    HasFires(m, "'magisk_file'", 4);
    HasFires(m, "Active Magisk process context", 6);
    HasFires(m, "Active APatch process context", 6);
  }

  // ---------------------------------------------------------------- LoadedLibrariesRule

  const ZygiskLibMsg := "Zygisk library loaded" + " into a process."
  const XposedArtifactMsg := "Xposed framework artifact" + " loaded: XposedBridge.jar"
  const FridaLibMsg := "Instrumentation Framework: " + "Frida library loaded" + " into a process."

  const LoadedLibrariesBranches: seq<Branch<string>> := [
    Has("libzygisk.so", ZygiskLibMsg), Has("XposedBridge.jar", XposedArtifactMsg),
    Branch("", [], ["libfrida-gadget.so", "libfrida-agent.so"], FridaLibMsg)
  ]
  const LoadedLibrariesScores: seq<Branch<int>> := [
    Has("Zygisk library loaded", 5), Has("Xposed framework artifact", 5), Has("Frida library loaded", 7)
  ]

  function LoadedLibrariesHits(line: string): seq<Emission> {
    ChainHits(line, RootAndFrameworks, LoadedLibrariesBranches, LoadedLibrariesScores)
  }

  /** A line mapping libzygisk.so files the Zygisk finding (5 points) and
      nothing else, whatever other libraries it names. */
  lemma ZygiskLibWins(line: string)
    requires Contains(line, "libzygisk.so")
    ensures LoadedLibrariesHits(line) == [Emission(RootAndFrameworks, ZygiskLibMsg, 5)]
  {
    HasFires(line, "libzygisk.so", ZygiskLibMsg);
    FirstBranchDecides(line, LoadedLibrariesBranches);
    ContainsFront("Zygisk library loaded", " into a process.");
    HasFires(ZygiskLibMsg, "Zygisk library loaded", 5);
    FirstBranchDecides(ZygiskLibMsg, LoadedLibrariesScores);
  }

  /** Either Frida library, on a line without the two earlier markers,
      files the Frida finding for 7 points. */
  lemma FridaLibFinding(line: string)
    requires Contains(line, "libfrida-gadget.so") || Contains(line, "libfrida-agent.so")
    requires !Contains(line, "libzygisk.so") && !Contains(line, "XposedBridge.jar")
    ensures LoadedLibrariesHits(line) == [Emission(RootAndFrameworks, FridaLibMsg, 7)]
  {
    var b := LoadedLibrariesBranches[2];
    assert StartsWith(line, "");
    assert b.any == ["libfrida-gadget.so", "libfrida-agent.so"];
    if Contains(line, "libfrida-gadget.so") { assert Contains(line, b.any[0]); } else { assert Contains(line, b.any[1]); }
    HasFires(line, "libzygisk.so", ZygiskLibMsg);
    HasFires(line, "XposedBridge.jar", XposedArtifactMsg);
    assert FirstMatch(line, LoadedLibrariesBranches) == Some(2);
    FridaLibScore();
  }

  lemma FridaMissesXposedTest()
    ensures !Contains(FridaLibMsg, "Xposed framework artifact")
  {
    MissingCharNotContained(FridaLibMsg, "Xposed framework artifact", 0);
  }

  lemma FridaLibScore()
    ensures ScoreOf(FridaLibMsg, LoadedLibrariesScores) == 7
  {
    ContainsMiddle("Instrumentation Framework: ", "Frida library loaded", " into a process.");
    MissingCharNotContained(FridaLibMsg, "Zygisk library loaded", 0);
    FridaMissesXposedTest();
    HasFires(FridaLibMsg, "Zygisk library loaded", 5);
    HasFires(FridaLibMsg, "Xposed framework artifact", 5);
    HasFires(FridaLibMsg, "Frida library loaded", 7);
    ScoreIs(FridaLibMsg, LoadedLibrariesScores, 2);
  }

  lemma XposedArtifactScore()
    ensures ScoreOf(XposedArtifactMsg, LoadedLibrariesScores) == 5
  {
    ContainsFront("Xposed framework artifact", " loaded: XposedBridge.jar");
    MissingCharNotContained(XposedArtifactMsg, "Zygisk library loaded", 0);
    HasFires(XposedArtifactMsg, "Zygisk library loaded", 5);
    HasFires(XposedArtifactMsg, "Xposed framework artifact", 5);
    ScoreIs(XposedArtifactMsg, LoadedLibrariesScores, 1);
  }

  // ---------------------------------------------------------------- EnvironmentRule

  const MagiskPathMsg := "Magisk path found" + " in PATH environment variable."
  const LdPreloadMsg := "LD_PRELOAD" + " environment variable is set," + " indicating potential" + " code injection."

  const EnvironmentBranches: seq<Branch<string>> := [
    Branch("", ["PATH", "/data/adb/magisk"], [], MagiskPathMsg), Has("LD_PRELOAD", LdPreloadMsg)
  ]
  const EnvironmentScores: seq<Branch<int>> := [Has("Magisk path found", 4), Has("LD_PRELOAD", 5)]

  function EnvironmentHits(line: string): seq<Emission> {
    ChainHits(line, RootAndFrameworks, EnvironmentBranches, EnvironmentScores)
  }

  /** The Magisk PATH test comes first: a line with both "PATH" and
      "/data/adb/magisk" files only that finding, even with LD_PRELOAD. */
  lemma MagiskPathWins(line: string)
    requires Contains(line, "PATH") && Contains(line, "/data/adb/magisk")
    ensures EnvironmentHits(line) == [Emission(RootAndFrameworks, MagiskPathMsg, 4)]
  {
    BothFires(line, "PATH", "/data/adb/magisk", MagiskPathMsg);
    FirstBranchDecides(line, EnvironmentBranches);
    ContainsFront("Magisk path found", " in PATH environment variable.");
    HasFires(MagiskPathMsg, "Magisk path found", 4);
    FirstBranchDecides(MagiskPathMsg, EnvironmentScores);
  }

  /** Otherwise LD_PRELOAD files its own finding, for 5 points. */
  lemma LdPreloadFinding(line: string)
    requires Contains(line, "LD_PRELOAD")
    requires !(Contains(line, "PATH") && Contains(line, "/data/adb/magisk"))
    ensures EnvironmentHits(line) == [Emission(RootAndFrameworks, LdPreloadMsg, 5)]
  {
    BothFires(line, "PATH", "/data/adb/magisk", MagiskPathMsg);
    HasFires(line, "LD_PRELOAD", LdPreloadMsg);
    assert FirstMatch(line, EnvironmentBranches) == Some(1);
    LdPreloadScore();
  }

  lemma LdPreloadScore()
    ensures ScoreOf(LdPreloadMsg, EnvironmentScores) == 5
  {
    assert LdPreloadMsg == "LD_PRELOAD" + (" environment variable is set," + " indicating potential" + " code injection.");
    ContainsFront("LD_PRELOAD", " environment variable is set," + " indicating potential" + " code injection.");
    MissingCharNotContained(LdPreloadMsg, "Magisk path found", 0);
    HasFires(LdPreloadMsg, "Magisk path found", 4);
    HasFires(LdPreloadMsg, "LD_PRELOAD", 5);
    ScoreIs(LdPreloadMsg, EnvironmentScores, 1);
  }

  // ---------------------------------------------------------------- FrameworkRule

  function LsposedVersionMsg(v: string): string { "LSPosed framework detected" + " (Version: " + v + ")" }
  function LsposedHookMsg(app: string): string { "LSPosed Hook" + ": Module active for app '" + app + "'." }
  const XposedTagMsg := "Xposed/EdXposed framework" + " log tag detected."
  const ShamikoTagMsg := "Shamiko root hiding module" + " log tag detected."
  const MagiskHideTagMsg := "Legacy " + "MagiskHide log tag" + " detected."
  const MagiskAlphaTagMsg := "Magisk Alpha log tag" + " detected."
  const ZygiskPtraceMsg := "Zygisk ptrace activity" + " detected in logs."

  /** The branches after the LSPosed one, in order. */
  const FrameworkBranches: seq<Branch<string>> := [
    Branch("", [], ["Xposed", "EdXposed"], XposedTagMsg),
    Has("Shamiko", ShamikoTagMsg),
    Has("MagiskHide", MagiskHideTagMsg),
    Branch("", ["Magisk", "Alpha"], [], MagiskAlphaTagMsg),
    Branch("", ["zygisk", "ptrace"], [], ZygiskPtraceMsg)
  ]

  const FrameworkScores: seq<Branch<int>> := [
    Has("LSPosed framework detected", 5), Has("Xposed/EdXposed framework", 4),
    Has("Shamiko root hiding module", 5), Has("MagiskHide log tag", 3),
    Has("Magisk Alpha log tag", 6), Has("LSPosed Hook", 2), Has("Zygisk ptrace activity", 5)
  ]

  /** The hook finding of an LSPosed line, under AppAnalysis, when
      `target=(.+?)\s` matches. */
  function LsposedHookHits(line: string): seq<Emission> {
    match Search(line, LsposedTargetAt)
    case Some(app) => [Emission(AppAnalysis, LsposedHookMsg(app), ScoreOf(LsposedHookMsg(app), FrameworkScores))]
    case None => []
  }

  /** The version finding of an LSPosed line, when
      `LSPosed version ([\d\.]+) ` matches. */
  function LsposedVersionHits(line: string): seq<Emission> {
    match Search(line, LsposedVersionAt)
    case Some(v) => [Emission(RootAndFrameworks, LsposedVersionMsg(v), ScoreOf(LsposedVersionMsg(v), FrameworkScores))]
    case None => []
  }

  /** What a line files: on a line naming LSPosed, the hook finding and
      then the version finding; on any other line, the finding of the
      first remaining branch that holds. */
  function FrameworkHits(line: string): seq<Emission> {
    if Contains(line, "LSPosed") then LsposedHookHits(line) + LsposedVersionHits(line)
    else ChainHits(line, RootAndFrameworks, FrameworkBranches, FrameworkScores)
  }

  /** `lastDetectedFramework` after the line: set by the LSPosed, Shamiko
      and zygisk/ptrace branches, kept by every other line. */
  function FrameworkLabel(line: string, prev: string): string {
    if Contains(line, "LSPosed") then "LSPosed"
    else
      var k := FirstMatch(line, FrameworkBranches);
      if k == Some(1) then "Shamiko" else if k == Some(4) then "Zygisk" else prev
  }

  function FrameworkCtx(line: string, c: Ctx): Ctx {
    c.(lastDetectedFramework := FrameworkLabel(line, c.lastDetectedFramework))
  }

  /** "EdXposed" contains "Xposed", so the second test of the Xposed
      branch adds nothing. */
  lemma XposedTest(line: string)
    ensures Fires(line, FrameworkBranches[0]) <==> Contains(line, "Xposed")
  {
    EitherFires(line, "Xposed", "EdXposed", XposedTagMsg);
    ContainsMiddle("Ed", "Xposed", "");
    assert "Ed" + "Xposed" + "" == "EdXposed";
    if Contains(line, "EdXposed") { ContainsTrans(line, "EdXposed", "Xposed"); }
  }

  /** A version line is reported with its version, for 5 points, after at
      most one hook finding, and sets the label to "LSPosed". */
  lemma LsposedVersionLine(v: string, rest: string, prev: string)
    requires v != [] && forall k :: 0 <= k < |v| ==> IsDigitOrDot(v[k])
    ensures var line := "LSPosed version " + v + " " + rest;
            var es := FrameworkHits(line);
            && 1 <= |es| <= 2
            && es[|es| - 1] == Emission(RootAndFrameworks, LsposedVersionMsg(v), 5)
            && (|es| == 2 ==> es[0].cat == AppAnalysis)
            && FrameworkLabel(line, prev) == "LSPosed"
  {
    var line := "LSPosed version " + v + " " + rest;
    assert line == "LSPosed" + (" version " + v + " " + rest);
    ContainsFront("LSPosed", " version " + v + " " + rest);
    LsposedVersionRoundTrip(v, rest);
    LsposedVersionScore(v);
  }

  /** A Shamiko line (without the LSPosed and Xposed markers) files the
      Shamiko finding for 5 points and sets the label to "Shamiko". */
  lemma ShamikoLine(line: string, prev: string)
    requires Contains(line, "Shamiko") && !Contains(line, "LSPosed") && !Contains(line, "Xposed")
    ensures FrameworkHits(line) == [Emission(RootAndFrameworks, ShamikoTagMsg, 5)]
    ensures FrameworkLabel(line, prev) == "Shamiko"
  {
    XposedTest(line);
    HasFires(line, "Shamiko", ShamikoTagMsg);
    FirstMatchIs(line, FrameworkBranches, 1);
    ShamikoTagScore();
  }

  /** A zygisk/ptrace line reaching the last branch files its finding for
      5 points and sets the label to "Zygisk". */
  lemma ZygiskPtraceLine(line: string, prev: string)
    requires Contains(line, "zygisk") && Contains(line, "ptrace")
    requires !Contains(line, "LSPosed") && !Contains(line, "Xposed") && !Contains(line, "Shamiko")
    requires !Contains(line, "MagiskHide") && !(Contains(line, "Magisk") && Contains(line, "Alpha"))
    ensures FrameworkHits(line) == [Emission(RootAndFrameworks, ZygiskPtraceMsg, 5)]
    ensures FrameworkLabel(line, prev) == "Zygisk"
  {
    XposedTest(line);
    HasFires(line, "Shamiko", ShamikoTagMsg);
    HasFires(line, "MagiskHide", MagiskHideTagMsg);
    BothFires(line, "Magisk", "Alpha", MagiskAlphaTagMsg);
    BothFires(line, "zygisk", "ptrace", ZygiskPtraceMsg);
    FirstMatchIs(line, FrameworkBranches, 4);
    ZygiskPtraceScore();
  }

  /** The label changes only to one of the three framework names, and only
      on a line that names LSPosed or files the Shamiko or zygisk finding. */
  lemma FrameworkLabelSpec(line: string, prev: string)
    ensures var r := FrameworkLabel(line, prev);
            && (r == prev || r in {"LSPosed", "Shamiko", "Zygisk"})
            && (r != prev ==> Contains(line, "LSPosed")
                               || FrameworkHits(line) == [Emission(RootAndFrameworks, ShamikoTagMsg, 5)]
                               || FrameworkHits(line) == [Emission(RootAndFrameworks, ZygiskPtraceMsg, 5)])
  {
    if !Contains(line, "LSPosed") {
      var k := FirstMatch(line, FrameworkBranches);
      if k == Some(1) {
        ShamikoTagScore();
        assert FrameworkHits(line) == [Emission(RootAndFrameworks, ShamikoTagMsg, 5)];
      } else if k == Some(4) {
        ZygiskPtraceScore();
        assert FrameworkHits(line) == [Emission(RootAndFrameworks, ZygiskPtraceMsg, 5)];
      }
    }
  }

  lemma LsposedVersionScore(v: string)
    ensures ScoreOf(LsposedVersionMsg(v), FrameworkScores) == 5
  {
    ContainsFront("LSPosed framework detected", " (Version: " + v + ")");
    assert LsposedVersionMsg(v) == "LSPosed framework detected" + (" (Version: " + v + ")");
    HasFires(LsposedVersionMsg(v), "LSPosed framework detected", 5);
    FirstBranchDecides(LsposedVersionMsg(v), FrameworkScores);
  }

  lemma XposedTagScore()
    ensures ScoreOf(XposedTagMsg, FrameworkScores) == 4
  {
    ContainsFront("Xposed/EdXposed framework", " log tag detected.");
    MissingCharNotContained(XposedTagMsg, "LSPosed framework detected", 0);
    HasFires(XposedTagMsg, "LSPosed framework detected", 5);
    HasFires(XposedTagMsg, "Xposed/EdXposed framework", 4);
    ScoreIs(XposedTagMsg, FrameworkScores, 1);
  }

  lemma ShamikoTagScore()
    ensures ScoreOf(ShamikoTagMsg, FrameworkScores) == 5
  {
    ContainsFront("Shamiko root hiding module", " log tag detected.");
    ShamikoTagMisses();
    HasFires(ShamikoTagMsg, "LSPosed framework detected", 5);
    HasFires(ShamikoTagMsg, "Xposed/EdXposed framework", 4);
    HasFires(ShamikoTagMsg, "Shamiko root hiding module", 5);
    ScoreIs(ShamikoTagMsg, FrameworkScores, 2);
  }

  lemma ShamikoTagMisses()
    ensures !Contains(ShamikoTagMsg, "LSPosed framework detected")
    ensures !Contains(ShamikoTagMsg, "Xposed/EdXposed framework")
  {
    NotInConcat("Shamiko root hiding module", " log tag detected.", 'L');
    NotInConcat("Shamiko root hiding module", " log tag detected.", 'X');
    MissingCharNotContained(ShamikoTagMsg, "LSPosed framework detected", 0);
    MissingCharNotContained(ShamikoTagMsg, "Xposed/EdXposed framework", 0);
  }

  lemma MagiskHideTagMisses()
    ensures !Contains(MagiskHideTagMsg, "LSPosed framework detected")
    ensures !Contains(MagiskHideTagMsg, "Xposed/EdXposed framework")
    ensures !Contains(MagiskHideTagMsg, "Shamiko root hiding module")
  {
    MissingCharNotContained(MagiskHideTagMsg, "LSPosed framework detected", 1);
    MissingCharNotContained(MagiskHideTagMsg, "Xposed/EdXposed framework", 0);
    MissingCharNotContained(MagiskHideTagMsg, "Shamiko root hiding module", 0);
  }

  lemma MagiskHideTagScore()
    ensures ScoreOf(MagiskHideTagMsg, FrameworkScores) == 3
  {
    ContainsMiddle("Legacy ", "MagiskHide log tag", " detected.");
    MagiskHideTagMisses();
    HasFires(MagiskHideTagMsg, "LSPosed framework detected", 5);
    HasFires(MagiskHideTagMsg, "Xposed/EdXposed framework", 4);
    HasFires(MagiskHideTagMsg, "Shamiko root hiding module", 5);
    HasFires(MagiskHideTagMsg, "MagiskHide log tag", 3);
    ScoreIs(MagiskHideTagMsg, FrameworkScores, 3);
  }

  lemma MagiskAlphaLacks()
    ensures 'L' !in MagiskAlphaTagMsg && 'X' !in MagiskAlphaTagMsg
    ensures 'S' !in MagiskAlphaTagMsg && 'H' !in MagiskAlphaTagMsg
  {
  }

  lemma MagiskAlphaMissesEarlierTests()
    ensures !Contains(MagiskAlphaTagMsg, "LSPosed framework detected")
    ensures !Contains(MagiskAlphaTagMsg, "Xposed/EdXposed framework")
    ensures !Contains(MagiskAlphaTagMsg, "Shamiko root hiding module")
    ensures !Contains(MagiskAlphaTagMsg, "MagiskHide log tag")
  {
    MagiskAlphaLacks();
    MissingCharNotContained(MagiskAlphaTagMsg, "LSPosed framework detected", 0);
    MissingCharNotContained(MagiskAlphaTagMsg, "Xposed/EdXposed framework", 0);
    MissingCharNotContained(MagiskAlphaTagMsg, "Shamiko root hiding module", 0);
    MissingCharNotContained(MagiskAlphaTagMsg, "MagiskHide log tag", 6);
  }

  lemma MagiskAlphaTagScore()
    ensures ScoreOf(MagiskAlphaTagMsg, FrameworkScores) == 6
  {
    ContainsFront("Magisk Alpha log tag", " detected.");
    MagiskAlphaMissesEarlierTests();
    HasFires(MagiskAlphaTagMsg, "LSPosed framework detected", 5);
    HasFires(MagiskAlphaTagMsg, "Xposed/EdXposed framework", 4);
    HasFires(MagiskAlphaTagMsg, "Shamiko root hiding module", 5);
    HasFires(MagiskAlphaTagMsg, "MagiskHide log tag", 3);
    HasFires(MagiskAlphaTagMsg, "Magisk Alpha log tag", 6);
    ScoreIs(MagiskAlphaTagMsg, FrameworkScores, 4);
  }

  lemma ZygiskPtraceLacks()
    ensures 'L' !in ZygiskPtraceMsg && 'X' !in ZygiskPtraceMsg
    ensures 'S' !in ZygiskPtraceMsg && 'M' !in ZygiskPtraceMsg
  {
  }

  lemma ZygiskPtraceMissesEarlierTests()
    ensures !Contains(ZygiskPtraceMsg, "LSPosed framework detected")
    ensures !Contains(ZygiskPtraceMsg, "Xposed/EdXposed framework")
    ensures !Contains(ZygiskPtraceMsg, "Shamiko root hiding module")
    ensures !Contains(ZygiskPtraceMsg, "MagiskHide log tag")
    ensures !Contains(ZygiskPtraceMsg, "Magisk Alpha log tag")
    ensures !Contains(ZygiskPtraceMsg, "LSPosed Hook")
  {
    ZygiskPtraceLacks();
    MissingCharNotContained(ZygiskPtraceMsg, "LSPosed framework detected", 0);
    MissingCharNotContained(ZygiskPtraceMsg, "Xposed/EdXposed framework", 0);
    MissingCharNotContained(ZygiskPtraceMsg, "Shamiko root hiding module", 0);
    MissingCharNotContained(ZygiskPtraceMsg, "MagiskHide log tag", 0);
    MissingCharNotContained(ZygiskPtraceMsg, "Magisk Alpha log tag", 0);
    MissingCharNotContained(ZygiskPtraceMsg, "LSPosed Hook", 0);
  }

  lemma ZygiskPtraceScore()
    ensures ScoreOf(ZygiskPtraceMsg, FrameworkScores) == 5
  {
    ContainsFront("Zygisk ptrace activity", " detected in logs.");
    ZygiskPtraceMissesEarlierTests();
    HasFires(ZygiskPtraceMsg, "LSPosed framework detected", 5);
    HasFires(ZygiskPtraceMsg, "Xposed/EdXposed framework", 4);
    HasFires(ZygiskPtraceMsg, "Shamiko root hiding module", 5);
    HasFires(ZygiskPtraceMsg, "MagiskHide log tag", 3);
    HasFires(ZygiskPtraceMsg, "Magisk Alpha log tag", 6);
    HasFires(ZygiskPtraceMsg, "LSPosed Hook", 2);
    HasFires(ZygiskPtraceMsg, "Zygisk ptrace activity", 5);
    ScoreIs(ZygiskPtraceMsg, FrameworkScores, 6);
  }

  method ProcessFramework(line: string, report: ReportData, context: AnalysisContext)
    modifies report, context
    ensures report.Scoring() == EmittedAll(old(report.Scoring()), FrameworkHits(line))
    ensures report.Metadata() == old(report.Metadata())
    ensures context.State() == FrameworkCtx(line, old(context.State()))
  {
    if Contains(line, "LSPosed") {
      context.lastDetectedFramework := "LSPosed";
      ProcessLsposed(line, report);
    } else {
      var k := FirstMatch(line, FrameworkBranches);
      if k == Some(1) {
        context.lastDetectedFramework := "Shamiko";
      } else if k == Some(4) {
        context.lastDetectedFramework := "Zygisk";
      }
      EmitFirstMatch(report, line, RootAndFrameworks, FrameworkBranches, FrameworkScores);
    }
  }

  /** The findings of the LSPosed branch: the hook, then the version. */
  method ProcessLsposed(line: string, report: ReportData)
    requires Contains(line, "LSPosed")
    modifies report
    ensures report.Scoring() == EmittedAll(old(report.Scoring()), FrameworkHits(line))
    ensures report.Metadata() == old(report.Metadata())
  {
    EmitLsposedHook(line, report);
    EmitLsposedVersion(line, report);
    EmittedAllAppend(old(report.Scoring()), LsposedHookHits(line), LsposedVersionHits(line));
  }

  method EmitLsposedHook(line: string, report: ReportData)
    modifies report
    ensures report.Scoring() == EmittedAll(old(report.Scoring()), LsposedHookHits(line))
    ensures report.Metadata() == old(report.Metadata())
  {
    var target := Search(line, LsposedTargetAt);
    if target.Some? {
      var hook := LsposedHookMsg(target.value);
      var _ := report.Emit(Emission(AppAnalysis, hook, ScoreOf(hook, FrameworkScores)));
    }
  }

  method EmitLsposedVersion(line: string, report: ReportData)
    modifies report
    ensures report.Scoring() == EmittedAll(old(report.Scoring()), LsposedVersionHits(line))
    ensures report.Metadata() == old(report.Metadata())
  {
    var version := Search(line, LsposedVersionAt);
    if version.Some? {
      var reportStr := LsposedVersionMsg(version.value);
      var _ := report.Emit(Emission(RootAndFrameworks, reportStr, ScoreOf(reportStr, FrameworkScores)));
    }
  }

  // ---------------------------------------------------------------- KernelSuLogRule

  function KsuInitMsg(name: string): string { "KernelSU init interception" + " detected for " + name }
  const KprobesMsg := "KernelSU dmesg trace" + " found (KPROBES disabled)."
  function SusfsMsg(v: string): string { "KernelSU module (susfs) detected" + ", version " + v }

  const KernelSuScores: seq<Branch<int>> := [
    Has("KernelSU init interception", 6), Has("KernelSU dmesg trace", 4), Has("KernelSU module (susfs) detected", 5)
  ]

  /** The finding text of a kernel-log line: only lines naming KernelSU or
      susfs are looked at; the init interception pattern is tried first,
      then the KPROBES marker, then the susfs version pattern. */
  function KernelSuReport(line: string): Option<string> {
    if !Contains(line, "KernelSU") && !Contains(line, "susfs") then None
    else match Search(line, KsuInitAt)
      case Some(name) => Some(KsuInitMsg(name))
      case None =>
        if Contains(line, "KernelSU: KPROBES is disabled") then Some(KprobesMsg)
        else match Search(line, SusfsVersionAt)
          case Some(v) => Some(SusfsMsg(v))
          case None => None
  }

  function KernelSuLogHits(line: string): seq<Emission> {
    match KernelSuReport(line)
    case None => []
    case Some(m) => [Emission(RootAndFrameworks, m, ScoreOf(m, KernelSuScores))]
  }

  /** An init interception line is reported with the intercepted binary,
      for 6 points. */
  lemma KsuInitLine(name: string, rest: string)
    requires |name| >= 1 && forall k :: 0 <= k < |name| ==> IsNonSpace(name[k])
    ensures KernelSuLogHits("KernelSU: " + name + "init argc:" + rest)
              == [Emission(RootAndFrameworks, KsuInitMsg(name + "init"), 6)]
  {
    var line := "KernelSU: " + name + "init argc:" + rest;
    assert line == "KernelSU" + (": " + name + "init argc:" + rest);
    ContainsFront("KernelSU", ": " + name + "init argc:" + rest);
    KsuInitRoundTrip(name, rest);
    KsuInitScore(name + "init");
  }

  /** A susfs banner on a line that never names KernelSU is reported with
      its version, for 5 points. */
  lemma SusfsLine(line: string, v: string, rest: string)
    requires v != [] && forall k :: 0 <= k < |v| ==> IsDigitOrDot(v[k])
    requires rest == [] || !IsDigitOrDot(rest[0])
    requires line == "susfs is initialized! version: v" + v + rest
    requires !Contains(line, "KernelSU")
    ensures KernelSuLogHits(line) == [Emission(RootAndFrameworks, SusfsMsg("v" + v), 5)]
  {
    assert line == "susfs" + (" is initialized! version: v" + v + rest);
    ContainsFront("susfs", " is initialized! version: v" + v + rest);
    KsuMarkersNameKernelSu(line);
    SusfsVersionRoundTrip(v, rest);
    SusfsScore("v" + v);
  }

  /** Both the init pattern and the KPROBES marker name KernelSU. */
  lemma KsuMarkersNameKernelSu(line: string)
    ensures Search(line, KsuInitAt).Some? ==> Contains(line, "KernelSU")
    ensures Contains(line, "KernelSU: KPROBES is disabled") ==> Contains(line, "KernelSU")
  {
    if Search(line, KsuInitAt).Some? {
      var j :| 0 <= j <= |line| && KsuInitAt(line, j) == Search(line, KsuInitAt);
      KsuInitNamesKernelSu(line, j);
    }
    KprobesNamesKernelSu(line);
  }

  lemma KprobesNamesKernelSu(line: string)
    ensures Contains(line, "KernelSU: KPROBES is disabled") ==> Contains(line, "KernelSU")
  {
    if Contains(line, "KernelSU: KPROBES is disabled") {
      assert "KernelSU: KPROBES is disabled" == "KernelSU" + ": KPROBES is disabled";
      ContainsFront("KernelSU", ": KPROBES is disabled");
      ContainsTrans(line, "KernelSU: KPROBES is disabled", "KernelSU");
    }
  }

  lemma KsuInitNamesKernelSu(line: string, j: nat)
    requires KsuInitAt(line, j).Some?
    ensures Contains(line, "KernelSU")
  {
    var r := KsuInitAt(line, j).value;
    var m := "KernelSU: " + r + " argc:";
    assert OccursAt(line, m, j);
    ContainsWitness(line, m, j);
    assert m == "KernelSU" + (": " + r + " argc:");
    ContainsFront("KernelSU", ": " + r + " argc:");
    ContainsTrans(line, m, "KernelSU");
  }

  lemma KsuInitScore(name: string)
    ensures ScoreOf(KsuInitMsg(name), KernelSuScores) == 6
  {
    assert KsuInitMsg(name) == "KernelSU init interception" + (" detected for " + name);
    ContainsFront("KernelSU init interception", " detected for " + name);
    HasFires(KsuInitMsg(name), "KernelSU init interception", 6);
    FirstBranchDecides(KsuInitMsg(name), KernelSuScores);
  }

  lemma KprobesMissesInitTest()
    ensures !Contains(KprobesMsg, "KernelSU init interception")
  {
    assert 'p' !in "KernelSU dmesg trace" && 'p' !in " found (KPROBES disabled).";
    MissingCharNotContained(KprobesMsg, "KernelSU init interception", 21);
  }

  lemma KprobesScore()
    ensures ScoreOf(KprobesMsg, KernelSuScores) == 4
  {
    ContainsFront("KernelSU dmesg trace", " found (KPROBES disabled).");
    KprobesMissesInitTest();
    HasFires(KprobesMsg, "KernelSU init interception", 6);
    HasFires(KprobesMsg, "KernelSU dmesg trace", 4);
    ScoreIs(KprobesMsg, KernelSuScores, 1);
  }

  /** A susfs version ('v' and digits and dots) has no 'p' and no 'g', so
      the two earlier score tests miss its finding. */
  lemma SusfsMissesEarlierTests(v: string)
    requires |v| >= 1 && v[0] == 'v' && forall k :: 1 <= k < |v| ==> IsDigitOrDot(v[k])
    ensures !Contains(SusfsMsg(v), "KernelSU init interception")
    ensures !Contains(SusfsMsg(v), "KernelSU dmesg trace")
  {
    assert 'p' !in v && 'g' !in v;
    assert 'p' !in "KernelSU module (susfs) detected" && 'g' !in "KernelSU module (susfs) detected";
    assert 'p' !in ", version " && 'g' !in ", version ";
    MissingCharNotContained(SusfsMsg(v), "KernelSU init interception", 21);
    MissingCharNotContained(SusfsMsg(v), "KernelSU dmesg trace", 13);
  }

  lemma SusfsScore(v: string)
    requires |v| >= 1 && v[0] == 'v' && forall k :: 1 <= k < |v| ==> IsDigitOrDot(v[k])
    ensures ScoreOf(SusfsMsg(v), KernelSuScores) == 5
  {
    var m := SusfsMsg(v);
    assert m == "KernelSU module (susfs) detected" + (", version " + v);
    ContainsFront("KernelSU module (susfs) detected", ", version " + v);
    SusfsMissesEarlierTests(v);
    HasFires(m, "KernelSU init interception", 6);
    HasFires(m, "KernelSU dmesg trace", 4);
    HasFires(m, "KernelSU module (susfs) detected", 5);
    ScoreIs(m, KernelSuScores, 2);
  }

  method ProcessKernelSuLog(line: string, report: ReportData)
    modifies report
    ensures report.Scoring() == EmittedAll(old(report.Scoring()), KernelSuLogHits(line))
    ensures report.Metadata() == old(report.Metadata())
  {
    if !Contains(line, "KernelSU") && !Contains(line, "susfs") {
      return;
    }
    var reportStr := "";
    var init := Search(line, KsuInitAt);
    if init.Some? {
      reportStr := KsuInitMsg(init.value);
    } else if Contains(line, "KernelSU: KPROBES is disabled") {
      reportStr := KprobesMsg;
    } else {
      var susfs := Search(line, SusfsVersionAt);
      if susfs.Some? {
        reportStr := SusfsMsg(susfs.value);
      }
    }
    if reportStr != "" {
      var _ := report.Emit(Emission(RootAndFrameworks, reportStr, ScoreOf(reportStr, KernelSuScores)));
    }
  }

  // ---------------------------------------------------------------- RunningServicesRule

  /** `suspicious_services`, in the ascending key order its `std::map`
      iterates in. */
  const SuspiciousServices: seq<(string, Category)> := [
    ("com.android.vending.billing.InAppBillingService.LACK", ProhibitedPackages),
    ("com.chelpus.luckypatcher", ProhibitedPackages),
    ("com.topjohnwu.magisk", RootAndFrameworks),
    ("io.github.vvb2060.magisk", RootAndFrameworks),
    ("me.weishu.kernelsu", RootAndFrameworks),
    ("moe.shizuku.privileged.api", AppAnalysis),
    ("org.giskard.magisk", RootAndFrameworks),
    ("org.lsposed.manager", RootAndFrameworks)
  ]

  function ServiceMsg(pkg: string): string { "Active service from suspicious package" + " detected: " + pkg }

  const ServiceScores: seq<Branch<int>> := [Has("Active service from suspicious package", 4)]

  function ServiceCheck(line: string): ((string, Category)) -> seq<Emission> {
    (e: (string, Category)) =>
      if Contains(line, e.0) then [Emission(e.1, ServiceMsg(e.0), ScoreOf(ServiceMsg(e.0), ServiceScores))] else []
  }

  /** Only `ServiceRecord{` lines are looked at; then one finding per listed
      package the line names, under that package's category. */
  function RunningServicesHits(line: string): seq<Emission> {
    if !Contains(line, "ServiceRecord{") then [] else Collect(SuspiciousServices, ServiceCheck(line))
  }

  /** A listed package named on a service-record line is reported under its
      category. */
  lemma RunningServicesFound(line: string, i: nat)
    requires i < |SuspiciousServices|
    requires Contains(line, "ServiceRecord{") && Contains(line, SuspiciousServices[i].0)
    ensures ServiceMsg(SuspiciousServices[i].0) in MessagesOf(RunningServicesHits(line), SuspiciousServices[i].1)
  {
    var (p, cat) := SuspiciousServices[i];
    CollectMessages(SuspiciousServices, ServiceCheck(line), cat, ServiceMsg(p));
    assert ServiceMsg(p) in MessagesOf(ServiceCheck(line)(SuspiciousServices[i]), cat);
  }

  /** Every service finding names a listed package, filed under its listed
      category, that the service-record line contains. */
  lemma RunningServicesOnlyFound(line: string, p: string, cat: Category)
    requires ServiceMsg(p) in MessagesOf(RunningServicesHits(line), cat)
    ensures Contains(line, "ServiceRecord{") && Contains(line, p)
    ensures exists i :: 0 <= i < |SuspiciousServices| && SuspiciousServices[i] == (p, cat)
  {
    CollectMessages(SuspiciousServices, ServiceCheck(line), cat, ServiceMsg(p));
    var i :| 0 <= i < |SuspiciousServices| && ServiceMsg(p) in MessagesOf(ServiceCheck(line)(SuspiciousServices[i]), cat);
    var q := SuspiciousServices[i].0;
    WrapInjective("Active service from suspicious package" + " detected: ", q, p, "");
  }

  lemma ServiceScore(p: string)
    ensures ScoreOf(ServiceMsg(p), ServiceScores) == 4
  {
    assert ServiceMsg(p) == "Active service from suspicious package" + (" detected: " + p);
    ContainsFront("Active service from suspicious package", " detected: " + p);
    HasFires(ServiceMsg(p), "Active service from suspicious package", 4);
    FirstBranchDecides(ServiceMsg(p), ServiceScores);
  }

  method ProcessRunningServices(line: string, report: ReportData)
    modifies report
    ensures report.Scoring() == EmittedAll(old(report.Scoring()), RunningServicesHits(line))
    ensures report.Metadata() == old(report.Metadata())
  {
    if !Contains(line, "ServiceRecord{") {
      return;
    }
    for i := 0 to |SuspiciousServices|
      invariant report.Scoring() == EmittedAll(old(report.Scoring()), Collect(SuspiciousServices[..i], ServiceCheck(line)))
      invariant report.Metadata() == old(report.Metadata())
    {
      var (servicePkg, category) := SuspiciousServices[i];
      ghost var before := report.Scoring();
      if Contains(line, servicePkg) {
        var _ := report.Emit(Emission(category, ServiceMsg(servicePkg), ScoreOf(ServiceMsg(servicePkg), ServiceScores)));
      }
      assert report.Scoring() == EmittedAll(before, ServiceCheck(line)(SuspiciousServices[i]));
      CollectStep(SuspiciousServices, i, ServiceCheck(line));
      EmittedAllAppend(old(report.Scoring()), Collect(SuspiciousServices[..i], ServiceCheck(line)),
                       ServiceCheck(line)(SuspiciousServices[i]));
    }
    assert SuspiciousServices[..|SuspiciousServices|] == SuspiciousServices;
  }

  // ---------------------------------------------------------------- ZygoteAnomalyRule

  function HotSwapMsg(fw: string): string {
    "CORRELATED: Zygote restarted shortly after " + fw + " activity, indicating a module hot-swap."
  }
  const ZygoteRestartMsg := "Zygote crash or restart" + " detected."
  const ZygiskServiceMsg := "Magisk Zygisk service detected" + " via logs."

  /** The flat score of the hot-swap finding (it bypasses `getScore`). */
  const HotSwapPoints := 5

  const ZygoteScores: seq<Branch<int>> := [Has("Zygote crash or restart", 3), Has("Magisk Zygisk service detected", 5)]

  /** A Zygote line reporting a crash or restart. ("restarting system
      server" is tested too but already contains "restarting".) */
  predicate IsZygoteRestart(line: string) {
    Contains(line, "crash") || Contains(line, "restarting") || Contains(line, "restarting system server")
  }

  predicate IsZygiskService(line: string) {
    Contains(line, "Starting Magisk services") || Contains(line, "mount --bind")
  }

  /** A restart while a framework label is pending is the hot-swap case. */
  predicate IsHotSwap(line: string, c: Ctx) {
    Contains(line, "Zygote") && IsZygoteRestart(line) && c.lastDetectedFramework != ""
  }

  /** What a line files: the hot-swap finding for the pending label, then
      the Zygisk service finding, which overrides the plain restart one. */
  function ZygoteAnomalyHits(line: string, c: Ctx): seq<Emission> {
    if !Contains(line, "Zygote") then []
    else
      HotSwapHits(line, c)
      + (var m := ZygoteReportMsg(line, c);
         if m == "" then [] else [Emission(AnomalousLogs, m, ScoreOf(m, ZygoteScores))])
  }

  function HotSwapHits(line: string, c: Ctx): seq<Emission> {
    if IsHotSwap(line, c) then [Emission(AnomalousLogs, HotSwapMsg(c.lastDetectedFramework), HotSwapPoints)] else []
  }

  /** The message a `Zygote` line files besides the hot-swap one ("" for
      none): the Zygisk service finding overrides the plain restart one. */
  function ZygoteReportMsg(line: string, c: Ctx): string {
    if IsZygiskService(line) then ZygiskServiceMsg
    else if IsZygoteRestart(line) && !IsHotSwap(line, c) then ZygoteRestartMsg
    else ""
  }

  /** The hot-swap case consumes the label. */
  function ZygoteAnomalyCtx(line: string, c: Ctx): Ctx {
    if IsHotSwap(line, c) then c.(lastDetectedFramework := "") else c
  }

  /** The hot-swap finding names the pending framework and is filed
      exactly in the hot-swap case, which alone clears the label; nothing
      else in the context changes. */
  lemma ZygoteAnomalySpec(line: string, c: Ctx)
    ensures (HotSwapMsg(c.lastDetectedFramework) in MessagesOf(ZygoteAnomalyHits(line, c), AnomalousLogs))
            == IsHotSwap(line, c)
    ensures ZygoteAnomalyCtx(line, c).lastDetectedFramework == (if IsHotSwap(line, c) then "" else c.lastDetectedFramework)
    ensures ZygoteAnomalyCtx(line, c).(lastDetectedFramework := c.lastDetectedFramework) == c
    ensures |ZygoteAnomalyHits(line, c)| <= 2
  {
    var m := HotSwapMsg(c.lastDetectedFramework);
    var es := ZygoteAnomalyHits(line, c);
    assert m == "CORRELATED: Zygote restarted shortly after " + (c.lastDetectedFramework + " activity, indicating a module hot-swap.");
    assert m[0] == 'C';
    assert ZygiskServiceMsg[0] == 'M' && ZygoteRestartMsg[0] == 'Z';
    if m in MessagesOf(es, AnomalousLogs) {
      var i :| 0 <= i < |es| && es[i].cat == AnomalousLogs && es[i].msg == m;
    }
  }

  /** A line naming a Zygisk service files that finding, for 5 points,
      whether or not it also reports a restart. */
  lemma ZygiskServiceOverrides(line: string, c: Ctx)
    requires Contains(line, "Zygote") && IsZygiskService(line)
    ensures var es := ZygoteAnomalyHits(line, c);
            es != [] && es[|es| - 1] == Emission(AnomalousLogs, ZygiskServiceMsg, 5)
  {
    ZygiskServiceScore();
  }

  /** The hot-swap correlation across two lines: a Shamiko line sets the
      label, and a following Zygote crash line files the CORRELATED
      finding naming Shamiko, for 5 points, and clears the label. */
  lemma ShamikoThenZygoteCrash(first: string, second: string, c: Ctx)
    requires Contains(first, "Shamiko") && !Contains(first, "LSPosed") && !Contains(first, "Xposed")
    requires Contains(second, "Zygote") && Contains(second, "crash")
    ensures var c1 := FrameworkCtx(first, c);
            && ZygoteAnomalyHits(second, c1)[0] == Emission(AnomalousLogs, HotSwapMsg("Shamiko"), 5)
            && ZygoteAnomalyCtx(second, c1).lastDetectedFramework == ""
  {
    ShamikoLine(first, c.lastDetectedFramework);
  }

  lemma ZygoteRestartScore()
    ensures ScoreOf(ZygoteRestartMsg, ZygoteScores) == 3
  {
    ContainsFront("Zygote crash or restart", " detected.");
    HasFires(ZygoteRestartMsg, "Zygote crash or restart", 3);
    FirstBranchDecides(ZygoteRestartMsg, ZygoteScores);
  }

  lemma ZygiskServiceMissesRestartTest()
    ensures !Contains(ZygiskServiceMsg, "Zygote crash or restart")
  {
    assert 'h' !in "Magisk Zygisk service detected" && 'h' !in " via logs.";
    MissingCharNotContained(ZygiskServiceMsg, "Zygote crash or restart", 11);
  }

  lemma ZygiskServiceScore()
    ensures ScoreOf(ZygiskServiceMsg, ZygoteScores) == 5
  {
    ContainsFront("Magisk Zygisk service detected", " via logs.");
    ZygiskServiceMissesRestartTest();
    HasFires(ZygiskServiceMsg, "Zygote crash or restart", 3);
    HasFires(ZygiskServiceMsg, "Magisk Zygisk service detected", 5);
    ScoreIs(ZygiskServiceMsg, ZygoteScores, 1);
  }

  method ProcessZygoteAnomaly(line: string, report: ReportData, context: AnalysisContext)
    modifies report, context
    ensures report.Scoring() == EmittedAll(old(report.Scoring()), ZygoteAnomalyHits(line, old(context.State())))
    ensures report.Metadata() == old(report.Metadata())
    ensures context.State() == ZygoteAnomalyCtx(line, old(context.State()))
  {
    ghost var c := context.State();
    var reportStr := ZygoteLine(line, report, context);
    ghost var hot := if Contains(line, "Zygote") then HotSwapHits(line, c) else [];
    ghost var mid := report.Scoring();
    if reportStr != "" {
      var _ := report.Emit(Emission(AnomalousLogs, reportStr, ScoreOf(reportStr, ZygoteScores)));
    }
    ghost var rest := if reportStr == "" then [] else [Emission(AnomalousLogs, reportStr, ScoreOf(reportStr, ZygoteScores))];
    assert report.Scoring() == EmittedAll(mid, rest);
    assert ZygoteAnomalyHits(line, c) == hot + rest;
    EmittedAllAppend(old(report.Scoring()), hot, rest);
  }

  /** The `Zygote` branch of `processLine` up to the final report: the
      hot-swap finding is filed at once and the label cleared; the
      message of the other finding, if any, is returned. */
  method ZygoteLine(line: string, report: ReportData, context: AnalysisContext) returns (reportStr: string)
    modifies report, context
    ensures report.Scoring()
            == EmittedAll(old(report.Scoring()), if Contains(line, "Zygote") then HotSwapHits(line, old(context.State())) else [])
    ensures report.Metadata() == old(report.Metadata())
    ensures context.State() == ZygoteAnomalyCtx(line, old(context.State()))
    ensures reportStr == if Contains(line, "Zygote") then ZygoteReportMsg(line, old(context.State())) else ""
  {
    reportStr := "";
    if Contains(line, "Zygote") {
      if Contains(line, "crash") || Contains(line, "restarting") || Contains(line, "restarting system server") {
        if context.lastDetectedFramework != "" {
          var crReportStr := HotSwapMsg(context.lastDetectedFramework);
          var _ := report.Emit(Emission(AnomalousLogs, crReportStr, HotSwapPoints));
          context.lastDetectedFramework := "";
        } else {
          reportStr := ZygoteRestartMsg;
        }
      }
      if Contains(line, "Starting Magisk services") || Contains(line, "mount --bind") {
        reportStr := ZygiskServiceMsg;
      }
    }
  }

  // ---------------------------------------------------------------- TombstoneRule

  /** `framework_traces`, in the ascending order its `std::set` iterates in. */
  const FrameworkTraces: seq<string> :=
    ["XposedBridge", "frida-agent", "libfrida-gadget", "libsubstrate", "libxposed", "libzygisk"]

  function TraceMsg(t: string): string {
    "High-Confidence: " + "Hooking framework trace" + " '" + t + "' found in crash log."
  }

  const TraceScores: seq<Branch<int>> := [Has("Hooking framework trace", 7)]

  function TraceCheck(line: string): string -> seq<Emission> {
    t => if Contains(line, t) then [Emission(RootAndFrameworks, TraceMsg(t), ScoreOf(TraceMsg(t), TraceScores))] else []
  }

  function TombstoneHits(line: string): seq<Emission> {
    Collect(FrameworkTraces, TraceCheck(line))
  }

  /** One finding per listed trace the crash line contains, and no other. */
  lemma TombstoneSpec(line: string, t: string)
    requires t in FrameworkTraces
    ensures TraceMsg(t) in MessagesOf(TombstoneHits(line), RootAndFrameworks) <==> Contains(line, t)
  {
    var m := TraceMsg(t);
    CollectMessages(FrameworkTraces, TraceCheck(line), RootAndFrameworks, m);
    if m in MessagesOf(TombstoneHits(line), RootAndFrameworks) {
      var i :| 0 <= i < |FrameworkTraces| && m in MessagesOf(TraceCheck(line)(FrameworkTraces[i]), RootAndFrameworks);
      var q := FrameworkTraces[i];
      WrapInjective("High-Confidence: " + "Hooking framework trace" + " '", q, t, "' found in crash log.");
    } else {
      var i :| 0 <= i < |FrameworkTraces| && FrameworkTraces[i] == t;
    }
  }

  lemma TraceScore(t: string)
    ensures ScoreOf(TraceMsg(t), TraceScores) == 7
  {
    assert TraceMsg(t) == "High-Confidence: " + "Hooking framework trace" + (" '" + t + "' found in crash log.");
    ContainsMiddle("High-Confidence: ", "Hooking framework trace", " '" + t + "' found in crash log.");
    HasFires(TraceMsg(t), "Hooking framework trace", 7);
    FirstBranchDecides(TraceMsg(t), TraceScores);
  }

  method ProcessTombstone(line: string, report: ReportData)
    modifies report
    ensures report.Scoring() == EmittedAll(old(report.Scoring()), TombstoneHits(line))
    ensures report.Metadata() == old(report.Metadata())
  {
    for i := 0 to |FrameworkTraces|
      invariant report.Scoring() == EmittedAll(old(report.Scoring()), Collect(FrameworkTraces[..i], TraceCheck(line)))
      invariant report.Metadata() == old(report.Metadata())
    {
      var trace := FrameworkTraces[i];
      ghost var before := report.Scoring();
      if Contains(line, trace) {
        var _ := report.Emit(Emission(RootAndFrameworks, TraceMsg(trace), ScoreOf(TraceMsg(trace), TraceScores)));
      }
      assert report.Scoring() == EmittedAll(before, TraceCheck(line)(trace));
      CollectStep(FrameworkTraces, i, TraceCheck(line));
      EmittedAllAppend(old(report.Scoring()), Collect(FrameworkTraces[..i], TraceCheck(line)), TraceCheck(line)(trace));
    }
    assert FrameworkTraces[..|FrameworkTraces|] == FrameworkTraces;
  }
}
