/** The rule registry of `ReportAnalyzer` (src/analyzer/ReportAnalyzer.cpp):
    the rules in registration order, the sections each one targets, and
    one `processLine`/`finalize` step per rule over the shared state. */
module Registry {
  import opened Strings
  import opened Report
  import opened Chains
  import FW = FrameworkRules
  import LR = LogRules
  import FS = FileSystemRules
  import PR = ProcessRules

  /** The registered rules whose source is part of this model, grouped by
      the source file that defines them. */
  datatype Rule = Fw(fw: FwRule) | Log(log: LogRule) | Fs(fs: FsRule) | Proc(proc: ProcRule)

  /** src/rules/FrameworkRules.cpp. */
  datatype FwRule =
    | ProhibitedPackages | ZygoteParent | RootActivity | SelinuxContext | LoadedLibraries
    | Framework | Environment | KernelSuLog | RunningServices | ZygoteAnomaly | Tombstone

  /** src/rules/LogRules.cpp. */
  datatype LogRule =
    | InvalidSelinuxTransition | Kernel | Resetprop | InitService | LinkerAnomaly
    | UserSnippet | SelinuxDenialSpam | SelinuxNeverallow | DmVerity | SuspiciousModules
    | SELinuxState | ZygoteForkSpam | CustomSePolicy | LogKeyword | KeymasterLog | TrickyStoreLog

  /** src/rules/FileSystemRules.cpp. */
  datatype FsRule =
    | MountAnalysis | SuspiciousBinary | MagiskModules | CustomRecovery | FilePermissions
    | AdvancedFs | Remount | InitRc

  /** src/rules/ProcessRules.cpp. */
  datatype ProcRule = PackageManager | TracerPid | AppRootUsage | TrickyStoreProcess

  /** Registration order (the constructor's `emplace_back` calls). */
  const Registered: seq<Rule> := [
    Proc(PackageManager), Fw(FwRule.ProhibitedPackages), Fw(ZygoteParent), Fw(RootActivity),
    Log(InvalidSelinuxTransition), Fw(SelinuxContext), Log(Kernel), Fs(MountAnalysis),
    Log(Resetprop), Log(InitService), Log(LinkerAnomaly), Proc(TracerPid), Fw(LoadedLibraries),
    Fw(Framework), Fw(Environment), Fw(KernelSuLog), Log(UserSnippet), Fs(SuspiciousBinary),
    Fw(RunningServices), Log(SelinuxDenialSpam), Log(SelinuxNeverallow), Log(DmVerity),
    Proc(AppRootUsage), Fs(MagiskModules), Fs(CustomRecovery), Fs(FilePermissions),
    Log(SuspiciousModules), Fw(ZygoteAnomaly), Log(SELinuxState), Log(ZygoteForkSpam),
    Fs(AdvancedFs), Log(CustomSePolicy), Fs(Remount), Log(LogKeyword), Fs(InitRc), Fw(Tombstone),
    Log(KeymasterLog), Proc(TrickyStoreProcess), Log(TrickyStoreLog)]

  /** `getTargetSections`. */
  function Targets(r: Rule): seq<string> {
    match r
    case Proc(PackageManager) => ["DUMPSYS package", "CHECKIN PACKAGE"]
    case Fw(ProhibitedPackages) => ["DUMPSYS package", "CHECKIN PACKAGE", "LOGCAT", "SYSTEM LOG"]
    case Fw(ZygoteParent) => ["PROCESSES AND THREADS"]
    case Fw(RootActivity) => ["PROCESSES AND THREADS"]
    case Log(InvalidSelinuxTransition) => ["LOGCAT", "SYSTEM LOG", "LAST LOGCAT", "KERNEL LOG"]
    case Fw(SelinuxContext) => ["LOGCAT", "SYSTEM LOG", "LAST LOGCAT", "KERNEL LOG", "PROCESSES AND THREADS"]
    case Log(Kernel) => ["KERNEL LOG", "LAST KMSG"]
    case Fs(MountAnalysis) => ["MOUNTS"]
    case Log(Resetprop) => ["LOGCAT", "SYSTEM LOG", "LAST LOGCAT"]
    case Log(InitService) => ["LOGCAT", "SYSTEM LOG", "LAST LOGCAT"]
    case Log(LinkerAnomaly) => ["LOGCAT", "SYSTEM LOG", "LAST LOGCAT"]
    case Proc(TracerPid) => ["PROCESSES AND THREADS"]
    case Fw(LoadedLibraries) => ["PROCESSES AND THREADS"]
    case Fw(Framework) => ["LOGCAT", "SYSTEM LOG", "LAST LOGCAT"]
    case Fw(Environment) => ["PROCESSES AND THREADS", "PRINTENV"]
    case Fw(KernelSuLog) => ["KERNEL LOG", "LAST KMSG"]
    case Log(UserSnippet) => ["LOGCAT", "SYSTEM LOG", "LAST LOGCAT"]
    case Fs(SuspiciousBinary) => ["FILESYSTEM LISTING", "PROCESSES AND THREADS"]
    case Fw(RunningServices) => ["DUMPSYS activity services"]
    case Log(SelinuxDenialSpam) => ["LOGCAT", "SYSTEM LOG", "LAST LOGCAT", "KERNEL LOG", "EVENT LOG"]
    case Log(SelinuxNeverallow) => ["LOGCAT", "SYSTEM LOG", "LAST LOGCAT", "KERNEL LOG", "EVENT LOG"]
    case Log(DmVerity) => ["LOGCAT", "SYSTEM LOG", "LAST LOGCAT", "KERNEL LOG"]
    case Proc(AppRootUsage) => ["LOGCAT", "SYSTEM LOG", "LAST LOGCAT"]
    case Fs(MagiskModules) => ["FILESYSTEM LISTING"]
    case Fs(CustomRecovery) => ["FILESYSTEM LISTING"]
    case Fs(FilePermissions) => ["FILESYSTEM LISTING"]
    case Log(SuspiciousModules) => ["LSMOD"]
    case Fw(ZygoteAnomaly) => ["LOGCAT", "SYSTEM LOG", "LAST LOGCAT", "PROCESSES AND THREADS"]
    case Log(SELinuxState) => ["LOGCAT", "SYSTEM LOG", "LAST LOGCAT", "KERNEL LOG", "SYSTEM PROPERTIES"]
    case Log(ZygoteForkSpam) => ["LOGCAT", "SYSTEM LOG", "LAST LOGCAT"]
    case Fs(AdvancedFs) => ["FILESYSTEM LISTING", "MOUNTS", "LOGCAT"]
    case Log(CustomSePolicy) => ["LOGCAT", "KERNEL LOG", "LAST KMSG"]
    case Fs(Remount) => ["LOGCAT", "KERNEL LOG", "SYSTEM LOG"]
    case Log(LogKeyword) => ["LOGCAT", "SYSTEM LOG", "LAST LOGCAT", "KERNEL LOG", "LAST KMSG"]
    case Fs(InitRc) => ["SYSTEM PROPERTIES", "FILESYSTEM LISTING"]
    case Fw(Tombstone) => ["TOMBSTONES", "CRASH LOG", "SYSTEM CRASHES"]
    case Log(KeymasterLog) => ["LOGCAT", "SYSTEM LOG", "LAST LOGCAT", "KERNEL LOG"]
    case Proc(TrickyStoreProcess) => ["PROCESSES AND THREADS"]
    case Log(TrickyStoreLog) => ["LOGCAT", "SYSTEM LOG", "LAST LOGCAT"]
  }

  /** Everything a run mutates: the report's scoring part and metadata, the
      shared context and PackageManagerRule's own `is_hidden`. */
  datatype World = World(tally: Tally, meta: Meta, ctx: Ctx, pmHidden: bool)

  function Filed(w: World, es: seq<Emission>): World {
    w.(tally := EmittedAll(w.tally, es))
  }

  /** `rule->processLine(line, result, context)`. */
  function LineStep(r: Rule, line: string, w: World): World {
    match r
    case Fw(x) => FwLineStep(x, line, w)
    case Log(x) => LogLineStep(x, line, w)
    case Fs(x) => FsLineStep(x, line, w)
    case Proc(x) => ProcLineStep(x, line, w)
  }

  function FwLineStep(r: FwRule, line: string, w: World): World {
    match r
    case ProhibitedPackages => Filed(w, FW.ProhibitedPackagesHits(line))
    case ZygoteParent => w.(ctx := FW.ZygoteParentCtx(line, w.ctx))
    case RootActivity => Filed(w, FW.RootActivityHits(line)).(ctx := FW.RootActivityCtx(line, FW.RootWhitelist, w.ctx))
    case SelinuxContext => Filed(w, FW.SelinuxContextHits(line))
    case LoadedLibraries => Filed(w, FW.LoadedLibrariesHits(line))
    case Framework => Filed(w, FW.FrameworkHits(line)).(ctx := FW.FrameworkCtx(line, w.ctx))
    case Environment => Filed(w, FW.EnvironmentHits(line))
    case KernelSuLog => Filed(w, FW.KernelSuLogHits(line))
    case RunningServices => Filed(w, FW.RunningServicesHits(line))
    case ZygoteAnomaly => Filed(w, FW.ZygoteAnomalyHits(line, w.ctx)).(ctx := FW.ZygoteAnomalyCtx(line, w.ctx))
    case Tombstone => Filed(w, FW.TombstoneHits(line))
  }

  function LogLineStep(r: LogRule, line: string, w: World): World {
    match r
    case InvalidSelinuxTransition => Filed(w, LR.InvalidSelinuxTransitionHits(line))
    case Kernel => Filed(w, LR.KernelHits(line, w.meta.buildFingerprint))
    case Resetprop => Filed(w, LR.ResetpropHits(line))
    case InitService => Filed(w, LR.InitServiceHits(line))
    case LinkerAnomaly => Filed(w, LR.LinkerAnomalyHits(line))
    case UserSnippet => Filed(w, LR.UserSnippetHits(line, w.ctx)).(ctx := LR.UserSnippetCtx(line, w.ctx))
    case SelinuxDenialSpam => w.(ctx := LR.DenialSpamCtx(line, w.ctx))
    case SelinuxNeverallow => Filed(w, LR.NeverallowHits(line))
    case DmVerity => Filed(w, LR.DmVerityHits(line))
    case SuspiciousModules => Filed(w, LR.SuspiciousModulesHits(line))
    case SELinuxState => w.(ctx := LR.SelinuxStateCtx(line, w.ctx))
    case ZygoteForkSpam => w.(ctx := LR.ForkCountCtx(line, w.ctx))
    case CustomSePolicy => Filed(w, LR.CustomSePolicyHits(line))
    case LogKeyword =>
      var st := LR.LogKeywordScan(line, LR.KeywordState(w.tally, w.ctx.reportedLogThreats), LR.LogThreatLexicon);
      w.(tally := st.tally, ctx := w.ctx.(reportedLogThreats := st.reported))
    case KeymasterLog =>
      var st := LR.KeymasterLogStep(line, LR.KeymasterState(w.tally, w.ctx));
      w.(tally := st.tally, ctx := st.ctx)
    case TrickyStoreLog => Filed(w, LR.TrickyStoreLogHits(line))
  }

  function FsLineStep(r: FsRule, line: string, w: World): World {
    match r
    case MountAnalysis => Filed(w, FS.MountHits(line))
    case SuspiciousBinary => Filed(w, FS.SuspiciousBinaryHits(line))
    case MagiskModules => Filed(w, FS.MagiskModulesHits(line))
    case CustomRecovery => Filed(w, FS.CustomRecoveryHits(line))
    case FilePermissions => Filed(w, FS.FilePermissionsHits(line))
    case AdvancedFs => Filed(w, FS.AdvancedFsHits(line))
    case Remount => Filed(w, FS.RemountHits(line))
    case InitRc => Filed(w, FS.InitRcHits(line))
  }

  function ProcLineStep(r: ProcRule, line: string, w: World): World {
    match r
    case PackageManager =>
      var (es, c, h) := PR.PackageLineStep(line, w.ctx, w.pmHidden);
      Filed(w, es).(ctx := c, pmHidden := h)
    case TracerPid => Filed(w, PR.TracerPidHits(line))
    case AppRootUsage => Filed(w, PR.AppRootUsageHits(line))
    case TrickyStoreProcess => Filed(w, PR.TrickyStoreProcessHits(line))
  }

  /** `rule->finalize(result, context)`; rules that do not override it do
      nothing. */
  function FinalizeStep(r: Rule, spamThreshold: int, w: World): World {
    match r
    case Proc(PackageManager) =>
      Filed(w, PR.FlushHits(w.ctx)).(ctx := PR.FlushCtx(w.ctx), pmHidden := PR.FlushHidden(w.ctx, w.pmHidden))
    case Fw(ZygoteParent) => Filed(w, FW.ZygoteParentFinalHits(w.ctx))
    case Fw(RootActivity) => Filed(w, FW.RootActivityFinalHits(w.ctx))
    case Log(SelinuxDenialSpam) => Filed(w, LR.DenialSpamFinalHits(w.ctx, spamThreshold))
    case Log(SELinuxState) =>
      Filed(w, LR.SelinuxFinalHits(w.ctx)).(meta := w.meta.(seLinuxStatus := LR.SelinuxStatus(w.ctx)))
    case Log(ZygoteForkSpam) => Filed(w, LR.ForkSpamFinalHits(w.ctx))
    case _ => w
  }

  /** No rule's `processLine` touches the report's metadata, and only
      PackageManagerRule's touches its own `is_hidden`. */
  lemma LineStepKeepsMeta(r: Rule, line: string, w: World)
    ensures LineStep(r, line, w).meta == w.meta
    ensures r != Proc(PackageManager) ==> LineStep(r, line, w).pmHidden == w.pmHidden
  {
    match r {
      case Fw(x) => FwKeepsMeta(x, line, w);
      case Log(x) => LogKeepsMeta(x, line, w);
      case Fs(x) => FsKeepsMeta(x, line, w);
      case Proc(x) =>
    }
  }

  lemma FwKeepsMeta(r: FwRule, line: string, w: World)
    ensures FwLineStep(r, line, w).meta == w.meta && FwLineStep(r, line, w).pmHidden == w.pmHidden
  {
    match r {
      case ProhibitedPackages => case ZygoteParent => case RootActivity => case SelinuxContext =>
      case LoadedLibraries => case Framework => case Environment => case KernelSuLog =>
      case RunningServices => case ZygoteAnomaly => case Tombstone =>
    }
  }

  lemma LogKeepsMeta(r: LogRule, line: string, w: World)
    ensures LogLineStep(r, line, w).meta == w.meta && LogLineStep(r, line, w).pmHidden == w.pmHidden
  {
    match r {
      case InvalidSelinuxTransition => case Kernel => case Resetprop => case InitService =>
      case LinkerAnomaly => case UserSnippet => case SelinuxDenialSpam => case SelinuxNeverallow =>
      case DmVerity => case SuspiciousModules => case SELinuxState => case ZygoteForkSpam =>
      case CustomSePolicy => case LogKeyword => case KeymasterLog => case TrickyStoreLog =>
    }
  }

  lemma FsKeepsMeta(r: FsRule, line: string, w: World)
    ensures FsLineStep(r, line, w).meta == w.meta && FsLineStep(r, line, w).pmHidden == w.pmHidden
  {
    match r {
      case MountAnalysis => case SuspiciousBinary => case MagiskModules => case CustomRecovery =>
      case FilePermissions => case AdvancedFs => case Remount => case InitRc =>
    }
  }

  /** Of the finalizers only SELinuxStateRule's writes metadata: the
      SELinux status, which is "Permissive" exactly when the context's
      state is Permissive and "Enforcing" otherwise. */
  lemma FinalizeStatus(r: Rule, spamThreshold: int, w: World)
    ensures r != Log(SELinuxState) ==> FinalizeStep(r, spamThreshold, w).meta == w.meta
    ensures r == Log(SELinuxState) ==>
              FinalizeStep(r, spamThreshold, w).meta == w.meta.(seLinuxStatus := LR.SelinuxStatus(w.ctx)) &&
              (FinalizeStep(r, spamThreshold, w).meta.seLinuxStatus == "Permissive" <==> w.ctx.seLinuxState == Permissive)
  {
    LR.SelinuxFinalSpec(w.ctx);
  }

  /** The rules, their shared state and the one rule that keeps state of
      its own. */
  function WorldOf(report: ReportData, context: AnalysisContext, pm: PR.PackageManagerRule): World
    reads report, context, pm
  {
    World(report.Scoring(), report.Metadata(), context.State(), pm.isHidden)
  }

  /** One rule's `processLine` on one line. */
  method ProcessLine(r: Rule, line: string, report: ReportData, context: AnalysisContext, pm: PR.PackageManagerRule)
    modifies report, context, pm
    ensures WorldOf(report, context, pm) == LineStep(r, line, old(WorldOf(report, context, pm)))
  {
    match r {
      case Fw(x) => ProcessFwLine(x, line, report, context, pm);
      case Log(x) => ProcessLogLine(x, line, report, context, pm);
      case Fs(x) => ProcessFsLine(x, line, report, context, pm);
      case Proc(x) => ProcessProcLine(x, line, report, context, pm);
    }
  }

  method ProcessFwLine(r: FwRule, line: string, report: ReportData, context: AnalysisContext, pm: PR.PackageManagerRule)
    modifies report, context
    ensures WorldOf(report, context, pm) == FwLineStep(r, line, old(WorldOf(report, context, pm)))
  {
    match r {
      case ProhibitedPackages => FW.ProcessProhibitedPackages(line, report);
      case ZygoteParent => FW.ProcessZygoteParent(line, context);
      case RootActivity => FW.ProcessRootActivity(line, report, context);
      case SelinuxContext =>
        EmitFirstMatch(report, line, AnomalousLogs, FW.SelinuxContextBranches, FW.SelinuxContextScores);
      case LoadedLibraries =>
        EmitFirstMatch(report, line, RootAndFrameworks, FW.LoadedLibrariesBranches, FW.LoadedLibrariesScores);
      case Framework => FW.ProcessFramework(line, report, context);
      case Environment =>
        EmitFirstMatch(report, line, RootAndFrameworks, FW.EnvironmentBranches, FW.EnvironmentScores);
      case KernelSuLog => FW.ProcessKernelSuLog(line, report);
      case RunningServices => FW.ProcessRunningServices(line, report);
      case ZygoteAnomaly => FW.ProcessZygoteAnomaly(line, report, context);
      case Tombstone => FW.ProcessTombstone(line, report);
    }
  }

  method ProcessLogLine(r: LogRule, line: string, report: ReportData, context: AnalysisContext, pm: PR.PackageManagerRule)
    modifies report, context
    ensures WorldOf(report, context, pm) == LogLineStep(r, line, old(WorldOf(report, context, pm)))
  {
    match r {
      case InvalidSelinuxTransition =>
        EmitFirstMatch(report, line, AnomalousLogs, LR.TransitionBranches, LR.TransitionScores);
      case Kernel => LR.ProcessKernel(line, report);
      case Resetprop => EmitFirstMatch(report, line, RootHidingAndEvasion, LR.ResetpropBranches, LR.ResetpropScores);
      case InitService =>
        EmitFirstMatch(report, line, AnomalousLogs, LR.InitServiceBranches(line), LR.InitServiceScores);
      case LinkerAnomaly =>
        EmitFirstMatch(report, line, AnomalousLogs, LR.LinkerBranches(line), LR.LinkerScores);
      case UserSnippet => LR.ProcessUserSnippet(line, report, context);
      case SelinuxDenialSpam => LR.ProcessDenialSpam(line, context);
      case SelinuxNeverallow => EmitFirstMatch(report, line, AnomalousLogs, LR.NeverallowBranches, LR.NeverallowScores);
      case DmVerity => EmitFirstMatch(report, line, FileSystemAndMounts, LR.DmVerityBranches, LR.DmVerityScores);
      case SuspiciousModules => LR.ProcessSuspiciousModules(line, report);
      case SELinuxState => LR.ProcessSelinuxState(line, context);
      case ZygoteForkSpam => LR.ProcessZygoteForkSpam(line, context);
      case CustomSePolicy =>
        EmitFirstMatch(report, line, AnomalousLogs, LR.CustomPolicyBranches, LR.CustomPolicyScores);
      case LogKeyword => LR.ProcessLogKeyword(line, report, context);
      case KeymasterLog => LR.ProcessKeymasterLog(line, report, context);
      case TrickyStoreLog =>
        EmitFirstMatch(report, line, RootHidingAndEvasion, LR.TrickyStoreLogBranches, LR.TrickyStoreLogScores);
    }
  }

  method ProcessFsLine(r: FsRule, line: string, report: ReportData, context: AnalysisContext, pm: PR.PackageManagerRule)
    modifies report
    ensures WorldOf(report, context, pm) == FsLineStep(r, line, old(WorldOf(report, context, pm)))
  {
    match r {
      case MountAnalysis => EmitFirstMatch(report, line, FileSystemAndMounts, FS.MountBranches, FS.MountScores);
      case SuspiciousBinary => FS.ProcessSuspiciousBinary(line, report);
      case MagiskModules => FS.ProcessMagiskModules(line, report);
      case CustomRecovery =>
        EmitFirstMatch(report, line, CustomBuild, FS.CustomRecoveryBranches, FS.CustomRecoveryScores);
      case FilePermissions => FS.ProcessFilePermissions(line, report);
      case AdvancedFs => EmitFirstMatch(report, line, FileSystemAndMounts, FS.AdvancedFsBranches, FS.AdvancedFsScores);
      case Remount => EmitFirstMatch(report, line, FileSystemAndMounts, FS.RemountBranches, FS.RemountScores);
      case InitRc => FS.ProcessInitRc(line, report);
    }
  }

  method ProcessProcLine(r: ProcRule, line: string, report: ReportData, context: AnalysisContext, pm: PR.PackageManagerRule)
    modifies report, context, pm
    ensures WorldOf(report, context, pm) == ProcLineStep(r, line, old(WorldOf(report, context, pm)))
  {
    match r {
      case PackageManager => pm.ProcessLine(line, report, context);
      case TracerPid => PR.ProcessTracerPid(line, report);
      case AppRootUsage => PR.ProcessAppRootUsage(line, report);
      case TrickyStoreProcess =>
        EmitFirstMatch(report, line, RootHidingAndEvasion, PR.TrickyStoreProcessBranches, PR.TrickyStoreProcessScores);
    }
  }

  /** One rule's `finalize`. */
  method Finalize(r: Rule, spamThreshold: int, report: ReportData, context: AnalysisContext, pm: PR.PackageManagerRule)
    modifies report, context, pm
    ensures WorldOf(report, context, pm) == FinalizeStep(r, spamThreshold, old(WorldOf(report, context, pm)))
  {
    match r {
      case Proc(PackageManager) => pm.Finalize(report, context);
      case Fw(ZygoteParent) => FW.FinalizeZygoteParent(report, context);
      case Fw(RootActivity) => FW.FinalizeRootActivity(report, context);
      case Log(SelinuxDenialSpam) => LR.FinalizeDenialSpam(spamThreshold, report, context);
      case Log(SELinuxState) => LR.FinalizeSelinuxState(report, context);
      case Log(ZygoteForkSpam) => LR.FinalizeZygoteForkSpam(report, context);
      case _ =>
    }
  }
}
