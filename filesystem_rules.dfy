/** Rules over the filesystem listing, the mount table and remount logs
    (src/rules/FileSystemRules.cpp). */
module FileSystemRules {
  import opened Strings
  import opened Report
  import opened Chains

  // ---------------------------------------------------------------- MountAnalysisRule

  const MagicMountMsg := "Magic Mount:" + " System partition mounted from Magisk modules directory."
  const AdbMountMsg := "Magisk Directory Mount: /data/adb detected in mounts."
  const AlphaMountMsg := "Magisk Alpha directory mount detected."
  const SbinOverlayMsg := "Suspicious Mount: Magisk's tmpfs sbin overlay detected."
  const TmpfsMagiskMsg := "Suspicious Mount: Magisk's tmpfs (magisk) detected."
  const WorkerMsg := "Suspicious Mount: Magisk's worker directory detected in mountinfo."
  const BinaryMountMsg := "High-Confidence: Magisk binary is directly mounted over /system/bin/magisk."
  const BinOverlayMsg := "High-Confidence: Magisk tmpfs overlay detected on /system/bin."

  const MountBranches: seq<Branch<string>> := [
    Branch("", ["/data/adb/modules"], [" /system ", " /vendor "], MagicMountMsg),
    Has("/data/adb", AdbMountMsg),
    Has("/data/adb/magisk_alpha", AlphaMountMsg),
    Branch("tmpfs on /sbin", [], [], SbinOverlayMsg),
    Has("tmpfs magisk", TmpfsMagiskMsg),
    Has("/debug_ramdisk/.magisk/worker", WorkerMsg),
    Branch("", ["/system/bin/magisk", "tmpfs"], [], BinaryMountMsg),
    Branch("", ["/system/bin", "tmpfs magisk"], [], BinOverlayMsg)
  ]

  const MountScores: seq<Branch<int>> := [
    Has("Magic Mount:", 6), Has("Magisk Directory Mount:", 4),
    Has("Magisk Alpha directory mount", 5), Has("tmpfs sbin overlay", 3),
    Has("tmpfs (magisk) detected", 5), Has("Magisk's worker directory", 6),
    Has("Magisk binary is directly mounted", 7),
    Has("Magisk tmpfs overlay detected on /system/bin", 7)
  ]

  function MountHits(line: string): seq<Emission> {
    ChainHits(line, FileSystemAndMounts, MountBranches, MountScores)
  }

  /** The "/data/adb/magisk_alpha" branch never decides: every such line
      already contains "/data/adb". Such a line is reported as a Magic
      Mount or, failing that, as a Magisk Directory Mount. */
  lemma MountAlphaShadowed(line: string)
    ensures FirstMatch(line, MountBranches) != Some(2)
    ensures Contains(line, "/data/adb/magisk_alpha") ==>
              MountHits(line) != [] && MountHits(line)[0].msg in {MagicMountMsg, AdbMountMsg}
  {
    var b1, b2 := MountBranches[1], MountBranches[2];
    HasFires(line, "/data/adb", AdbMountMsg);
    HasFires(line, "/data/adb/magisk_alpha", AlphaMountMsg);
    if Contains(line, "/data/adb/magisk_alpha") {
      ContainsMiddle("", "/data/adb", "/magisk_alpha");
      assert "" + "/data/adb" + "/magisk_alpha" == "/data/adb/magisk_alpha";
      ContainsTrans(line, "/data/adb/magisk_alpha", "/data/adb");
    }
    Shadowed(line, MountBranches, 1, 2);
  }

  /** The "/system/bin" + "tmpfs magisk" branch never decides: the plain
      "tmpfs magisk" branch comes first. */
  lemma MountBinOverlayShadowed(line: string)
    ensures FirstMatch(line, MountBranches) != Some(7)
  {
    HasFires(line, "tmpfs magisk", TmpfsMagiskMsg);
    assert Fires(line, MountBranches[7]) ==> Contains(line, MountBranches[7].all[1]);
    Shadowed(line, MountBranches, 4, 7);
  }

  /** A Magic Mount finding scores 6. */
  lemma MagicMountScore()
    ensures ScoreOf(MagicMountMsg, MountScores) == 6
  {
    ContainsFront("Magic Mount:", " System partition mounted from Magisk modules directory.");
    HasFires(MagicMountMsg, "Magic Mount:", 6);
    FirstBranchDecides(MagicMountMsg, MountScores);
  }

  // ---------------------------------------------------------------- RemountRule

  const RemountMsg := "System partition was " + "remounted as read-write" + " (rw)."
  const RemountBranches: seq<Branch<string>> :=
    [Branch("", ["remount", "rw"], ["/system", " system "], RemountMsg)]
  const RemountScores: seq<Branch<int>> := [Has("remounted as read-write", 6)]

  function RemountHits(line: string): seq<Emission> {
    ChainHits(line, FileSystemAndMounts, RemountBranches, RemountScores)
  }

  /** A remount finding is filed exactly for lines with "remount", "rw" and
      "/system" or " system ". */
  lemma RemountFires(line: string)
    ensures RemountHits(line) != [] <==>
              Contains(line, "remount") && Contains(line, "rw") &&
              (Contains(line, "/system") || Contains(line, " system "))
  {
    var b := RemountBranches[0];
    assert StartsWith(line, "");
    assert b.all == ["remount", "rw"] && b.any == ["/system", " system "];
    if Contains(line, "remount") && Contains(line, "rw") &&
       (Contains(line, "/system") || Contains(line, " system ")) {
      if Contains(line, "/system") {
        assert Contains(line, b.any[0]);
      } else {
        assert Contains(line, b.any[1]);
      }
      assert Fires(line, b);
    }
    if Fires(line, b) {
      assert Contains(line, b.all[0]) && Contains(line, b.all[1]);
    }
  }

  /** The remount finding scores 6. */
  lemma RemountScore()
    ensures ScoreOf(RemountMsg, RemountScores) == 6
  {
    ContainsMiddle("System partition was ", "remounted as read-write", " (rw).");
    HasFires(RemountMsg, "remounted as read-write", 6);
    FirstBranchDecides(RemountMsg, RemountScores);
  }

  // ---------------------------------------------------------------- AdvancedFsRule

  const MagiskDbMsg := "High-Confidence: " + "Magisk database" + " file found."
  const ApatchTraceMsg := "High-Confidence: " + "APatch" + " traces found in filesystem" + " or logs."
  const FridaConfigMsg := "High-Confidence: " + "Frida server" + " configuration files found."
  const KsuNodeMsg := "High-Confidence: " + "KernelSU device node" + " found."

  const AdvancedFsBranches: seq<Branch<string>> := [
    Has("/data/adb/magisk.db", MagiskDbMsg), Has("apatch", ApatchTraceMsg),
    Has("re.frida.server", FridaConfigMsg), Has("/dev/ksu", KsuNodeMsg)
  ]
  const AdvancedFsScores: seq<Branch<int>> := [
    Has("Magisk database", 7), Has("APatch", 6), Has("Frida server", 6), Has("KernelSU device node", 6)
  ]

  function AdvancedFsHits(line: string): seq<Emission> {
    ChainHits(line, FileSystemAndMounts, AdvancedFsBranches, AdvancedFsScores)
  }

  /** The four AdvancedFs findings score 7, 6, 6 and 6. */
  lemma MagiskDbScore()
    ensures ScoreOf(MagiskDbMsg, AdvancedFsScores) == 7
  {
    ContainsMiddle("High-Confidence: ", "Magisk database", " file found.");
    HasFires(MagiskDbMsg, "Magisk database", 7);
    FirstBranchDecides(MagiskDbMsg, AdvancedFsScores);
  }

  lemma ApatchTraceScore()
    ensures ScoreOf(ApatchTraceMsg, AdvancedFsScores) == 6
  {
    ContainsMiddle("High-Confidence: ", "APatch", " traces found in filesystem" + " or logs.");
    assert ApatchTraceMsg == "High-Confidence: " + "APatch" + (" traces found in filesystem" + " or logs.");
    MissingCharNotContained(ApatchTraceMsg, "Magisk database", 0);
    HasFires(ApatchTraceMsg, "Magisk database", 7);
    HasFires(ApatchTraceMsg, "APatch", 6);
    ScoreIs(ApatchTraceMsg, AdvancedFsScores, 1);
  }

  lemma FridaConfigScore()
    ensures ScoreOf(FridaConfigMsg, AdvancedFsScores) == 6
  {
    ContainsMiddle("High-Confidence: ", "Frida server", " configuration files found.");
    MissingCharNotContained(FridaConfigMsg, "Magisk database", 0);
    MissingCharNotContained(FridaConfigMsg, "APatch", 0);
    HasFires(FridaConfigMsg, "Magisk database", 7);
    HasFires(FridaConfigMsg, "APatch", 6);
    HasFires(FridaConfigMsg, "Frida server", 6);
    ScoreIs(FridaConfigMsg, AdvancedFsScores, 2);
  }

  lemma KsuNodeMissesMagisk()
    ensures !Contains(KsuNodeMsg, "Magisk database")
  {
    MissingCharNotContained(KsuNodeMsg, "Magisk database", 0);
  }

  lemma KsuNodeMissesAPatch()
    ensures !Contains(KsuNodeMsg, "APatch")
  {
    MissingCharNotContained(KsuNodeMsg, "APatch", 0);
  }

  lemma KsuNodeMissesFrida()
    ensures !Contains(KsuNodeMsg, "Frida server")
  {
    MissingCharNotContained(KsuNodeMsg, "Frida server", 0);
  }

  lemma KsuNodeScore()
    ensures ScoreOf(KsuNodeMsg, AdvancedFsScores) == 6
  {
    ContainsMiddle("High-Confidence: ", "KernelSU device node", " found.");
    KsuNodeMissesMagisk();
    KsuNodeMissesAPatch();
    KsuNodeMissesFrida();
    HasFires(KsuNodeMsg, "Magisk database", 7);
    HasFires(KsuNodeMsg, "APatch", 6);
    HasFires(KsuNodeMsg, "Frida server", 6);
    HasFires(KsuNodeMsg, "KernelSU device node", 6);
    ScoreIs(KsuNodeMsg, AdvancedFsScores, 3);
  }

  // ---------------------------------------------------------------- MagiskModulesRule

  const ModulesDir := "/data/adb/modules/"

  /** The module directory name: the text between the first
      "/data/adb/modules/" and the next '/', if a '/' follows. */
  function ModuleName(line: string): (r: Option<string>)
    ensures r.Some? ==> '/' !in r.value
    ensures r.Some? ==> exists pos: nat :: OccursAt(line, ModulesDir + r.value + "/", pos) &&
                                          forall j :: 0 <= j < pos ==> !OccursAt(line, ModulesDir, j)
    ensures r.None? ==> !Contains(line, ModulesDir) || '/' !in line[Find(line, ModulesDir).value + 18..]
  {
    match Find(line, ModulesDir)
    case None => None
    case Some(pos) =>
      var path := line[pos + 18..];
      match FindChar(path, '/')
      case None => None
      case Some(k) =>
        assert path[..k] == line[pos + 18..pos + 18 + k];
        ModulesDirOccurs(line, pos, k);
        Some(path[..k])
  }

  lemma ModulesDirOccurs(line: string, pos: nat, k: nat)
    requires OccursAt(line, ModulesDir, pos) && pos + 18 + k < |line| && line[pos + 18 + k] == '/'
    ensures OccursAt(line, ModulesDir + line[pos + 18..pos + 18 + k] + "/", pos)
  {
    var p := ModulesDir + line[pos + 18..pos + 18 + k] + "/";
    forall i | 0 <= i < |p| ensures line[pos..pos + |p|][i] == p[i] {
      if i < 18 {
        assert line[pos..pos + 18][i] == ModulesDir[i];
      }
    }
  }

  /** Round trip: a name without '/' written after the modules directory
      (with no '/' before it) is read back. */
  lemma ModuleNameRoundTrip(pre: string, name: string, rest: string)
    requires '/' !in pre && '/' !in name
    ensures ModuleName(pre + ModulesDir + name + "/" + rest) == Some(name)
  {
    var line := pre + ModulesDir + name + "/" + rest;
    var pos := |pre|;
    assert line[pos..pos + 18] == ModulesDir;
    forall j | 0 <= j < pos ensures !OccursAt(line, ModulesDir, j) {
      assert line[j] == pre[j] && pre[j] != '/';
      assert j + 18 <= |line| ==> line[j..j + 18][0] == line[j];
    }
    FindIs(line, ModulesDir, pos);
    var path := line[pos + 18..];
    assert path == name + "/" + rest;
    assert path[|name|] == '/';
    assert path[..|name|] == name;
    assert FindChar(path, '/') == Some(|name|);
  }

  function ModuleMsg(name: string): string { "Active Magisk/KSU Module" + ": " + name }

  const ModuleScores: seq<Branch<int>> := [Has("Active Magisk/KSU Module", 3)]

  function MagiskModulesHits(line: string): seq<Emission> {
    match ModuleName(line)
    case None => []
    case Some(name) => [Emission(AppAnalysis, ModuleMsg(name), ScoreOf(ModuleMsg(name), ModuleScores))]
  }

  /** Every module finding scores 3. */
  lemma ModuleScore(name: string)
    ensures ScoreOf(ModuleMsg(name), ModuleScores) == 3
  {
    ContainsFront("Active Magisk/KSU Module", ": " + name);
    assert ModuleMsg(name) == "Active Magisk/KSU Module" + (": " + name);
    HasFires(ModuleMsg(name), "Active Magisk/KSU Module", 3);
    FirstBranchDecides(ModuleMsg(name), ModuleScores);
  }

  method ProcessMagiskModules(line: string, report: ReportData)
    modifies report
    ensures report.Scoring() == EmittedAll(old(report.Scoring()), MagiskModulesHits(line))
    ensures report.Metadata() == old(report.Metadata())
  {
    var pos := Find(line, ModulesDir);
    if pos.Some? {
      var path := line[pos.value + 18..];
      var slash := FindChar(path, '/');
      if path != [] && slash.Some? {
        var name := path[..slash.value];
        var _ := report.Emit(Emission(AppAnalysis, ModuleMsg(name), ScoreOf(ModuleMsg(name), ModuleScores)));
      }
    }
  }

  // ---------------------------------------------------------------- CustomRecoveryRule

  const CustomRecoveryMsg := "Custom Recovery" + ": TWRP or OrangeFox folder detected."
  const CustomRecoveryBranches: seq<Branch<string>> := [Branch("", [], ["/TWRP/", "/Fox/"], CustomRecoveryMsg)]
  const CustomRecoveryScores: seq<Branch<int>> := [Has("Custom Recovery", 2)]

  function CustomRecoveryHits(line: string): seq<Emission> {
    ChainHits(line, CustomBuild, CustomRecoveryBranches, CustomRecoveryScores)
  }

  lemma CustomRecoveryScore()
    ensures ScoreOf(CustomRecoveryMsg, CustomRecoveryScores) == 2
  {
    ContainsFront("Custom Recovery", ": TWRP or OrangeFox folder detected.");
    HasFires(CustomRecoveryMsg, "Custom Recovery", 2);
    FirstBranchDecides(CustomRecoveryMsg, CustomRecoveryScores);
  }

  // ---------------------------------------------------------------- FilePermissionsRule

  const SuidWhitelist: set<string> := {"/system/bin/ping", "/system/bin/run-as", "/system/xbin/ping"}

  /** `line.substr(line.find_last_of(" \t") + 1)`: the last token, or the
      whole line when it has no blank (`npos + 1` is 0). */
  function LastToken(line: string): (r: string)
    ensures EndsWith(line, r)
    ensures forall k :: 0 <= k < |r| ==> !IsBlank(r[k])
    ensures |r| == |line| || IsBlank(line[|line| - |r| - 1])
  {
    match LastBlank(line)
    case None => line
    case Some(k) => line[k + 1..]
  }

  predicate IsSetuidListing(line: string) {
    StartsWith(line, "-rws") || StartsWith(line, "drws")
  }

  function SuidMsg(line: string): string { "Insecure Permissions: " + "SUID bit set" + " on file: " + line }

  const SuidScores: seq<Branch<int>> := [Has("SUID bit set", 3)]

  function FilePermissionsHits(line: string): seq<Emission> {
    if IsSetuidListing(line) && LastToken(line) !in SuidWhitelist
    then [Emission(Anomalies, SuidMsg(line), ScoreOf(SuidMsg(line), SuidScores))]
    else []
  }

  /** A set-uid listing is reported, with the whole line in the finding and
      3 points, exactly when its path is not one of the three whitelisted. */
  lemma FilePermissionsSpec(line: string)
    ensures FilePermissionsHits(line) != [] <==> IsSetuidListing(line) && LastToken(line) !in SuidWhitelist
    ensures FilePermissionsHits(line) != [] ==>
              FilePermissionsHits(line) == [Emission(Anomalies, SuidMsg(line), 3)] && Contains(SuidMsg(line), line)
  {
    var a := "Insecure Permissions: " + "SUID bit set" + " on file: ";
    assert SuidMsg(line) == a + line;
    assert SuidMsg(line) == "Insecure Permissions: " + "SUID bit set" + (" on file: " + line);
    ContainsMiddle("Insecure Permissions: ", "SUID bit set", " on file: " + line);
    assert a + line == a + line + "";
    ContainsMiddle(a, line, "");
    HasFires(SuidMsg(line), "SUID bit set", 3);
    FirstBranchDecides(SuidMsg(line), SuidScores);
  }

  method ProcessFilePermissions(line: string, report: ReportData)
    modifies report
    ensures report.Scoring() == EmittedAll(old(report.Scoring()), FilePermissionsHits(line))
    ensures report.Metadata() == old(report.Metadata())
  {
    if StartsWith(line, "-rws") || StartsWith(line, "drws") {
      var lastBlank := LastBlank(line);
      var pathPos := if lastBlank.Some? then lastBlank.value + 1 else 0;
      var filePath := line[pathPos..];
      if filePath !in SuidWhitelist {
        var _ := report.Emit(Emission(Anomalies, SuidMsg(line), ScoreOf(SuidMsg(line), SuidScores)));
      }
    }
  }

  // ---------------------------------------------------------------- SuspiciousBinaryRule

  /** The static `std::set` of paths, in its iteration (sorted) order. */
  const SuspiciousPaths: seq<string> := [
    "/sbin/su", "/su/bin/su", "/system/bin/busybox", "/system/bin/magisk", "/system/bin/su",
    "/system/xbin/busybox", "/system/xbin/magisk", "/system/xbin/su", "/vendor/bin/su"
  ]

  function BinaryMsg(path: string): string { "Found suspicious binary at: " + path }

  const BinaryScores: seq<Branch<int>> := [Branch("", [], ["/su", "/magisk"], 7), Has("busybox", 2)]

  function BinaryCheck(line: string): string -> seq<Emission> {
    path => if Contains(line, path)
            then [Emission(FileSystemAndMounts, BinaryMsg(path), ScoreOf(BinaryMsg(path), BinaryScores))]
            else []
  }

  function SuspiciousBinaryHits(line: string): seq<Emission> {
    Collect(SuspiciousPaths, BinaryCheck(line))
  }

  /** One finding per listed path found in the line, and no other. */
  lemma SuspiciousBinarySpec(line: string, path: string)
    requires path in SuspiciousPaths
    ensures BinaryMsg(path) in MessagesOf(SuspiciousBinaryHits(line), FileSystemAndMounts) <==> Contains(line, path)
  {
    var m := BinaryMsg(path);
    CollectMessages(SuspiciousPaths, BinaryCheck(line), FileSystemAndMounts, m);
    if m in MessagesOf(SuspiciousBinaryHits(line), FileSystemAndMounts) {
      var i :| 0 <= i < |SuspiciousPaths| && m in MessagesOf(BinaryCheck(line)(SuspiciousPaths[i]), FileSystemAndMounts);
      var q := SuspiciousPaths[i];
      assert BinaryMsg(q) == m;
      WrapInjective("Found suspicious binary at: ", q, path, "");
    } else {
      var i :| 0 <= i < |SuspiciousPaths| && SuspiciousPaths[i] == path;
    }
  }

  /** Paths with "/su" or "/magisk" in them score 7. */
  lemma SuspiciousBinaryScore(path: string)
    requires Contains(path, "/su") || Contains(path, "/magisk")
    ensures ScoreOf(BinaryMsg(path), BinaryScores) == 7
  {
    var b := BinaryScores[0];
    assert b.any == ["/su", "/magisk"];
    assert StartsWith(BinaryMsg(path), "");
    if Contains(path, "/su") {
      ContainsConcat("Found suspicious binary at: ", path, "", "/su");
      assert BinaryMsg(path) == "Found suspicious binary at: " + path + "";
      assert Contains(BinaryMsg(path), b.any[0]);
    } else {
      ContainsConcat("Found suspicious binary at: ", path, "", "/magisk");
      assert BinaryMsg(path) == "Found suspicious binary at: " + path + "";
      assert Contains(BinaryMsg(path), b.any[1]);
    }
    FirstBranchDecides(BinaryMsg(path), BinaryScores);
  }

  /** A busybox binary found at either of its two watched paths scores 2:
      neither path mentions "/su" or "/magisk", so the first branch does
      not fire and the busybox branch does. */
  lemma BusyboxScore(path: string)
    requires path == "/system/bin/busybox" || path == "/system/xbin/busybox"
    ensures ScoreOf(BinaryMsg(path), BinaryScores) == 2
  {
    var prefix := "Found suspicious binary at: ";
    var msg := BinaryMsg(path);
    BusyboxPathNoSu(path);
    PrefixFreeNotContained(prefix, path, "/su");
    assert "/magisk"[6] == 'k';
    MissingCharNotContained(msg, "/magisk", 6);
    EitherFires(msg, "/su", "/magisk", 7);
    var dir := path[..|path| - 7];
    assert path == dir + "busybox";
    assert msg == prefix + dir + "busybox" + "";
    ContainsMiddle(prefix + dir, "busybox", "");
    HasFires(msg, "busybox", 2);
    ScoreIs(msg, BinaryScores, 1);
  }

  /** The one 'u' of either busybox path follows a 'b', so "su", and with
      it "/su", does not occur. */
  lemma BusyboxPathNoSu(path: string)
    requires path == "/system/bin/busybox" || path == "/system/xbin/busybox"
    ensures !Contains(path, "/su")
  {
    var u := if path == "/system/bin/busybox" then 13 else 14;
    assert path[u] == 'u' && path[u - 1] == 'b';
    assert forall i :: 0 <= i < |path| && path[i] == 'u' ==> i == u;
    UniqueCharNotContained(path, "su", 1, u);
    if Contains(path, "/su") {
      assert OccursAt("/su", "su", 1);
      ContainsTrans(path, "/su", "su");
    }
  }

  method ProcessSuspiciousBinary(line: string, report: ReportData)
    modifies report
    ensures report.Scoring() == EmittedAll(old(report.Scoring()), SuspiciousBinaryHits(line))
    ensures report.Metadata() == old(report.Metadata())
  {
    for i := 0 to |SuspiciousPaths|
      invariant report.Scoring() == EmittedAll(old(report.Scoring()), Collect(SuspiciousPaths[..i], BinaryCheck(line)))
      invariant report.Metadata() == old(report.Metadata())
    {
      var path := SuspiciousPaths[i];
      ghost var before := report.Scoring();
      if Contains(line, path) {
        var _ := report.Emit(Emission(FileSystemAndMounts, BinaryMsg(path), ScoreOf(BinaryMsg(path), BinaryScores)));
      }
      assert report.Scoring() == EmittedAll(before, BinaryCheck(line)(path));
      CollectStep(SuspiciousPaths, i, BinaryCheck(line));
      EmittedAllAppend(old(report.Scoring()), Collect(SuspiciousPaths[..i], BinaryCheck(line)), BinaryCheck(line)(path));
    }
    assert SuspiciousPaths[..|SuspiciousPaths|] == SuspiciousPaths;
  }

  // ---------------------------------------------------------------- InitRcRule

  /** The static `std::set` of keywords, in its iteration (sorted) order. */
  const ServiceKeywords: seq<string> := ["service apatch", "service ksu", "service magisk"]

  function InitRcMsg(line: string): string {
    "High-Confidence: " + "Root service definition found" + " in init script: " + line
  }

  const InitRcScores: seq<Branch<int>> := [Has("Root service definition found", 7)]

  function InitRcCheck(line: string): string -> seq<Emission> {
    kw => if StartsWith(TrimLeft(line), kw)
          then [Emission(RootAndFrameworks, InitRcMsg(line), ScoreOf(InitRcMsg(line), InitRcScores))]
          else []
  }

  function InitRcHits(line: string): seq<Emission> {
    Collect(ServiceKeywords, InitRcCheck(line))
  }

  lemma InitRcScore(line: string)
    ensures ScoreOf(InitRcMsg(line), InitRcScores) == 7
  {
    var m := InitRcMsg(line);
    assert m == "High-Confidence: " + "Root service definition found" + (" in init script: " + line);
    ContainsMiddle("High-Confidence: ", "Root service definition found", " in init script: " + line);
    HasFires(m, "Root service definition found", 7);
    FirstBranchDecides(m, InitRcScores);
  }

  /** The line is reported, in full and for 7 points, exactly when its
      blank-trimmed form starts with one of the root service keywords. */
  lemma InitRcSpec(line: string)
    ensures InitRcMsg(line) in MessagesOf(InitRcHits(line), RootAndFrameworks) <==>
              exists i :: 0 <= i < |ServiceKeywords| && StartsWith(TrimLeft(line), ServiceKeywords[i])
    ensures forall e :: e in InitRcHits(line) ==> e == Emission(RootAndFrameworks, InitRcMsg(line), 7)
  {
    var m := InitRcMsg(line);
    CollectMessages(ServiceKeywords, InitRcCheck(line), RootAndFrameworks, m);
    forall i | 0 <= i < |ServiceKeywords|
      ensures m in MessagesOf(InitRcCheck(line)(ServiceKeywords[i]), RootAndFrameworks) <==> StartsWith(TrimLeft(line), ServiceKeywords[i])
    {
      InitRcCheckFiles(line, ServiceKeywords[i]);
    }
    InitRcEmissions(line);
  }

  lemma InitRcCheckFiles(line: string, kw: string)
    ensures InitRcMsg(line) in MessagesOf(InitRcCheck(line)(kw), RootAndFrameworks) <==> StartsWith(TrimLeft(line), kw)
  {
  }

  lemma InitRcEmissions(line: string)
    ensures forall e :: e in InitRcHits(line) ==> e == Emission(RootAndFrameworks, InitRcMsg(line), 7)
  {
    InitRcScore(line);
    forall e | e in InitRcHits(line) ensures e == Emission(RootAndFrameworks, InitRcMsg(line), 7) {
      CollectFrom(ServiceKeywords, InitRcCheck(line), e);
    }
  }

  /** One keyword of the InitRc loop. */
  method CheckServiceKeyword(line: string, trimmed: string, keyword: string, report: ReportData)
    requires trimmed == TrimLeft(line)
    modifies report
    ensures report.Scoring() == EmittedAll(old(report.Scoring()), InitRcCheck(line)(keyword))
    ensures report.Metadata() == old(report.Metadata())
  {
    ghost var before := report.Scoring();
    if StartsWith(trimmed, keyword) {
      var e := Emission(RootAndFrameworks, InitRcMsg(line), ScoreOf(InitRcMsg(line), InitRcScores));
      var _ := report.Emit(e);
      EmittedOne(before, e);
    }
  }

  method ProcessInitRc(line: string, report: ReportData)
    modifies report
    ensures report.Scoring() == EmittedAll(old(report.Scoring()), InitRcHits(line))
    ensures report.Metadata() == old(report.Metadata())
  {
    var trimmed := TrimLeft(line);
    for i := 0 to |ServiceKeywords|
      invariant report.Scoring() == EmittedAll(old(report.Scoring()), Collect(ServiceKeywords[..i], InitRcCheck(line)))
      invariant report.Metadata() == old(report.Metadata())
    {
      var keyword := ServiceKeywords[i];
      CheckServiceKeyword(line, trimmed, keyword, report);
      CollectStep(ServiceKeywords, i, InitRcCheck(line));
      EmittedAllAppend(old(report.Scoring()), Collect(ServiceKeywords[..i], InitRcCheck(line)), InitRcCheck(line)(keyword));
    }
    assert ServiceKeywords[..|ServiceKeywords|] == ServiceKeywords;
  }
}
