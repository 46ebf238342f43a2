# Bugreport root detector: the detection engine

A Dafny model of the engine that scans an Android bugreport for evidence of
rooting, root hiding and hooking frameworks, with proofs about it. The model
covers:

- **Section indexer** (`Sections`). `build_section_index` makes one pass over
  the report's lines. It recognises `------ TITLE ------` delimiter lines and
  maps each title to the byte range of its section. The range runs from the
  line after the delimiter to the start of the next delimiter line. The
  file's last section is stored with end -1: after the `getline` loop the
  stream has failed, `seekg` does not clear that, and `tellg` returns -1. The
  section pass then reads none of that section's lines (see "## Findings").
  `CorrectedIndex` closes it at end of file instead. Progress is reported in
  0..20 and only when the value changes.
- **Rule map and dispatch** (`Dispatch`). `map_rules_to_sections` maps each
  target-section name to the rules that list it. A section activates every
  rule listed under a target name that occurs in the section's title.
- **Driver** (`Analyzer`). `analyze` visits the index in key order. It seeks
  to each section's start and gives each line to the active rules, reporting
  progress in 20..90. It then scans the `mountinfo` files under `FS/proc`
  with the `MOUNTS` rules and finalizes every rule. Last come the TrickyStore
  correlation and the clamp of the score to 10.
- **Shared state** (`Report`). `ReportData` holds the findings per category,
  the score, the status strings and the debug log. `AnalysisContext` holds the
  per-run scratchpad the rules correlate through. Both are classes whose
  abstract values are datatypes.
- **Emission idiom** (`Report`). A finding's text is inserted into its
  category's set. Its score is added only when the insert was new.
- **Rules** (`FrameworkRules`, `LogRules`, `FileSystemRules`,
  `ProcessRules`). These are the 39 registered rules whose source is part of
  this model. Each has:
  - a pure function from a line (and the context) to the findings it files;
  - an `if`/`else if` chain, modelled as a table of branches (`Chains`);
  - a method on the classes that is proved equal to that function;
  - lemmas that pin down which branch decides and what `getScore` gives.
- **Regular expressions** (`Patterns`). The six patterns the rules use are
  hand-written matchers with the leftmost-match and greedy/lazy semantics of
  `std::regex_search`. Each has a round-trip lemma.
- **Property lines** (`RulesCommon`). `parse_property_line` splits
  `[key]: [value]` lines.

`std::map` and `std::set` are sorted sequences (`OrderedMaps`), so every
iteration order the source relies on is part of the model. The report is a
sequence of lines, each ended by a newline. Byte offsets are derived from the
line lengths, which is the value `tellg` returns.

## Model

| member | source | states |
|---|---|---|
| RulesCommon.ParsePropertyLine | src/rules/RulesCommon.cpp:6-18 | A line parses exactly when it is non-empty, starts with '[' and contains `]:`. The key is the text between the '[' and the first `]:`. The value is the text after that `]:` with leading blanks dropped, minus one pair of enclosing brackets when it has them (`ValueAfter`). |
| RulesCommon.ParsePropertyLineInto | src/rules/RulesCommon.cpp:6-18 | The out-parameters keep their old values on every early return. Otherwise they hold the parsed pair. |
| RulesCommon.FirstSeparator | src/rules/RulesCommon.cpp:8 | In `[k]: [v]` with `k` free of `]:`, the first `]:` is the one after the key. |
| RulesCommon.ParseKeyed | src/rules/RulesCommon.cpp:6-18 | A key free of `]:`, then `]:`, then any text parses to that key and the text with leading blanks dropped and one pair of enclosing brackets removed. |
| RulesCommon.PropertyUnbracketed | src/rules/RulesCommon.cpp:12-17 | A value written without enclosing brackets after any run of blanks is returned as it stands. |
| RulesCommon.PropertyRoundTrip | src/rules/RulesCommon.cpp:6-18 | Writing any key free of `]:` and any value as `[k]: [v]` parses back to `(k, v)`. |
| Strings.Find | src/rules/RulesCommon.cpp:8 | `find` returns the leftmost occurrence, and returns one exactly when the pattern occurs. |
| Strings.TrimLeft | src/rules/ProcessRules.cpp:92 | The result is a suffix of the input with only blanks removed before it, and it does not start with a blank. |
| Strings.LastBlank | src/rules/FrameworkRules.cpp:124 | `find_last_of(" \t")`: a blank with no blank after it, or none when the text has no blank. |
| Strings.FindLastChar | src/rules/FrameworkRules.cpp:174 | The last occurrence of the character, or none when it does not occur. |
| Strings.NatToString | src/rules/LogRules.cpp:76 | `std::to_string` of a count gives decimal digits whose value is the count. |
| Strings.ToLower | src/rules/LogRules.cpp:171-172 | Same length, and each character lowered as ASCII `tolower` does. |
| OrderedMaps.Put | src/analyzer/ReportAnalyzer.cpp:67 | `index[t] = r` adds `t` to the keys, makes `t` read `r`, and leaves every other key's value unchanged. |
| OrderedMaps.PutSorted | src/analyzer/ReportAnalyzer.cpp:67 | A write keeps the map in ascending key order. |
| OrderedMaps.PutAllLastWins | src/analyzer/ReportAnalyzer.cpp:67 | After a series of writes, each key holds the value of its last write. |
| OrderedMaps.Insert | src/rules/FrameworkRules.cpp:178 | `std::set::insert` adds exactly the new element. |
| OrderedMaps.InsertSorted | src/rules/FrameworkRules.cpp:178 | Insertion keeps the set strictly ascending, which is its iteration order. |
| Report.Emitted | src/rules/FrameworkRules.cpp:65-67 | The text joins its category's set and no other set changes. The score grows by the points exactly when the text was new. |
| Report.Inserted | src/rules/LogRules.cpp:21-22 | The text joins its category's set and the points are added every time, new or not. |
| Report.EmittedAllFindings | src/rules/FrameworkRules.cpp:65-67 | After a series of emissions, each category holds its old findings plus exactly the texts emitted under it. |
| Report.RepeatedEmissionIsNoOp | src/rules/FrameworkRules.cpp:65-67 | Emitting a text already filed changes neither the findings nor the score. |
| Report.EmittedAllIdempotent | src/rules/FrameworkRules.cpp:65-67 | Replaying the same emissions a second time changes nothing, so re-detection never scores twice. |
| Report.EmittedAllScoreBounds | src/rules/FrameworkRules.cpp:65-67 | With non-negative points, the score never drops and grows by at most the sum of the points. |
| Report.CollectMessages | src/rules/FrameworkRules.cpp:62-76 | A loop over a list files under a category exactly what its iterations file there. |
| Report.CollectFrom | src/rules/FrameworkRules.cpp:62-76 | Every emission of a loop comes from one of its iterations. |
| Report.ReportData.Emit | src/rules/FrameworkRules.cpp:65-67 | `insert(..).second` reports whether the text was new. The scoring part becomes `Emitted` of the old one and the metadata is unchanged. |
| Report.ReportData.InsertAndAdd | src/rules/LogRules.cpp:21-22 | The scoring part becomes `Inserted` of the old one and the metadata is unchanged. |
| Chains.FirstMatch | src/rules/FileSystemRules.cpp:9-35 | The deciding branch of an `if`/`else if` chain is the first one whose test holds. There is none only when no test holds. |
| Chains.Shadowed | src/rules/FileSystemRules.cpp:12-28 | A branch whose test implies an earlier branch's test never decides. |
| Chains.ScoreOf | src/rules/FrameworkRules.cpp:302-311 | `getScore` gives the points of the first test that holds on the text, and 0 when none holds. |
| Chains.FirstMatchIs | src/rules/FrameworkRules.cpp:302-311 | A branch that fires after only failing branches is the one that decides. |
| Chains.ScoreIs | src/rules/FrameworkRules.cpp:302-311 | A score test that holds after only failing tests gives the score. |
| Chains.ChainHits | src/rules/FrameworkRules.cpp:201-218 | A chain files at most one finding. It files one exactly when some branch fires: the deciding branch's text, scored by `getScore`. |
| Chains.EmitFirstMatch | src/rules/FrameworkRules.cpp:201-218 | Filing the chain's `report_str` when it is non-empty performs exactly the emissions of `ChainHits`. |
| Sections.StartOfMonotone | src/analyzer/ReportAnalyzer.cpp:58-71 | The offsets at which lines start strictly increase. |
| Sections.StartsInOrder | src/analyzer/ReportAnalyzer.cpp:58-71 | Line starts never decrease and never pass the end of the file. |
| Sections.DelimiterOverlap | src/analyzer/ReportAnalyzer.cpp:63-66 | The 13-character line `------ ------` passes the delimiter test as written, but removing 7 characters from each end of it is undefined. |
| Sections.DelimiterShape | src/analyzer/ReportAnalyzer.cpp:63-68 | A delimiter line is the open marker, its title, then the close marker. |
| Sections.DelimiterRoundTrip | src/analyzer/ReportAnalyzer.cpp:63-68 | Every title, the empty one included, wrapped in the markers is a delimiter whose title is that title. |
| Sections.DelimiterCorrected | src/analyzer/ReportAnalyzer.cpp:63 | The corrected test agrees with the one as written on every line except those of length 13. |
| Sections.HeadersAt | src/analyzer/ReportAnalyzer.cpp:61-68 | What the indexer sees on line `k` is decided by that line alone, after its '\r' is stripped. |
| Sections.DelimsSpec | src/analyzer/ReportAnalyzer.cpp:61-70 | The list of delimiter lines holds every delimiter line, in file order. |
| Sections.ScanState | src/analyzer/ReportAnalyzer.cpp:56-70 | After any number of lines, the open section is the last delimiter's title and starts just after that delimiter line. Before the first delimiter nothing is open or recorded. |
| Sections.ScanIsSpans | src/analyzer/ReportAnalyzer.cpp:61-82 | The loop's writes, plus closing the open section at any end value, are the sections the delimiters cut the file into, the last one closed at that value. |
| Sections.RecordedIsSpans | src/analyzer/ReportAnalyzer.cpp:61-82 | The writes into the index are the sections of the whole file, the last one closed at the end value the final write uses. |
| Sections.SpansLast | src/analyzer/ReportAnalyzer.cpp:67-81 | The last section with a given title decides its value. A title no delimiter carries, or the empty one, has none. |
| Sections.ClosedIndexLookup | src/analyzer/ReportAnalyzer.cpp:61-82 | With the last section closed at a given end value, `index[t]` is the range of the last section titled `t`. Untitled and absent titles are not keys. |
| Sections.SectionIndexLookup | src/analyzer/ReportAnalyzer.cpp:51-84 | `index[t]` is the range of the last section titled `t`: from after its delimiter line to the next delimiter line, or to -1 when it is the file's last section. Untitled and absent titles are not keys. |
| Sections.CorrectedIndexLookup | src/analyzer/ReportAnalyzer.cpp:79-81 | With the stream cleared before the final seek, the file's last section instead ends at end of file. |
| Sections.LastTitleIndexed | src/analyzer/ReportAnalyzer.cpp:79-81 | The title of the file's last delimiter line maps to the range from just after that line to the end value of the final write. |
| Sections.SectionIndexBounds | src/analyzer/ReportAnalyzer.cpp:51-84 | Every indexed range starts at a line boundary within the file. Its end is -1 exactly for the title of the file's last delimiter line; every other range ends within the file and no earlier than it starts. |
| Sections.CorrectedIndexBounds | src/analyzer/ReportAnalyzer.cpp:79-81 | In the corrected index every range lies within the file and does not end before it starts. |
| Sections.SectionIndexSorted | src/analyzer/ReportAnalyzer.cpp:52 | The index is ordered by title, so it is visited alphabetically, not in file order. |
| Sections.ReportedSpec | src/analyzer/ReportAnalyzer.cpp:74-77 | Change-only reporting never repeats a value twice in a row and reports only computed values. It reports every computed value except the starting one, and ends holding the last computed value. |
| Sections.IndexProgressBounds | src/analyzer/ReportAnalyzer.cpp:73 | With the file's real size, the indexing pass computes progress within 0..20. |
| Sections.BuildSectionIndex | src/analyzer/ReportAnalyzer.cpp:51-84 | The loop returns the index `SectionIndexLookup` describes, the last section stored with end -1, and the deduplicated sequence of its per-line progress values. |
| Sections.ReadHeader | src/analyzer/ReportAnalyzer.cpp:61-66 | The '\r' strip, the delimiter test and the title strip of one line. |
| Sections.IndexCloses | src/analyzer/ReportAnalyzer.cpp:63-69 | A delimiter while a section is open writes that section, ending at the delimiter line, and opens the new title just after it. |
| Sections.IndexOpens | src/analyzer/ReportAnalyzer.cpp:63-69 | A delimiter while no section is open only opens its title. |
| Sections.IndexProgressStep | src/analyzer/ReportAnalyzer.cpp:71-77 | Each line computes one progress value, reported exactly when it differs from the last one reported. |
| Sections.ReportedSnoc | src/analyzer/ReportAnalyzer.cpp:74-77 | One more computed value is reported exactly when it differs from the value held. |
| Dispatch.AddTargetsKeys | src/analyzer/ReportAnalyzer.cpp:89-91 | Adding a rule's targets keeps the keys sorted and non-empty, and adds exactly those targets as keys. |
| Dispatch.AddTargetsLookup | src/analyzer/ReportAnalyzer.cpp:89-91 | Under each name, the rule is appended once per time it lists that name. |
| Dispatch.RuleMapSpec | src/analyzer/ReportAnalyzer.cpp:86-94 | The map holds under each name exactly the rules that target it, in registration order and repeated per listing. It has a key for exactly the names some rule targets. |
| Dispatch.MapRulesToSections | src/analyzer/ReportAnalyzer.cpp:86-94 | `map_rules_to_sections` over the registered rules builds the map `RuleMapSpec` describes. |
| Dispatch.PushRule | src/analyzer/ReportAnalyzer.cpp:89-91 | The inner loop pushes the rule under each of its target names. |
| Dispatch.ActiveRules | src/analyzer/ReportAnalyzer.cpp:180-185 | The loop collects, in key order, the rules of every key that occurs in the section's title. |
| Dispatch.KeyWeightIsMatching | src/analyzer/ReportAnalyzer.cpp:181-185 | Over distinct keys, a rule's weight is the number of its listings of keys that occur in the title. |
| Dispatch.BucketCount | src/analyzer/ReportAnalyzer.cpp:88-92 | A rule appears under a name as often as it is registered times as often as it lists the name. |
| Dispatch.ActiveCount | src/analyzer/ReportAnalyzer.cpp:181-185 | The active list holds a rule once per listing of a key that occurs in the title, scaled by how often each key holds it. |
| Dispatch.ActiveMultiplicityOf | src/analyzer/ReportAnalyzer.cpp:180-185 | For any rules and targets, a section activates each rule once per target name of it that occurs in the title, times its registrations. |
| Dispatch.ActiveMultiplicity | src/analyzer/ReportAnalyzer.cpp:180-185 | The same for the registered rules and their target lists. |
| Dispatch.ResetpropMatchesLastLogcat | src/rules/LogRules.cpp:208 | Two of ResetpropRule's targets, "LOGCAT" and "LAST LOGCAT", occur in the title "LAST LOGCAT". |
| Dispatch.LastLogcatRunsResetpropTwice | src/rules/LogRules.cpp:208 | So ResetpropRule runs twice on every line of "LAST LOGCAT" for each time it is registered. |
| Registry.LineStepKeepsMeta | src/analyzer/ReportAnalyzer.cpp:193-195 | No rule's `processLine` touches the report's metadata. Only PackageManagerRule changes its own `is_hidden`. |
| Registry.FwKeepsMeta | src/rules/FrameworkRules.cpp:61-450 | The framework rules' `processLine` leaves the metadata and `is_hidden` unchanged. |
| Registry.LogKeepsMeta | src/rules/LogRules.cpp:16-357 | The log rules' `processLine` leaves the metadata and `is_hidden` unchanged. |
| Registry.FsKeepsMeta | src/rules/FileSystemRules.cpp:9-201 | The filesystem rules' `processLine` leaves the metadata and `is_hidden` unchanged. |
| Registry.FinalizeStatus | src/rules/LogRules.cpp:115-125 | Of the finalizers only SELinuxStateRule's writes metadata. It sets the status, which is "Permissive" exactly when the context's state is Permissive. |
| Registry.ProcessLine | src/analyzer/ReportAnalyzer.cpp:193-195 | Dispatching a line to a rule changes the report, context and `is_hidden` as that rule's step function says. |
| Registry.ProcessFwLine | src/rules/FrameworkRules.cpp:61-450 | The same for the framework rules. |
| Registry.ProcessLogLine | src/rules/LogRules.cpp:16-357 | The same for the log rules. |
| Registry.ProcessFsLine | src/rules/FileSystemRules.cpp:9-201 | The same for the filesystem rules. |
| Registry.ProcessProcLine | src/rules/ProcessRules.cpp:30-124 | The same for the process rules. |
| Registry.Finalize | src/analyzer/ReportAnalyzer.cpp:215-217 | A rule's `finalize` changes the state as its finalize step says. Rules that do not override it change nothing. |
| Analyzer.RunRulesKeepsMeta | src/analyzer/ReportAnalyzer.cpp:193-195 | Running the active rules over a line leaves the metadata unchanged. |
| Analyzer.LinesInSpec | src/analyzer/ReportAnalyzer.cpp:188-190 | The lines of a range are exactly the lines whose start offset lies in the range, in file order. |
| Analyzer.LinesInPastEnd | src/analyzer/ReportAnalyzer.cpp:190 | Once a line starts at or after the range's end, no further line is read. |
| Analyzer.LinesInBeforeSeek | src/analyzer/ReportAnalyzer.cpp:188 | Lines before the seek target start before the range and are skipped. |
| Analyzer.LineAtSpec | src/analyzer/ReportAnalyzer.cpp:188 | `seekg(s)` lands on a line that starts at or after `s`. |
| Analyzer.RunSpanIsRunLines | src/analyzer/ReportAnalyzer.cpp:187-203 | The read loop from the seek target runs the rules on exactly the lines of the range, in file order. |
| Analyzer.SectionReadsItsLines | src/analyzer/ReportAnalyzer.cpp:187-203 | A section's pass runs its active rules on exactly the lines whose start lies in its range, in file order; for a range ending at -1 that is no line. |
| Analyzer.LastSectionSkipped | src/analyzer/ReportAnalyzer.cpp:79-81 | As written, the file's last section is indexed with end -1, so its pass reads no line and only adds its debug line. |
| Analyzer.CorrectedLastSectionRead | src/analyzer/ReportAnalyzer.cpp:79-81 | In the corrected index, the file's last section's pass reads exactly the lines after its delimiter line. |
| Analyzer.LastSectionExample | src/analyzer/ReportAnalyzer.cpp:79-81 | On `------ A ------`, `x` the index as written holds A at (16, -1) and reads no line; the corrected one holds (16, 18) and reads `x`. |
| Analyzer.RunSpanKeepsMeta | src/analyzer/ReportAnalyzer.cpp:190-203 | Reading a section leaves the metadata unchanged. |
| Analyzer.RunSectionsLog | src/analyzer/ReportAnalyzer.cpp:178-179 | The section pass adds one debug line per index entry, in key order, and changes no other metadata. |
| Analyzer.SectionKeepsMeta | src/analyzer/ReportAnalyzer.cpp:178-186 | One index entry adds its own debug line and changes no other metadata. |
| Analyzer.ScanProgressBounds | src/analyzer/ReportAnalyzer.cpp:198 | Every offset in the file gives section-pass progress within 20..90. |
| Analyzer.RunSpanProgress | src/analyzer/ReportAnalyzer.cpp:197-202 | Reading a section reports only values within 20..90. |
| Analyzer.RunSectionsProgress | src/analyzer/ReportAnalyzer.cpp:178-204 | The whole section pass reports only values within 20..90. |
| Analyzer.IndexPassProgress | src/analyzer/ReportAnalyzer.cpp:73-77 | The indexing pass reports only values within 0..20. |
| Analyzer.ReportedWithin | src/analyzer/ReportAnalyzer.cpp:74-77 | Change-only reporting reports only values it was given. |
| Analyzer.PipelineProgressParts | src/analyzer/ReportAnalyzer.cpp:164-222 | A run's progress is the indexing pass's values, then the section pass's, then 90, 95 and 100. |
| Analyzer.PipelineProgress | src/analyzer/ReportAnalyzer.cpp:143-223 | Every progress value lies within 0..100, and the run always ends with 90, 95, 100. |
| Analyzer.AnalysisProgress | src/analyzer/ReportAnalyzer.cpp:143-223 | The same for the registered rules and the real rule map. |
| Analyzer.ClampSpec | src/analyzer/ReportAnalyzer.cpp:220 | The final score is at most 10. It is the accumulated score when that is at most 10, and findings, metadata and context are unchanged. |
| Analyzer.CorrelateSpec | src/analyzer/ReportAnalyzer.cpp:96-112 | Correlation changes only the bootloader status. It becomes the TrickyStore status exactly when a RootHidingAndEvasion finding mentions TrickyStore, or when it already was. |
| Analyzer.PipelineOutcome | src/analyzer/ReportAnalyzer.cpp:215-220 | The run's score is at most 10. A TrickyStore evasion finding present after finalize sets the bootloader status. |
| Analyzer.AnalysisScore | src/analyzer/ReportAnalyzer.cpp:220 | The score `analyze` leaves is at most 10. |
| Analyzer.ApplyRules | src/analyzer/ReportAnalyzer.cpp:193-195 | Each active rule's `processLine` runs in turn on the line. |
| Analyzer.SeekLine | src/analyzer/ReportAnalyzer.cpp:187-188 | The seek lands on the first line starting at or after the range start. |
| Analyzer.ReadSpan | src/analyzer/ReportAnalyzer.cpp:190-203 | The read loop performs the section's reference run. |
| Analyzer.ReadLine | src/analyzer/ReportAnalyzer.cpp:191-202 | One `getline` performs one reference step: rules, then progress. |
| Analyzer.TickProgress | src/analyzer/ReportAnalyzer.cpp:198-202 | The progress callback fires only when the value moved. |
| Analyzer.ScanSections | src/analyzer/ReportAnalyzer.cpp:178-204 | The section loop performs the reference section pass over the index in key order, whatever the ranges' ends, -1 included. |
| Analyzer.ScanMountInfo | src/analyzer/ReportAnalyzer.cpp:207-212 | The mountinfo step: the `MOUNTS` rules over every `mountinfo` file, or the note that `FS/proc` or the rules are missing. |
| Analyzer.ScanFiles | src/analyzer/ReportAnalyzer.cpp:124-136 | Each `mountinfo` file in turn goes through the `MOUNTS` rules. |
| Analyzer.ScanFile | src/analyzer/ReportAnalyzer.cpp:128-134 | Every line of one file, '\r' stripped, goes through the `MOUNTS` rules. |
| Analyzer.FinalizeRules | src/analyzer/ReportAnalyzer.cpp:215-217 | Every registered rule's `finalize` runs in registration order. |
| Analyzer.RunCorrelationEngine | src/analyzer/ReportAnalyzer.cpp:96-112 | The loop over the RootHidingAndEvasion findings sets the TrickyStore status exactly when one mentions TrickyStore, and changes nothing else. |
| Analyzer.ReportAnalyzer.Analyze | src/analyzer/ReportAnalyzer.cpp:143-223 | `analyze` leaves the report, `is_hidden` and the progress sequence that the reference run gives, so all of the run lemmas above apply to it. That run uses the index as written, so by `LastSectionSkipped` the file's last section contributes no line. |
| FrameworkRules.ProhibitedFound | src/rules/FrameworkRules.cpp:61-67 | Every lexicon package named in the line has its finding filed under its category. |
| FrameworkRules.ProhibitedOnlyFound | src/rules/FrameworkRules.cpp:61-77 | Nothing else is filed but those findings and the Meow Helper evasion finding. |
| FrameworkRules.ThreatHitsFrom | src/rules/FrameworkRules.cpp:62-75 | What one lexicon entry files comes from a package the line names. |
| FrameworkRules.MeowHelperEvasion | src/rules/FrameworkRules.cpp:68-74 | A line naming meow.helper also files the evasion finding. |
| FrameworkRules.MeowEvasionScore | src/rules/FrameworkRules.cpp:80 | The evasion finding scores 4. |
| FrameworkRules.MagiskManagerScore | src/rules/FrameworkRules.cpp:80 | The Magisk Manager finding scores 4. |
| FrameworkRules.TitaniumBackupScore | src/rules/FrameworkRules.cpp:79-85 | The TitaniumBackup finding misses every earlier test and scores 2. |
| FrameworkRules.ProcessProhibitedPackages | src/rules/FrameworkRules.cpp:61-77 | The lexicon loop files the findings `ProhibitedFound` and `ProhibitedOnlyFound` describe. |
| FrameworkRules.CheckThreat | src/rules/FrameworkRules.cpp:63-75 | One lexicon iteration. |
| FrameworkRules.NextToken | src/rules/FrameworkRules.cpp:96-102 | The token has no blanks, and the rest is strictly shorter, so the token loop ends. |
| FrameworkRules.NextTokenOf | src/rules/FrameworkRules.cpp:96-102 | A blank-free word followed by a space is read back as the next token. |
| FrameworkRules.Kept | src/rules/FrameworkRules.cpp:106-119 | Only numeric tokens are kept. |
| FrameworkRules.NumericTokensNumeric | src/rules/FrameworkRules.cpp:106-119 | Every token the scan keeps is numeric. |
| FrameworkRules.IdsFromNumeric | src/rules/FrameworkRules.cpp:106-119 | The pid and ppid the scan ends with are numeric or empty. |
| FrameworkRules.IdsFromTokensAfterPid | src/rules/FrameworkRules.cpp:111-117 | Once the pid is found, the scan keeps it and takes the next numeric token as the ppid. |
| FrameworkRules.IdsFromTokens | src/rules/FrameworkRules.cpp:103-119 | The scan keeps the first two numeric tokens of the line, with "" for a missing one. |
| FrameworkRules.PsLineIds | src/rules/FrameworkRules.cpp:103-119 | On a `ps` line `USER PID PPID ...` with a non-numeric user, the scan keeps the PID and PPID columns. |
| FrameworkRules.ZygoteParentPsLine | src/rules/FrameworkRules.cpp:95-133 | A magiskd line records its PID and a zygote line records its PPID. Nothing else in the context changes. |
| FrameworkRules.ZygoteParentFrame | src/rules/FrameworkRules.cpp:120-132 | A line changes at most one of the two pid fields, and only when it has two numeric tokens. |
| FrameworkRules.ScanIds | src/rules/FrameworkRules.cpp:103-119 | The token loop returns the first two numeric tokens. |
| FrameworkRules.ProcessZygoteParent | src/rules/FrameworkRules.cpp:95-133 | `processLine` updates the context as `ZygoteParentPsLine` describes. |
| FrameworkRules.RecordNamed | src/rules/FrameworkRules.cpp:127-131 | The last-column test records magiskd's pid or zygote's parent. |
| FrameworkRules.ZygoteParentFinalSpec | src/rules/FrameworkRules.cpp:135-147 | The anomaly is filed, for 7 points, exactly when both pids were seen and zygote's parent is magiskd. |
| FrameworkRules.FinalizeZygoteParent | src/rules/FrameworkRules.cpp:135-142 | `finalize` files what `ZygoteParentFinalSpec` describes. |
| FrameworkRules.BaseName | src/rules/FrameworkRules.cpp:174-175 | The basename has no '/' and is a suffix of the name. |
| FrameworkRules.RootColumnBaseShape | src/rules/FrameworkRules.cpp:166-175 | Only a root-owned line yields a name. That name has no '/', no blanks, and ends the line. |
| FrameworkRules.RootCandidateShape | src/rules/FrameworkRules.cpp:166-180 | What a root-owned line records is a non-whitelisted name without '/' or blanks that ends the line. |
| FrameworkRules.RootCandidateOf | src/rules/FrameworkRules.cpp:166-175 | A root-owned line ending `DIR/BASE` yields `BASE`. |
| FrameworkRules.RootActivityCtxSpec | src/rules/FrameworkRules.cpp:166-180 | Such a line adds `BASE` to the recorded processes unless it is whitelisted. The record stays an ascending set and nothing else changes. |
| FrameworkRules.RootActivitySpec | src/rules/FrameworkRules.cpp:157-164 | A blacklisted process's finding is filed exactly when the line names it. |
| FrameworkRules.RootProcessScore | src/rules/FrameworkRules.cpp:193 | A root process finding scores 6. |
| FrameworkRules.SuspiciousRootScore | src/rules/FrameworkRules.cpp:192-196 | The 3-point test never decides, since its text always matches the 6-point test first. A suspicious root process therefore scores 6. |
| FrameworkRules.ProcessRootActivity | src/rules/FrameworkRules.cpp:156-181 | `processLine` files the blacklist findings and records the candidate. |
| FrameworkRules.RecordRootCandidate | src/rules/FrameworkRules.cpp:166-180 | The root-owner check records the candidate's basename unless it is whitelisted. |
| FrameworkRules.RootActivityFinalSpec | src/rules/FrameworkRules.cpp:183-190 | `finalize` files a finding for every recorded process and no other. |
| FrameworkRules.FinalizeRootActivity | src/rules/FrameworkRules.cpp:183-190 | The finalize loop visits the recorded processes in ascending order. |
| FrameworkRules.MagiskFileContextWins | src/rules/FrameworkRules.cpp:201-218 | A line with the magisk_file label files that finding (4 points) and no other. |
| FrameworkRules.MagiskProcContextScore | src/rules/FrameworkRules.cpp:222 | The Magisk process context finding scores 6. |
| FrameworkRules.ApatchProcContextScore | src/rules/FrameworkRules.cpp:220-224 | The APatch context finding scores 6. |
| FrameworkRules.AlphaMissesMagiskTest | src/rules/FrameworkRules.cpp:222 | The Alpha context finding's text does not contain the Magisk context test. |
| FrameworkRules.AlphaProcContextScoresZero | src/rules/FrameworkRules.cpp:220-225 | The Magisk Alpha context finding is filed but scores 0, because no score test matches its text. |
| FrameworkRules.ZygiskLibWins | src/rules/FrameworkRules.cpp:230-245 | A line mapping libzygisk.so files the Zygisk finding (5 points) and nothing else. |
| FrameworkRules.FridaLibFinding | src/rules/FrameworkRules.cpp:230-245 | Either Frida library, without the two earlier markers, files the Frida finding for 7 points. |
| FrameworkRules.FridaLibScore | src/rules/FrameworkRules.cpp:247-251 | The Frida finding scores 7. |
| FrameworkRules.XposedArtifactScore | src/rules/FrameworkRules.cpp:249 | The Xposed artifact finding scores 5. |
| FrameworkRules.XposedTest | src/rules/FrameworkRules.cpp:277 | The Xposed branch fires exactly on "Xposed", since its "EdXposed" test adds nothing. |
| FrameworkRules.LsposedVersionLine | src/rules/FrameworkRules.cpp:263-276 | A version line files its version for 5 points, after at most one AppAnalysis hook finding, and sets the label to "LSPosed". |
| FrameworkRules.ShamikoLine | src/rules/FrameworkRules.cpp:280-283 | A Shamiko line files the Shamiko finding for 5 points and sets the label to "Shamiko". |
| FrameworkRules.ZygiskPtraceLine | src/rules/FrameworkRules.cpp:290-293 | A zygisk/ptrace line that reaches the last branch files its finding for 5 points and sets the label to "Zygisk". |
| FrameworkRules.FrameworkLabelSpec | src/rules/FrameworkRules.cpp:261-293 | The label only ever changes to one of the three framework names, and only on a line naming LSPosed or filing the Shamiko or Zygisk finding. |
| FrameworkRules.LsposedVersionScore | src/rules/FrameworkRules.cpp:303 | The version finding scores 5. |
| FrameworkRules.XposedTagScore | src/rules/FrameworkRules.cpp:304 | The Xposed tag scores 4. |
| FrameworkRules.ShamikoTagScore | src/rules/FrameworkRules.cpp:305 | The Shamiko tag scores 5. |
| FrameworkRules.MagiskHideTagScore | src/rules/FrameworkRules.cpp:306 | The MagiskHide tag scores 3. |
| FrameworkRules.MagiskAlphaTagScore | src/rules/FrameworkRules.cpp:307 | The Magisk Alpha tag scores 6. |
| FrameworkRules.ZygiskPtraceScore | src/rules/FrameworkRules.cpp:302-309 | The zygisk ptrace finding scores 5. |
| FrameworkRules.ProcessFramework | src/rules/FrameworkRules.cpp:261-300 | `processLine` files the line's findings and updates the label. |
| FrameworkRules.ProcessLsposed | src/rules/FrameworkRules.cpp:263-276 | The LSPosed branch files the hook finding, then the version finding. |
| FrameworkRules.EmitLsposedHook | src/rules/FrameworkRules.cpp:270-275 | When `target=(.+?)\s` matches, the hook finding names the captured app under AppAnalysis. |
| FrameworkRules.EmitLsposedVersion | src/rules/FrameworkRules.cpp:267-269 | When the version pattern matches, the version finding names the captured version. |
| FrameworkRules.KsuInitLine | src/rules/FrameworkRules.cpp:343-350 | An init interception line files the intercepted binary for 6 points. |
| FrameworkRules.SusfsLine | src/rules/FrameworkRules.cpp:343-356 | A susfs banner that never names KernelSU files its version for 5 points. |
| FrameworkRules.KsuMarkersNameKernelSu | src/rules/FrameworkRules.cpp:344-352 | Both the init pattern and the KPROBES marker imply that the line names KernelSU, so they pass the outer gate. |
| FrameworkRules.KsuInitScore | src/rules/FrameworkRules.cpp:365 | The init finding scores 6. |
| FrameworkRules.KprobesScore | src/rules/FrameworkRules.cpp:364-366 | The KPROBES finding scores 4. |
| FrameworkRules.SusfsScore | src/rules/FrameworkRules.cpp:364-367 | The susfs finding scores 5, since a version has no letter the earlier tests need. |
| FrameworkRules.ProcessKernelSuLog | src/rules/FrameworkRules.cpp:343-362 | `processLine` files the chosen finding. |
| FrameworkRules.RunningServicesFound | src/rules/FrameworkRules.cpp:374-395 | A listed package named on a service-record line is filed under its category. |
| FrameworkRules.RunningServicesOnlyFound | src/rules/FrameworkRules.cpp:374-395 | Every service finding names a listed package, under its listed category, that the service-record line contains. |
| FrameworkRules.ServiceScore | src/rules/FrameworkRules.cpp:398-400 | A service finding scores 4. |
| FrameworkRules.ProcessRunningServices | src/rules/FrameworkRules.cpp:374-396 | The loop over the services map files those findings. |
| FrameworkRules.ZygoteAnomalySpec | src/rules/FrameworkRules.cpp:406-423 | The hot-swap finding for the pending label is filed exactly in the hot-swap case, which alone clears the label. Nothing else in the context changes, and at most two findings are filed. |
| FrameworkRules.ZygiskServiceOverrides | src/rules/FrameworkRules.cpp:420-422 | A Zygisk service line files that finding for 5 points, whether or not it also reports a restart. |
| FrameworkRules.ShamikoThenZygoteCrash | src/rules/FrameworkRules.cpp:280-415 | A Shamiko line followed by a Zygote crash line files the correlated hot-swap finding naming Shamiko (5 points) and clears the label. |
| FrameworkRules.ZygoteRestartScore | src/rules/FrameworkRules.cpp:432 | The restart finding scores 3. |
| FrameworkRules.ZygiskServiceScore | src/rules/FrameworkRules.cpp:431-434 | The Zygisk service finding scores 5. |
| FrameworkRules.ProcessZygoteAnomaly | src/rules/FrameworkRules.cpp:406-429 | `processLine` files the findings and updates the label as `ZygoteAnomalySpec` describes. |
| FrameworkRules.ZygoteLine | src/rules/FrameworkRules.cpp:408-423 | The `Zygote` branch files the hot-swap finding at once and returns the other finding's text. |
| FrameworkRules.TombstoneSpec | src/rules/FrameworkRules.cpp:440-450 | A trace finding is filed exactly when the crash line contains that trace. |
| FrameworkRules.TraceScore | src/rules/FrameworkRules.cpp:453 | A trace finding scores 7. |
| FrameworkRules.ProcessTombstone | src/rules/FrameworkRules.cpp:440-450 | The trace loop files those findings. |
| FrameworkRules.MagiskPathWins | src/rules/FrameworkRules.cpp:316-328 | A line with "PATH" and "/data/adb/magisk" files only the Magisk PATH finding (4 points), even with LD_PRELOAD. |
| FrameworkRules.LdPreloadFinding | src/rules/FrameworkRules.cpp:316-328 | Otherwise LD_PRELOAD files its own finding for 5 points. |
| FrameworkRules.LdPreloadScore | src/rules/FrameworkRules.cpp:330-333 | The LD_PRELOAD finding scores 5. |
| Patterns.SearchFrom | src/rules/FrameworkRules.cpp:267 | `regex_search` returns the match at the leftmost position where the pattern matches, or none when it matches nowhere. |
| Patterns.LsposedVersionAt | src/rules/FrameworkRules.cpp:255 | A match is the literal, a non-empty run of digits and dots, then a space. |
| Patterns.LsposedVersionRoundTrip | src/rules/FrameworkRules.cpp:255 | Any version of digits and dots written after the literal is captured back. |
| Patterns.LazyUntilSpaceAt | src/rules/FrameworkRules.cpp:256 | The lazy capture is the shortest non-empty text after the prefix that is followed by whitespace. |
| Patterns.LazyUntilSpaceRoundTrip | src/rules/FrameworkRules.cpp:256 | Text written after the prefix up to whitespace is captured back. |
| Patterns.LsposedTargetRoundTrip | src/rules/FrameworkRules.cpp:256 | `target=APP ` yields APP. |
| Patterns.KsuInitAt | src/rules/FrameworkRules.cpp:338 | The capture is a non-space run ending in "init" and longer than it, followed by " argc:". |
| Patterns.KsuInitRoundTrip | src/rules/FrameworkRules.cpp:338 | `KernelSU: NAMEinit argc:` yields `NAMEinit`. |
| Patterns.SusfsVersionAt | src/rules/FrameworkRules.cpp:337 | The capture is 'v' and the longest run, of at least one, of digits and dots. |
| Patterns.SusfsVersionRoundTrip | src/rules/FrameworkRules.cpp:337 | A banner with `vDIGITS` yields that version. |
| Patterns.PidDumpAt | src/rules/LogRules.cpp:266 | The capture is numeric and followed by " at". |
| Patterns.PidDumpRoundTrip | src/rules/LogRules.cpp:266 | `----- pid N at` yields N for every N. |
| Patterns.SuGrantAt | src/rules/ProcessRules.cpp:61 | The `pkg=` alternative is tried first, and the result is whichever group matched. |
| LogRules.KeywordNames | src/rules/LogRules.cpp:17-19 | The names of exactly the lexicon entries whose keyword the line contains. |
| LogRules.LogKeywordNames | src/rules/LogRules.cpp:16-27 | After a line, the reported names are the old ones plus those the line's keywords name. |
| LogRules.LogKeywordQuiet | src/rules/LogRules.cpp:19 | A line whose threats were all reported already changes nothing. |
| LogRules.LogKeywordFiles | src/rules/LogRules.cpp:16-26 | Every matching threat not yet reported files its finding, which holds its name and the whole line. |
| LogRules.LogKeywordScoreBounds | src/rules/LogRules.cpp:16-26 | A line never lowers the score and adds at most the entries' points. |
| LogRules.LogKeywordOncePerRun | src/rules/LogRules.cpp:6-27 | Each threat is filed at most once per run, and no line adds more than 12 points. |
| LogRules.LexiconPoints | src/rules/LogRules.cpp:6-11 | The lexicon's points are non-negative and sum to 12. |
| LogRules.LsposedInjectionFiled | src/rules/LogRules.cpp:9-23 | The LSPosed injection keyword files the whole line under RootAndFrameworks the first time it appears. |
| LogRules.ProcessLogKeyword | src/rules/LogRules.cpp:16-27 | `processLine` performs that scan and changes only `reported_log_threats` in the context. |
| LogRules.InvalidSelinuxTransitionSpec | src/rules/LogRules.cpp:34-46 | An untrusted app's transition into the magisk domain is filed for 5 points, and nothing else is. |
| LogRules.NeverallowSpec | src/rules/LogRules.cpp:51-63 | A denial naming a neverallow rule is filed for 7 points, and nothing else is. |
| LogRules.ProcessDenialSpam | src/rules/LogRules.cpp:68-72 | A denial line bumps the count. |
| LogRules.DenialsCounted | src/rules/LogRules.cpp:68-72 | After a series of lines the count has grown by the number of denial lines, and nothing else has changed. |
| LogRules.DenialSpamOverLines | src/rules/LogRules.cpp:68-81 | The spam finding is filed for 2 points, naming the count, exactly when more denial lines than the threshold were seen. |
| LogRules.DenialSpamScore | src/rules/LogRules.cpp:83-86 | The spam finding scores 2. |
| LogRules.FinalizeDenialSpam | src/rules/LogRules.cpp:74-81 | `finalize` files the spam finding when the count exceeds the threshold. |
| LogRules.SelinuxStateSpec | src/rules/LogRules.cpp:91-113 | Only the SELinux state changes. It becomes Permissive exactly when it was already or the line is evidence, and never returns to Enforcing. |
| LogRules.PermissivePropertyLine | src/rules/LogRules.cpp:101-106 | The dump line `[ro.boot.selinux]: [permissive]` switches the state. |
| LogRules.BootSelinuxParses | src/rules/LogRules.cpp:101-103 | That line parses as the permissive boot property. |
| LogRules.ProcessSelinuxState | src/rules/LogRules.cpp:91-113 | `processLine` updates the state as `SelinuxStateSpec` describes. |
| LogRules.SelinuxFinalSpec | src/rules/LogRules.cpp:115-130 | The status is always set, to "Permissive" exactly when the state is Permissive. Only then is the 5-point finding filed. |
| LogRules.FinalizeSelinuxState | src/rules/LogRules.cpp:115-125 | `finalize` writes the status and files that finding. |
| LogRules.CustomSePolicySpec | src/rules/LogRules.cpp:135-147 | Either marker of a patched policy files the finding for 5 points. |
| LogRules.DmVeritySpec | src/rules/LogRules.cpp:152-164 | A dm-verity init error is filed under file systems for 4 points. |
| LogRules.KernelSpec | src/rules/LogRules.cpp:169-180 | The banner is filed, whole and for 2 points, exactly when no build fingerprint is known and the banner is custom. |
| LogRules.KernelScore | src/rules/LogRules.cpp:182-185 | A kernel finding scores 2. |
| LogRules.StockKernelNotReported | src/rules/LogRules.cpp:170-173 | A stock banner, in any letter case around the build host, is not reported unless it names a `-perf` kernel. |
| LogRules.HostIsLowerCase | src/rules/LogRules.cpp:173 | The stock host literal is already lower case, so the lower-cased comparison can match it. |
| LogRules.ProcessKernel | src/rules/LogRules.cpp:169-180 | `processLine` files the kernel finding. |
| LogRules.SuspiciousModulesSpec | src/rules/LogRules.cpp:187-201 | A module finding is filed exactly when the lsmod line contains that blacklisted name. |
| LogRules.ModuleScore | src/rules/LogRules.cpp:203-206 | A module finding scores 3. |
| LogRules.ProcessSuspiciousModules | src/rules/LogRules.cpp:192-201 | The blacklist loop files those findings. |
| LogRules.ResetpropSpec | src/rules/LogRules.cpp:211-223 | init running resetprop is filed as evasion for 2 points, and nothing else is. |
| LogRules.InitServiceSpec | src/rules/LogRules.cpp:228-240 | init starting a magisk or ksu service files the whole line for 4 points, and nothing else does. |
| LogRules.LinkErrorFiled | src/rules/LogRules.cpp:245-258 | A link failure files the whole line for 1 point. |
| LogRules.LinkErrorScore | src/rules/LogRules.cpp:260-261 | A link failure scores 1. |
| LogRules.CrashFiled | src/rules/LogRules.cpp:249-258 | Otherwise a debuggerd crash files the crash finding for 1 point. |
| LogRules.CrashScore | src/rules/LogRules.cpp:262 | The crash finding scores 1. |
| LogRules.LinkerQuiet | src/rules/LogRules.cpp:245-252 | Lines with neither pair of markers file nothing. |
| LogRules.UserSnippetKeepsInv | src/rules/LogRules.cpp:271-285 | The remembered pid stays empty or decimal, and it is the only field that changes. |
| LogRules.PidDumpThenZygote | src/rules/LogRules.cpp:271-281 | A dump header for pid N followed by the zygote command line files the dump finding for N (2 points) and forgets the pid. |
| LogRules.ZygoteDumpScore | src/rules/LogRules.cpp:287-289 | The dump finding scores 2. |
| LogRules.ProcessUserSnippet | src/rules/LogRules.cpp:271-285 | `processLine` performs that correlation step. |
| LogRules.ProcessZygoteForkSpam | src/rules/LogRules.cpp:295-299 | A fork line bumps the count. |
| LogRules.ForksCounted | src/rules/LogRules.cpp:295-299 | After a series of lines the count has grown by the number of fork lines, and nothing else has changed. |
| LogRules.ForkSpamOverLines | src/rules/LogRules.cpp:295-309 | The fork-spam finding is filed for 1 point, naming the count, exactly when more than 50 fork lines were seen. |
| LogRules.ForkSpamScore | src/rules/LogRules.cpp:311-313 | The fork-spam finding scores 1. |
| LogRules.FinalizeZygoteForkSpam | src/rules/LogRules.cpp:301-309 | `finalize` files that finding. |
| LogRules.KeymasterLogSpec | src/rules/LogRules.cpp:319-339 | Once confirmed, the rule does nothing. Otherwise it changes only the boot-state pair. The latch is set exactly when a new finding was filed, and the score grows by at most 12. |
| LogRules.KeymasterUnlockConfirms | src/rules/LogRules.cpp:322-330 | A fresh unlock line confirms "unlocked (keymaster)" for 6 points. |
| LogRules.KeymasterBothInOneLine | src/rules/LogRules.cpp:322-338 | A line with both confirmations files both, for 12 points, and keeps the attestation's boot state. |
| LogRules.ProcessKeymasterLog | src/rules/LogRules.cpp:319-339 | `processLine` performs that step. |
| LogRules.TrickyStoreLogSpec | src/rules/LogRules.cpp:351-361 | Any log line naming TrickyStore files the evasion finding for 5 points, and no other line does. |
| FileSystemRules.MountAlphaShadowed | src/rules/FileSystemRules.cpp:12-17 | The magisk_alpha branch never decides. Such a line is reported as a Magic Mount or a Magisk directory mount. |
| FileSystemRules.MountBinOverlayShadowed | src/rules/FileSystemRules.cpp:20-27 | The "/system/bin" + "tmpfs magisk" branch never decides, because the plain "tmpfs magisk" branch comes first. |
| FileSystemRules.MagicMountScore | src/rules/FileSystemRules.cpp:38 | A Magic Mount finding scores 6. |
| FileSystemRules.RemountFires | src/rules/FileSystemRules.cpp:52-60 | A remount finding is filed exactly for lines with "remount", "rw" and "/system" or " system ". |
| FileSystemRules.RemountScore | src/rules/FileSystemRules.cpp:62-64 | The remount finding scores 6. |
| FileSystemRules.MagiskDbScore | src/rules/FileSystemRules.cpp:90 | The Magisk database finding scores 7. |
| FileSystemRules.ApatchTraceScore | src/rules/FileSystemRules.cpp:89-91 | The APatch trace finding scores 6. |
| FileSystemRules.FridaConfigScore | src/rules/FileSystemRules.cpp:89-92 | The Frida config finding scores 6. |
| FileSystemRules.KsuNodeScore | src/rules/FileSystemRules.cpp:89-93 | The KernelSU node finding misses the three earlier tests and scores 6. |
| FileSystemRules.ModuleName | src/rules/FileSystemRules.cpp:101-106 | The name is the '/'-free text between the first modules directory and the next '/'. There is none when no '/' follows. |
| FileSystemRules.ModuleNameRoundTrip | src/rules/FileSystemRules.cpp:101-107 | A '/'-free name written after the modules directory is read back. |
| FileSystemRules.ModuleScore | src/rules/FileSystemRules.cpp:115-117 | A module finding scores 3. |
| FileSystemRules.ProcessMagiskModules | src/rules/FileSystemRules.cpp:100-113 | `processLine` files the module finding. |
| FileSystemRules.CustomRecoveryScore | src/rules/FileSystemRules.cpp:132-134 | The custom recovery finding scores 2. |
| FileSystemRules.LastToken | src/rules/FileSystemRules.cpp:144-145 | The last token is a blank-free suffix of the line, preceded by a blank unless it is the whole line. |
| FileSystemRules.FilePermissionsSpec | src/rules/FileSystemRules.cpp:142-153 | A set-uid listing is reported, whole and for 3 points, exactly when its path is not whitelisted. |
| FileSystemRules.ProcessFilePermissions | src/rules/FileSystemRules.cpp:142-153 | `processLine` files that finding. |
| FileSystemRules.SuspiciousBinarySpec | src/rules/FileSystemRules.cpp:163-177 | A binary finding is filed exactly when the line contains that listed path. |
| FileSystemRules.SuspiciousBinaryScore | src/rules/FileSystemRules.cpp:179-183 | Paths with "/su" or "/magisk" score 7. |
| FileSystemRules.BusyboxScore | src/rules/FileSystemRules.cpp:179-182 | The two busybox paths contain neither "/su" nor "/magisk", so their findings score 2. |
| FileSystemRules.ProcessSuspiciousBinary | src/rules/FileSystemRules.cpp:163-177 | The path loop files those findings. |
| FileSystemRules.InitRcSpec | src/rules/FileSystemRules.cpp:188-201 | The line is reported, whole and for 7 points, exactly when its trimmed form starts with a root service keyword. |
| FileSystemRules.InitRcCheckFiles | src/rules/FileSystemRules.cpp:194-199 | One keyword files the line exactly when the trimmed line starts with it. |
| FileSystemRules.InitRcEmissions | src/rules/FileSystemRules.cpp:194-199 | Every emission is that same 7-point finding. |
| FileSystemRules.InitRcScore | src/rules/FileSystemRules.cpp:203-205 | The init.rc finding scores 7. |
| FileSystemRules.CheckServiceKeyword | src/rules/FileSystemRules.cpp:194-199 | One iteration of the keyword loop. |
| FileSystemRules.ProcessInitRc | src/rules/FileSystemRules.cpp:188-201 | The keyword loop files what `InitRcSpec` describes. |
| ProcessRules.SeinfoValue | src/rules/ProcessRules.cpp:42-46 | The value is the space-free text right after the first `seinfo=`. |
| ProcessRules.PackageLineStepSpec | src/rules/ProcessRules.cpp:30-49 | The record parser keeps its invariant and changes only the two record fields. A header line flushes the open record and names the new package up to its ']'. `is_hidden` never influences what is filed. |
| ProcessRules.FlushSpec | src/rules/ProcessRules.cpp:9-28 | A flush files nothing for an empty record and otherwise closes it. It files the SELinux finding exactly when `seinfo` is non-empty and not untrusted_app. |
| ProcessRules.FacebookLiteScoresZero | src/rules/ProcessRules.cpp:55-58 | The com.facebook.lite finding adds nothing to the score. |
| ProcessRules.SeinfoScore | src/rules/ProcessRules.cpp:56 | A non-standard SELinux context scores 2. |
| ProcessRules.PackageManagerRule.ProcessCurrentPackage | src/rules/ProcessRules.cpp:9-28 | The flush files `FlushHits`, closes the record and updates `is_hidden`. |
| ProcessRules.PackageManagerRule.ProcessLine | src/rules/ProcessRules.cpp:30-49 | One line of the record parser, as `PackageLineStepSpec` describes. |
| ProcessRules.PackageManagerRule.Finalize | src/rules/ProcessRules.cpp:51-53 | `finalize` flushes the last record. |
| ProcessRules.RootUsageScore | src/rules/ProcessRules.cpp:81-83 | A root usage finding scores 2. |
| ProcessRules.AppRootUsageGate | src/rules/ProcessRules.cpp:67-71 | The rule files a finding exactly when the line contains "su" and "allow" or "grant" and the pattern matches somewhere in it. A line without those words is never reported. |
| ProcessRules.AppRootUsageFound | src/rules/ProcessRules.cpp:66-79 | On such a line, the group of the leftmost match (`pkg=` tried before `cmd=` at each position) is the app reported, for 2 points. |
| ProcessRules.AppRootUsageCmd | src/rules/ProcessRules.cpp:69-70 | A grant line opening with `cmd=APP ` reports APP through the second group. |
| ProcessRules.AppRootUsageSpec | src/rules/ProcessRules.cpp:66-79 | A grant line opening with `pkg=APP ` reports APP for 2 points. |
| ProcessRules.ProcessAppRootUsage | src/rules/ProcessRules.cpp:66-79 | `processLine` files that finding. |
| ProcessRules.TracerPidSpec | src/rules/ProcessRules.cpp:89-100 | A "TracerPid:" line whose value, after blanks, is anything but "0" is reported for 7 points. |
| ProcessRules.TracerPidBlanks | src/rules/ProcessRules.cpp:90-93 | Tabs and spaces before the value do not matter. |
| ProcessRules.ProcessTracerPid | src/rules/ProcessRules.cpp:89-100 | `processLine` files that finding. |
| ProcessRules.TrickyStoreProcessSpec | src/rules/ProcessRules.cpp:113-123 | Any line naming TrickyStore files the process finding for 6 points, and no other line does. |

## Left out

- Locating the report file in the extracted directory, measuring its size, and the two fatal errors there (src/analyzer/ReportAnalyzer.cpp:145-162) are file-system I/O. The model takes the report's lines and derives the size from them.
- The console warning and two-second sleep when the index is empty (src/analyzer/ReportAnalyzer.cpp:165-168) are console output and a clock.
- The progress callback is modelled as the sequence of values passed to it.
- Sections.IndexProgress: approximates the `float` computation by exact integer division, and can differ from it for large files. With size 2^24+1 and offset 2^24 the source's `float` arithmetic rounds the size to 2^24 and gives 20, while exact division gives 19. The bounds 0..20 hold either way.
- Analyzer.ScanProgress: approximates the `float` computation by exact integer division in the same way, so a value can differ by one for files above 2^24 bytes. The bounds 20..90 hold either way.
- Progress is not monotone over a run. Section indices are visited alphabetically, so the read position, and with it the section-pass value, can move backwards. The index pass and the section pass also de-duplicate separately. The model follows the code: `Analyzer.PipelineProgressParts` gives the exact sequence, and `Analyzer.PipelineProgress` proves the bounds and the closing 90, 95, 100.
- ProcessRules.ProcessAppRootUsage: src/rules/ProcessRules.cpp:69 calls `std::regex_search` on the temporary `std::string(line)` with a `std::smatch`. That overload is deleted since C++14 (LWG issue 2329), so the line as written does not compile. The model gives the evidently intended search on the line's text.
- `std::regex` in general is not modelled. Only the six patterns the rules use are matched, by hand, in `Patterns`.
- SystemPropertyRule, SuspiciousPropertiesRule and BootloaderStateRule are registered (src/analyzer/ReportAnalyzer.cpp:7, 26, 39), but their source is not part of this model. `Registry.Registered` lists the other 39 rules in registration order.
- `SPAM_THRESHOLD` is defined in a header that is not part of this model, so it is a parameter (`spamThreshold`).
- `std::stoi` overflow in ZygoteParentRule is modelled as a bound check at `IntMax`. A token above it records nothing, as the swallowed `out_of_range` does.
- A last line without a trailing newline is not modelled: every line of `raw` is ended by '\n'.
- The `recursive_directory_iterator` walk and the filesystem errors it may raise (src/analyzer/ReportAnalyzer.cpp:124-139) are not modelled. The `mountinfo` files found are a parameter (`proc`), in the walk's order.
- FrameworkRules.EmitLsposedHook: states that the hook finding is filed, not that it scores 2. The captured app name can itself contain an earlier score test's text (e.g. "LSPosed framework detected"), and then `getScore` gives that test's points.
- Characters are Dafny `char`s, not bytes, so multi-byte UTF-8 text such as the TrickyStore bootloader status counts one unit per character.
- `AnalysisContext::debugLogPtr` is not modelled: no rule in this model writes through it.
- The console UI, the browser bridge and `Application.cpp` are user-interface and embedding code, not the engine.

## Findings

| source | as written | input that shows it | evidently intended | confidence | as-written member | corrected member |
|---|---|---|---|---|---|---|
| src/analyzer/ReportAnalyzer.cpp:63-66 | The delimiter test requires `size() > 12`, so a 13-character line passes with its two 7-character markers sharing the middle space. Then `remove_prefix(7)` leaves 6 characters and `remove_suffix(7)` is undefined. | `------ ------` | Both markers present without overlapping: length at least 14. | not executed | Sections.DelimiterOverlap | Sections.DelimiterCorrected |
| src/analyzer/ReportAnalyzer.cpp:79-81 | After the `getline` loop the stream has failbit set. `seekg(0, std::ios::end)` does not clear it, so the `tellg()` that closes the last section returns -1. The section pass (line 190) tests `tellg() < -1`, which is false, so none of the last section's lines is read. | `------ A ------` then `x`: A is stored as (16, -1) instead of (16, 18), and `x` is never given to the rules. | Clear the stream before the seek, so the last section ends at end of file and its lines are read. | not executed | Analyzer.LastSectionSkipped | Analyzer.CorrectedLastSectionRead |
