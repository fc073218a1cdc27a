# kiro-cleaner in Dafny

A model of kiro-cleaner, a command-line tool that finds and removes the caches, logs, temporary files, history backups and old conversation transcripts the Kiro editor leaves on disk. The project also models the small validation and layout helpers of the tool's website.

The Go side is modelled module by module:

- `Detector` (internal/storage/detector.go) classifies each file by an ordered table of extension, name and path tests. It also sums directory sizes, validates a Kiro directory and picks the unit for a size.
- `Cleaner` (internal/cleaner/engine.go) is the rule engine. It covers condition matching, the first matching rule per file, the safety test, the preview with its warnings and recommendations, and the execution of the planned deletions.
- `ChatParser` and `ChatScanner` (internal/scanner/chat_parser.go and chat_scanner.go) parse transcripts and walk the workspace directories. They aggregate per-workspace and global conversation statistics, report progress, and list the cleanable conversations with their reasons.
- `FileScan` (internal/scanner/file_scanner.go) is the file scanner. It covers its progress counters and per-type maps, the storage statistics, the rule evaluation, the space savings and the recommendations.
- `Commands` (cmd/kiro-cleaner/commands.go) is the `clean` command. It merges the keep flags with the configuration, selects files and transcripts, tallies them per reason, and runs the delete loop and its outcome.
- `FileOps` (internal/utils/fileops.go) holds the duration and error helpers.
- `Backup` (internal/backup/manager.go) is the backup manager. It creates a backup, lists backups, and runs the age-ordered cleanup of old backups with its exchange sort.
- `Types` holds the shared records and the progress record the scanners update in place.

The website side has four modules, and a fifth that supports them:

- `DesignSystem` checks spacing and typography tokens and suggests nearest valid values.
- `Accessibility` covers keyboard navigation, ARIA attributes and reduced motion.
- `Contrast` parses hex colours and applies the WCAG contrast thresholds.
- `Responsive` builds breakpoint values and viewport classes.
- `Js` states the JavaScript `%` operator and `NaN` for them.

The following are parameters of the model, never performed:

- **Filesystem I/O.** Directory walks are sequences of `WalkEntry`, listings are sequences of entries, and `os.Stat` and file reads are `Option`s. Removal, `mkdir` and archive outcomes are sequences aligned with the items they concern.
- **The clock.** Every time-dependent operation takes `now`, in Unix milliseconds; `fileops` durations are in nanoseconds, as Go's `time.Duration`.
- **The browser.** The viewport width is `Option<int>` (`None` without a `window`). The reduced-motion preference is a `bool`. The relative luminance of a colour is a function.

Several behaviours are modelled exactly as the code has them:

- **Scans skip upper-case transcripts.** The scans accept a transcript only with the case-sensitive suffix `.chat`, while `IsChatFile` is case-insensitive (`ChatScanner.UpperCaseChatSkipped`).
- **Path tests are case-sensitive.** The classifier tests the raw path for `Cache`, `Crashpad` and `History` (`Detector.CacheDirectoryIsCaseSensitive`).
- **Negative spacing rounds toward zero.** A negative custom spacing that is not a multiple of 4 gets a suggestion rounded toward zero, even past a nearer multiple: -3 gets 0 (`DesignSystem.MinusThreeSuggestsZero`).
- **An empty list gives `NaN`.** With no items, an arrow key hands `NaN` to the callback (`Accessibility.EmptyListArrowIsNaN`).

## Model

| member | source | states |
|---|---|---|
| Types.Ordinal | pkg/types/types.go:6-18 | The categories take the positions 0 to 8 of their `iota` declaration, and only Database is 0. |
| Types.ScanProgress.constructor | internal/scanner/file_scanner.go:46-47 | A new progress record has zero counters, empty per-type maps, phase "files" and is not complete. |
| Types.MapAdd | internal/scanner/file_scanner.go:132-133 | `m[key] += n` adds `n` to the key, starting from zero, and leaves every other key unchanged. |
| Types.AdvancedCompose | internal/scanner/file_scanner.go:125-138 | Two successive counter advances add up to one advance. |
| Types.ProgressLogConcat | internal/scanner/file_scanner.go:58-65 | The progress reports of consecutive scan stretches form one report sequence. |
| Types.ProgressLogOrdered | internal/scanner/file_scanner.go:125-138 | In a report sequence, every snapshot carries the same completion flag and lies between the two end states, and the counters never decrease from one report to a later one. |
| Types.ProgressLogClose | internal/scanner/file_scanner.go:68-71 | Incomplete reports closed by a final complete report are well formed: counters never decrease and only the last report is complete. |
| Clock.DaysBefore | cmd/kiro-cleaner/commands.go:203-206 | The cutoff `now.AddDate(0, 0, -d)` lies exactly `d` days before `now`, so it is earlier for a positive `d`. |
| Strings.ToLower | internal/storage/detector.go:109-110 | Lower-casing keeps the length and maps each character through ASCII `Lower`. |
| Detector.ClassifyIsFirstMatch | internal/storage/detector.go:112-143 | The classifier gives the category of the first row of the ordered test table whose guard holds. |
| Detector.DatabaseExtensionsWin | internal/storage/detector.go:113-117 | Files with `.db`, `.sqlite`, `.sqlite3`, `.vscdb` or `.chat` extensions are Database, whatever the directory. |
| Detector.StructuredFiles | internal/storage/detector.go:118-126 | Structured-data files named config.json, settings.json or mcp.json are Config. Any other `.json`, `.xml`, `.yaml` or `.yml` file is Database when its lower-cased name contains "session", and Config otherwise. |
| Detector.LogExtension | internal/storage/detector.go:127-128 | A `.log` extension makes a Log, whatever the directory. |
| Detector.LogBeatsCacheDirectory | internal/storage/detector.go:127-132 | Precedence: a log under `Cache/` is a Log, not a Cache. |
| Detector.HistoryBeatsImage | internal/storage/detector.go:135-138 | Precedence: an image under `History` is a Backup. |
| Detector.UpperCaseExtension | internal/storage/detector.go:109-114 | Extensions compare case-insensitively: `DATA.DB` is a Database. |
| Detector.CacheDirectoryIsCaseSensitive | internal/storage/detector.go:131-132 | The raw-path test is case-sensitive: a file under `Cache/` is a Cache, one under `cache/` is Unknown. |
| Detector.DetectFileTypes | internal/storage/detector.go:97-149 | The walk callback fills the path map exactly as the specification map `TypeMap` over the walk. |
| Detector.TypeMapDomain | internal/storage/detector.go:100-107 | A path is classified iff some accessible non-directory entry of the walk has it. |
| Detector.TypeMapValue | internal/storage/detector.go:109-147 | The category recorded for an entry's path is the classifier's verdict on that entry. |
| Detector.GetDirectorySize | internal/storage/detector.go:152-168 | The directory size is the sum of the sizes of the accessible files of the walk. |
| Detector.FileSizeSumAppend | internal/storage/detector.go:152-168 | Directory size is additive over concatenated walks. |
| Detector.OnlyDirectoriesHaveNoSize | internal/storage/detector.go:160-163 | A walk with no files has size 0. |
| Detector.ValidateKiroPath | internal/storage/detector.go:171-190 | A directory is valid iff at least two distinct key entries are present. |
| Detector.AtLeastTwoPresent | internal/storage/detector.go:181-189 | Counting present keys reaches 2 iff two distinct positions are present. |
| Detector.AtLeastOnePresent | internal/storage/detector.go:181-189 | Counting present keys reaches 1 iff some position is present. |
| Detector.FormatSize | internal/storage/detector.go:193-209 | Below 1024 the text is exact bytes followed by " B". KB, MB and GB are chosen by the thresholds 1024, 1024² and 1024³. |
| Detector.FormatSizeExamples | internal/storage/detector.go:193-209 | The boundary values 0, 1023, 1024, 1 MiB and 1 GiB get the expected units. |
| Cleaner.FindSubstring | internal/cleaner/engine.go:175-182 | The loop over every start position finds `sub` iff it is a substring of `s`. |
| Cleaner.ContainsIsSubstring | internal/cleaner/engine.go:168-172 | The length guard and shortcuts of `contains` change nothing: it is exactly substring search, and the empty string is always contained. |
| Cleaner.ParseDuration | internal/cleaner/engine.go:153-165 | Exactly the four spellings 1h, 24h, 168h and 720h parse, each to a positive whole number of hours. |
| Cleaner.MatchesCondition | internal/cleaner/engine.go:119-150 | Only known kinds with their supported operators can match; age needs ">" and a parsable duration. |
| Cleaner.ActionFor | internal/cleaner/engine.go:86-105 | A matching rule yields a delete action on the file, with the file's size and the rule's name and description. |
| Cleaner.FirstRuleActionIsFirst | internal/cleaner/engine.go:86-105 | The action is None iff no enabled rule matches. Otherwise it comes from an enabled matching rule with no enabled matching rule before it. |
| Cleaner.EmptyRuleMatchesAll | internal/cleaner/engine.go:108-116 | An enabled rule without conditions matches every file. |
| Cleaner.SafeToDelete | internal/cleaner/engine.go:204-241 | Protected names and files under protected directories are never safe. Otherwise safety depends on the category (temp, cache, log, backup, database) exactly as the switch gives it. |
| Cleaner.NeverSafeCategories | internal/cleaner/engine.go:218-240 | Config, index, image and unknown files are never safe to delete. |
| Cleaner.ProtectedDirectoryIsUnsafe | internal/cleaner/engine.go:197-215 | A file whose path contains `/index/`, `/.migrations/` or `/lancedb/` is unsafe. |
| Cleaner.Recommendations | internal/cleaner/engine.go:244-268 | "Nothing to clean" appears iff there are no actions. The freed-space line appears iff the total exceeds 100 MB. The backup advice appears iff some target is unsafe. The batch advice appears iff there are over 100 actions. With actions, no other line appears, and the lines come in that order (freed space, backup, batch), each at most once. |
| Cleaner.PlanFor | internal/cleaner/engine.go:63-70 | A target gets at most one action: the first enabled matching rule's action, numbered by its 1-based position. |
| Cleaner.PlannedActionsMatch | internal/cleaner/engine.go:63-77 | Each planned action is its target's first-matching-rule action, with ID equal to the target's position. |
| Cleaner.PlannedIdsIncrease | internal/cleaner/engine.go:63-77 | Action IDs strictly increase and lie between 1 and the number of targets. |
| Cleaner.PlannedComplete | internal/cleaner/engine.go:63-77 | Every target that some enabled rule matches gets an action. |
| Cleaner.WarningsExactlyUnsafe | internal/cleaner/engine.go:71-75 | There are no warnings iff every action is safe, and there are never more warnings than actions. |
| Cleaner.CleanupEngine.constructor | internal/cleaner/engine.go:33-44 | A new engine has no rules. |
| Cleaner.CleanupEngine.SetRules | internal/cleaner/engine.go:47-50 | The rule list is replaced. |
| Cleaner.CleanupEngine.MatchesRule | internal/cleaner/engine.go:108-116 | Stopping at the first failing condition decides exactly "all conditions hold". |
| Cleaner.CleanupEngine.EvaluateFile | internal/cleaner/engine.go:86-105 | The result is the first enabled matching rule's action. |
| Cleaner.CleanupEngine.PlanTargets | internal/cleaner/engine.go:63-77 | The target loop yields the planned actions, their total size, the all-safe flag and one warning per unsafe action. |
| Cleaner.CleanupEngine.Preview | internal/cleaner/engine.go:53-83 | The preview holds the planned actions, their total, safety, warnings and recommendations. |
| Cleaner.DeleteFile | internal/cleaner/engine.go:360-368 | Removal succeeds iff the file was removed. A missing file is an error naming the path. |
| Cleaner.ExecuteAction | internal/cleaner/engine.go:350-357 | Only a successfully removed "delete" action succeeds. |
| Cleaner.Succeeded | internal/cleaner/engine.go:324-341 | Taken actions are planned delete actions whose removal succeeded. |
| Cleaner.Failures | internal/cleaner/engine.go:328-336 | Each failure is a non-recoverable "action_failed" error. |
| Cleaner.ExecutionPartition | internal/cleaner/engine.go:324-341 | Every action either succeeds or adds exactly one error, and there are no errors iff every removal succeeded. |
| Cleaner.FreedAtMostPlanned | internal/cleaner/engine.go:324-341 | Bytes freed never exceed the plan's total. |
| Cleaner.PerformActions | internal/cleaner/engine.go:324-346 | The loop gives the succeeded actions, the failures, the freed bytes, and success iff there were no errors. |
| Cleaner.CleanupEngine.Execute | internal/cleaner/engine.go:271-347 | A dry run changes nothing and reports success. Otherwise every planned action is attempted, and the backup ID is set only when there are actions and a backup was made. |
| ChatParser.CountMessages | internal/scanner/chat_parser.go:56-68 | The one-pass counters equal the number of messages with each of the roles human, bot and tool. |
| ChatParser.RoleCountsCover | internal/scanner/chat_parser.go:56-68 | The role counters never exceed the number of messages, and they equal it iff every message has a known role. |
| ChatParser.RoleCountSnoc | internal/scanner/chat_parser.go:57-66 | One more message adds one to its own role only. |
| ChatParser.AlternatingConversation | internal/scanner/chat_parser.go:56-68 | A concrete five-message conversation counts two human, two bot and one tool message. |
| ChatParser.TimeOf | internal/scanner/chat_parser.go:71-79 | A positive millisecond stamp converts to that instant. Otherwise the result is Go's zero time. |
| ChatParser.ExtractMetadata | internal/scanner/chat_parser.go:71-79 | The start and end times are the converted stamps. |
| ChatParser.ExtractMetadataOrder | internal/scanner/chat_parser.go:71-79 | Converted times are never before the zero time, and a later end stamp gives a later end time. |
| ChatParser.Record | internal/scanner/chat_parser.go:40-52 | The record keeps the path, size and modification time, and its role counters stay within the message count. |
| ChatParser.ParseChatFileFromBytes | internal/scanner/chat_parser.go:82-100 | Undecodable bytes are an error. Decoded bytes give the record for the given stat. |
| ChatParser.ParseChatFile | internal/scanner/chat_parser.go:21-53 | A stat failure, a read failure and a decode failure each give their own error. Success happens iff all three steps work. |
| ChatScanner.ScanSuffixIsStricter | internal/scanner/chat_scanner.go:176 | Every name the scans accept passes `IsChatFile`. |
| ChatScanner.UpperCaseChatSkipped | internal/scanner/chat_scanner.go:378-380 | `x.CHAT` passes `IsChatFile` but the scans skip it. |
| ChatScanner.IsChatFileExamples | internal/scanner/chat_scanner.go:378-380 | "" and "chat" are not transcripts, while ".chat" is. |
| ChatScanner.LastModifiedIsLatest | internal/scanner/chat_scanner.go:187-193 | The workspace's last modification is at least every transcript's, and it is some transcript's or the zero time. |
| ChatScanner.EntryStats | internal/scanner/chat_scanner.go:143-145 | A storage entry contributes at most one workspace, with a positive conversation count and the entry's name as its ID. |
| ChatScanner.KeptHaveConversations | internal/scanner/chat_scanner.go:143-145 | Every returned workspace has at least one conversation. |
| ChatScanner.KeptCoversAllChats | internal/scanner/chat_scanner.go:213-243 | The kept workspaces account for every parsed transcript's count, messages and bytes. |
| ChatScanner.RoleTotalsBound | internal/scanner/chat_scanner.go:246-288 | The global role counters never exceed the total number of messages. |
| ChatScanner.Reason | internal/scanner/chat_scanner.go:300-361 | With age 0 every transcript is "all". Otherwise a transcript is "old" iff it is older than the cutoff, "large" iff it is not old but over a positive size limit, and not cleanable iff it is neither. |
| ChatScanner.CleanableIn | internal/scanner/chat_scanner.go:320-362 | A workspace lists at most one conversation per entry. |
| ChatScanner.AllModeListsEverything | internal/scanner/chat_scanner.go:331-344 | With age 0 every stat-able transcript is listed, and no mode lists more. |
| ChatScanner.CleanableReasons | internal/scanner/chat_scanner.go:292-366 | Every listed conversation carries the reason its stat calls for. |
| ChatScanner.CleanableInExact | internal/scanner/chat_scanner.go:320-362 | A workspace lists exactly its qualifying transcripts (chat files that can be stat-ed and have a reason), in directory order, each once, with its joined path, size, time and reason. |
| ChatScanner.CleanableComplete | internal/scanner/chat_scanner.go:292-366 | Every qualifying transcript of every listed workspace appears in the cleanable list with its path, size, time and reason, whatever `ageDays` is. |
| ChatScanner.SumCleanableAppend | internal/scanner/chat_scanner.go:369-375 | Savings are additive over concatenated lists. |
| ChatScanner.AddChats | internal/scanner/chat_scanner.go:196-206 | After transcripts are recorded, the "chat" entry of a per-type map grows by their amount, and the map is unchanged when there were none. |
| ChatScanner.ChatScanner.constructor | internal/scanner/chat_scanner.go:21-25 | A new scanner has no storage directory yet. |
| ChatScanner.ChatScanner.SetBasePath | internal/scanner/chat_scanner.go:85-87 | The storage directory is replaced. |
| ChatScanner.ChatScanner.VisitChat | internal/scanner/chat_scanner.go:176-206 | One entry yields its parse outcome. A parsed transcript advances the progress by one file and its bytes under "chat", and is reported. |
| ChatScanner.ChatScanner.ScanChats | internal/scanner/chat_scanner.go:175-207 | The loop's counters summarize the parsed transcripts, and the progress reports form a non-decreasing log. |
| ChatScanner.ChatScanner.ScanSingleWorkspace | internal/scanner/chat_scanner.go:163-210 | An unreadable workspace gives no statistics. Otherwise the statistics aggregate the parsed transcripts. |
| ChatScanner.ChatScanner.VisitWorkspace | internal/scanner/chat_scanner.go:117-145 | One storage entry contributes exactly its kept workspace statistics. |
| ChatScanner.ChatScanner.ScanEntries | internal/scanner/chat_scanner.go:117-146 | The loop returns the kept workspaces and a progress log over all parsed transcripts. |
| ChatScanner.ChatScanner.ScanWorkspacesWithProgress | internal/scanner/chat_scanner.go:95-155 | An unreadable storage directory is an error. Otherwise the result is the kept workspaces, and the reports are well formed and end complete with the totals of the whole scan. |
| ChatScanner.ChatScanner.CountWorkspace | internal/scanner/chat_scanner.go:272-286 | The role counters of one workspace are summed over its parsed transcripts. |
| ChatScanner.ChatScanner.CountMessageTypes | internal/scanner/chat_scanner.go:246-288 | The second pass sums the role counters of every parsed transcript, and gives zeros for an unreadable directory. |
| ChatScanner.ChatScanner.SumWorkspaces | internal/scanner/chat_scanner.go:224-232 | The totals are the sums over the workspaces, and the latest activity is their maximum. |
| ChatScanner.ChatScanner.GetConversationStats | internal/scanner/chat_scanner.go:213-243 | The statistics account for every parsed transcript. The average is zero without conversations. The role totals are bounded by the messages. |
| ChatScanner.ChatScanner.CleanableInWorkspace | internal/scanner/chat_scanner.go:320-362 | The loop picks exactly the workspace's cleanable conversations. |
| ChatScanner.ChatScanner.FindCleanable | internal/scanner/chat_scanner.go:292-366 | An unreadable storage directory is an error. Otherwise the result is every cleanable conversation, workspace by workspace. |
| ChatScanner.ChatScanner.CalculateSpaceSavings | internal/scanner/chat_scanner.go:369-375 | The savings are the total size of the conversations, and 0 for none. |
| FileScan.TypeName | internal/scanner/file_scanner.go:147-166 | Every category has a progress key. "other" is exactly Image and Unknown, and "history" exactly Backup. |
| FileScan.DisplayName | internal/scanner/file_scanner.go:211-230 | Every category has a display name. "其他" is exactly Index and Unknown. |
| FileScan.TypeNameDistinguishes | internal/scanner/file_scanner.go:147-166 | Two categories share a progress key only when both fall under "other". |
| FileScan.DisplayNameDistinguishes | internal/scanner/file_scanner.go:211-230 | Two categories share a display name only when both fall under "其他". |
| FileScan.FileSumsAppend | internal/scanner/file_scanner.go:169-208 | Sizes, per-category counts and sizes, and old-log counts and sizes are additive over concatenated file lists. |
| FileScan.ByTotals | internal/scanner/file_scanner.go:125-138 | The per-key counters sum to the number of files, and the per-key sizes to their bytes. |
| FileScan.CategorySizesBound | internal/scanner/file_scanner.go:169-208 | The database, cache, log and temp bytes fit in the total, and old logs fit in the log bytes. |
| FileScan.CountPositive | internal/scanner/file_scanner.go:271-320 | A category count or old-log count is positive iff some file qualifies. |
| FileScan.PathFilesRecords | internal/scanner/file_scanner.go:110-120 | Every record is built from an accessible file of the walk. |
| FileScan.PathFilesSize | internal/scanner/file_scanner.go:82-144 | A root's records hold exactly the bytes `GetDirectorySize` counts for the same walk. |
| FileScan.MissingPathIsDatabase | internal/scanner/file_scanner.go:110-117 | A file the detector's map lacks is recorded as Database, the zero category. |
| FileScan.SameTreeCategory | internal/scanner/file_scanner.go:86-117 | When both walks see the same tree, a file is recorded with the classifier's category. |
| FileScan.AllFilesSize | internal/scanner/file_scanner.go:58-65 | Over all roots, the records hold exactly the bytes the walks report. |
| FileScan.ProgressMapsTotals | internal/scanner/file_scanner.go:125-138 | The progress maps, summed over their keys, account for every file and byte. |
| FileScan.GenerateRecommendations | internal/scanner/file_scanner.go:338-362 | A line appears iff its size strictly exceeds its threshold: temp 10 MB, log 50 MB, cache 100 MB, total 500 MB. Every line shows its own kind's formatted size and exceeds that kind's threshold, and lines come in that order. |
| FileScan.EvaluateRules | internal/scanner/file_scanner.go:271-320 | A temp rule appears iff there are temp files, an old-log rule iff there are logs older than seven days, each carrying its count, in that order. |
| FileScan.CalculateSpaceSavings | internal/scanner/file_scanner.go:323-335 | The savings are the temp bytes plus the old-log bytes. |
| FileScan.SavingsBound | internal/scanner/file_scanner.go:323-335 | The savings never exceed the bytes scanned. |
| FileScan.StatsConsistent | internal/scanner/file_scanner.go:169-208 | In the storage statistics the category bytes fit in the total, and the per-name counts sum to the number of files. |
| FileScan.FileScanner.constructor | internal/scanner/file_scanner.go:28-34 | A new scanner has found no roots. |
| FileScan.FileScanner.VisitEntry | internal/scanner/file_scanner.go:92-141 | An accessible directory advances the directory counter. An accessible file yields its record, counted under its progress key. With a callback, each visit reports a snapshot. |
| FileScan.FileScanner.WalkPath | internal/scanner/file_scanner.go:92-143 | The walk yields the records of the walk and tracked progress. |
| FileScan.FileScanner.ScanPath | internal/scanner/file_scanner.go:82-144 | A root yields its records, classified by the detector's map. |
| FileScan.FileScanner.ScanRoots | internal/scanner/file_scanner.go:58-65 | All roots' records are returned in order, with progress tracked across them. |
| FileScan.FileScanner.ScanWithProgress | internal/scanner/file_scanner.go:42-74 | The roots are remembered and all records returned. The counters and maps hold their totals, and with a callback the reports end complete. |
| FileScan.FileScanner.TallyFiles | internal/scanner/file_scanner.go:188-204 | The category sizes and per-name counts grow by exactly the root's files. |
| FileScan.FileScanner.GetStorageStats | internal/scanner/file_scanner.go:169-208 | The statistics are the walk totals and the per-category sums over the roots of the last scan. |
| Commands.Merge | cmd/kiro-cleaner/commands.go:148-162 | A keep flag not given on the command line takes the configuration's value. An unset `keep-recent` takes the configured value when it is positive, and otherwise keeps the flag's value, as does a set one. |
| Commands.MergeIdempotent | cmd/kiro-cleaner/commands.go:148-162 | Merging twice with the same configuration changes nothing more. |
| Commands.FileReason | cmd/kiro-cleaner/commands.go:215-237 | Temp and history files are always cleaned. Logs, cache and index are cleaned unless kept. Other categories are never cleaned. The reason is the category's key. |
| Commands.FileItem | cmd/kiro-cleaner/commands.go:209-238 | A file is selected iff it is not recent and its category is cleaned. |
| Commands.ChatItem | cmd/kiro-cleaner/commands.go:241-252 | A transcript is selected iff it is not recent, with reason "chat". |
| Commands.PlanMembership | cmd/kiro-cleaner/commands.go:203-252 | An item is planned iff some file contributes it, or some listed transcript does while transcripts are not kept. |
| Commands.NoChatsWhenKept | cmd/kiro-cleaner/commands.go:241-252 | Kept or unlisted transcripts are never planned. |
| Commands.PlanReasons | cmd/kiro-cleaner/commands.go:276-313 | Every planned reason is a key of the display order. |
| Commands.TallyTotals | cmd/kiro-cleaner/commands.go:276-313 | The shown counts and sizes add up to the items and their bytes. |
| Commands.PlanTallied | cmd/kiro-cleaner/commands.go:276-313 | The tally shown for a plan accounts for every planned item and byte. |
| Commands.RemovalPartition | cmd/kiro-cleaner/commands.go:338-350 | Every item is either removed or failed, and counts and bytes split accordingly. |
| Commands.RunOutcome | cmd/kiro-cleaner/commands.go:270-350 | The result is "Nothing to clean" iff the plan is empty. A dry run previews the plan's count, bytes and per-reason tally; without force or confirmation the run is cancelled; otherwise the cleaned count and bytes are those of the successful removals, the error count that of the failed ones, and the two counts add up to the plan. |
| Commands.CleanCommand.constructor | cmd/kiro-cleaner/commands.go:148-162 | The command starts with the given flags. |
| Commands.CleanCommand.MergeConfig | cmd/kiro-cleaner/commands.go:148-162 | The flags become their merge with the configuration. |
| Commands.CleanCommand.SelectFile | cmd/kiro-cleaner/commands.go:209-238 | One turn of the file loop contributes exactly the file's item. |
| Commands.CleanCommand.SelectFiles | cmd/kiro-cleaner/commands.go:209-238 | The file loop selects exactly the files' items and their bytes. |
| Commands.CleanCommand.SelectChats | cmd/kiro-cleaner/commands.go:241-252 | The transcript loop appends exactly the transcripts' items and bytes. |
| Commands.CleanCommand.SelectItems | cmd/kiro-cleaner/commands.go:203-252 | The selection is the plan, and the total size is its bytes. |
| Commands.CleanCommand.Tally | cmd/kiro-cleaner/commands.go:276-281 | The maps hold the count and bytes per reason. |
| Commands.CleanCommand.DeleteItems | cmd/kiro-cleaner/commands.go:338-350 | Cleaned and failed counts and bytes follow the removal outcomes, and they add up to the plan. |
| Commands.CleanCommand.Run | cmd/kiro-cleaner/commands.go:148-350 | The flags are merged, and the outcome is that of the merged plan. The scanned files and the chat listing are parameters; in the command they come from `FileScan.FileScanner.ScanWithProgress` and `ChatScanner.ChatScanner.FindCleanable` with ages 0 and 0. |
| FileOps.DurationParts | internal/utils/fileops.go:98-109 | Seconds are used below a minute, minutes below an hour, hours below a day, then days. Each count is truncated toward zero. |
| FileOps.FormatDuration | internal/utils/fileops.go:98-109 | The text ends with the unit word `DurationParts` picks, and what precedes it is a decimal numeral whose value is the truncated count. |
| FileOps.NinetySeconds | internal/utils/fileops.go:101-103 | 90 s prints as one minute. |
| FileOps.ParseDuration | internal/utils/fileops.go:112-130 | Only the table's spellings parse, to positive whole hours. Anything else is an error naming the input. |
| FileOps.DaysAreHours | internal/utils/fileops.go:112-130 | 7d equals 168h, and 30d equals 720h. |
| FileOps.SevenDaysFormat | internal/utils/fileops.go:98-130 | Parsing then formatting 7d prints "7天". |
| FileOps.AgreesWithRuleParser | internal/utils/fileops.go:112-130 | The engine's parser accepts a subset of these spellings with the same value. They differ exactly on 7d and 30d. |
| FileOps.IsPermissionError | internal/utils/fileops.go:141-146 | True iff the error is non-nil and a permission error. |
| FileOps.IsNotExistError | internal/utils/fileops.go:149-154 | True iff the error is non-nil and a not-exist error. |
| FileOps.IsFileExistsError | internal/utils/fileops.go:157-162 | True iff the error is non-nil and an exists error. |
| FileOps.WrapError | internal/utils/fileops.go:165-170 | nil stays nil. Otherwise a new error prefixes the context. |
| FileOps.FormatError | internal/utils/fileops.go:173-178 | nil gives "无错误". Otherwise the error's text. |
| FileOps.IsRecoverableError | internal/utils/fileops.go:181-188 | Recoverable iff nil, a permission error or a not-exist error. |
| FileOps.KindsExclusive | internal/utils/fileops.go:141-162 | The three kind tests are mutually exclusive. |
| FileOps.WrapLosesKind | internal/utils/fileops.go:165-188 | A wrapped error is never recoverable, yet its text keeps the original. |
| Backup.NewBackupManager | internal/backup/manager.go:21-31 | The backup directory is the configured path, or `~/.kiro-cleaner/backups` when none is configured. |
| Backup.CreateBackup | internal/backup/manager.go:34-67 | Each error path (disabled, mkdir, create, add) gives its own message. Success happens iff every step works, and the ID is "backup_" followed by the timestamp. |
| Backup.ZipNameIsSuffix | internal/backup/manager.go:184-186 | For a plain name, a `.zip` extension is exactly a `.zip` suffix. |
| Backup.EntryBackupShape | internal/backup/manager.go:179-204 | Exactly the stat-able non-directory `.zip` entries are backups, recorded with their name, path, size and time. |
| Backup.ListResult | internal/backup/manager.go:167-210 | A missing directory lists as empty. Any other read error is returned. Otherwise the backups of the listing are returned. |
| Backup.BackupsOfFrom | internal/backup/manager.go:179-204 | A backup is listed iff some entry of the listing stands for it. |
| Backup.ListBackups | internal/backup/manager.go:167-210 | The listing loop gives `ListResult`. |
| Backup.BackupsBounded | internal/backup/manager.go:167-210 | There are never more backups than entries, and a missing directory lists none. |
| Backup.ExchangeSort | internal/backup/manager.go:228-234 | The in-place exchange sort leaves the array oldest first and a permutation of its input. |
| Backup.DeleteOldest | internal/backup/manager.go:237-243 | Deletion proceeds in sorted order and stops at the first failure, which it reports. |
| Backup.CleanupOldBackups | internal/backup/manager.go:213-245 | It does nothing unless automatic cleanup is on, passes on listing errors, and removes nothing while there are at most `MaxBackups`. Otherwise it deletes the surplus, oldest first, unless a removal fails: every removal before the failure succeeded, and the error reports the first failure. |
| Backup.RemovedAreOldest | internal/backup/manager.go:228-243 | A removed prefix of the sorted listing is no newer than any remaining backup. |
| DesignSystem.IsValidSpacing | website/src/utils/designSystemValidation.ts:38-40 | Valid iff the value is a number whose remainder by 4 is zero. |
| DesignSystem.NegativeSpacing | website/src/utils/designSystemValidation.ts:38-40 | -4 and -8 are valid, and -6 is not. |
| DesignSystem.SpacingVerdict | website/src/utils/designSystemValidation.ts:57-70 | A token passes iff its value is valid. A failure names the token and its value. |
| DesignSystem.TypographyVerdict | website/src/utils/designSystemValidation.ts:106-118 | Only tokens with a line height are checked. A token passes iff its line height is at least 1.5, with the matching message otherwise. |
| DesignSystem.ReportPartition | website/src/utils/designSystemValidation.ts:47-127 | Every checked key is valid or invalid. There is one error per invalid key. The report is valid iff nothing failed. |
| DesignSystem.PassedMembership | website/src/utils/designSystemValidation.ts:63-64 | A key is listed valid iff some entry with it passed. |
| DesignSystem.FailedMembership | website/src/utils/designSystemValidation.ts:65-69 | A key is listed invalid iff some entry with it failed. |
| DesignSystem.Collect | website/src/utils/designSystemValidation.ts:53-78 | The loop builds the report of its verdicts. |
| DesignSystem.ValidateSpacingSystem | website/src/utils/designSystemValidation.ts:47-79 | The report is that of the spacing verdicts. |
| DesignSystem.ValidateTypographySystem | website/src/utils/designSystemValidation.ts:96-127 | The report is that of the typography verdicts. |
| DesignSystem.SpacingAllChecked | website/src/utils/designSystemValidation.ts:57-71 | Every spacing token is checked, in table order. |
| DesignSystem.SpacingReportValid | website/src/utils/designSystemValidation.ts:47-79 | A spacing table validates iff every token is a multiple of 4px. |
| DesignSystem.SpacingTableValid | website/src/theme/tokens/spacing.ts:8-25 | The shipped spacing table validates. |
| DesignSystem.TypographyTableVacuous | website/src/theme/tokens/typography.ts:8-80 | The shipped typography table checks nothing and is trivially valid. |
| DesignSystem.ValidateDesignSystem | website/src/utils/designSystemValidation.ts:218-231 | The report combines both reports and is valid iff both are. |
| DesignSystem.Suggestion | website/src/utils/designSystemValidation.ts:148-153 | The suggestion is a multiple of 4. A non-negative value is rounded to within 2, downwards iff its remainder is below 2. A negative value is rounded toward zero. |
| DesignSystem.ValidateCustomSpacing | website/src/utils/designSystemValidation.ts:136-160 | A value passes iff it is a multiple of 4. Otherwise the result carries the error text and the suggestion. |
| DesignSystem.SuggestionNearest | website/src/utils/designSystemValidation.ts:148-153 | For a non-negative value the suggestion is a nearest multiple of 4. |
| DesignSystem.MinusThreeSuggestsZero | website/src/utils/designSystemValidation.ts:148-153 | -3 is rounded to 0, past the nearer -4. |
| DesignSystem.ValidateCustomLineHeight | website/src/utils/designSystemValidation.ts:169-184 | A line height passes iff it is at least 1.5. There is never a suggestion, and otherwise the error message is given. |
| DesignSystem.ValidSpacingValues | website/src/utils/designSystemValidation.ts:191-195 | A value is listed iff some token parses to it and it is a multiple of 4. |
| DesignSystem.ValidSpacingValuesSnoc | website/src/utils/designSystemValidation.ts:191-195 | The list keeps table order and multiplicity: one more token appends its value exactly when it is valid. |
| DesignSystem.ClosestIndex | website/src/utils/designSystemValidation.ts:203-211 | The `reduce` picks a value with the least distance to the target, and the first such in ties; that first nearest position is the only one. |
| DesignSystem.FindClosestValidSpacing | website/src/utils/designSystemValidation.ts:203-211 | With no valid values `reduce` throws. Otherwise the result is a valid value nearest the target, and it is the value at the first nearest position, as `reduce` keeps the earlier of two equally near values. |
| DesignSystem.TenIsClosestToEight | website/src/utils/designSystemValidation.ts:203-211 | A tie between 8 and 12 for 10 goes to 8, which comes first. |
| Js.Rem | website/src/utils/accessibility.ts:193 | JavaScript `%` takes the dividend's sign, and `x % 0` is `NaN`. |
| Accessibility.HandleArrowKeys | website/src/utils/accessibility.ts:183-209 | Down and Right go to the next index and Up and Left to the previous, both modulo the count. Home and End go to the ends. Other keys do nothing. |
| Accessibility.NextWraps | website/src/utils/accessibility.ts:190-194 | From the last position, Down wraps to the first. |
| Accessibility.PreviousWraps | website/src/utils/accessibility.ts:195-199 | From the first position, Up wraps to the last. |
| Accessibility.ArrowsStayInRange | website/src/utils/accessibility.ts:183-209 | In a non-empty list, every handled key lands on a valid position. |
| Accessibility.DownThenUp | website/src/utils/accessibility.ts:190-199 | Down then Up returns to the start, and so does Up then Down. |
| Accessibility.EmptyListArrowIsNaN | website/src/utils/accessibility.ts:193 | With no items, an arrow key yields `NaN`. |
| Accessibility.AnimationAriaProps | website/src/utils/accessibility.ts:71-75 | The label is kept. `aria-live` is "polite" iff animating and "off" otherwise. `aria-busy` is the animating flag. |
| Accessibility.AccessibleAnimation | website/src/utils/accessibility.ts:35-50 | Under reduced motion the result is the fallback styles with transition and animation set to "none". Otherwise it is the animation styles. |
| Accessibility.ReducedMotionIgnoresAnimation | website/src/utils/accessibility.ts:35-50 | Under reduced motion the animation styles do not matter, and the override is idempotent. |
| Contrast.HexToRgb | website/src/theme/contrast.ts:18-27 | A colour parses iff it is six hex digits after an optional `#`. The three pairs are read in base 16. |
| Contrast.HexRoundTrip | website/src/theme/contrast.ts:18-27 | Writing a colour as `#rrggbb` and parsing it gives it back, with or without `#`. |
| Contrast.CaseInsensitive | website/src/theme/contrast.ts:19 | Lower-casing a colour does not change its parse. |
| Contrast.ContrastRatio | website/src/theme/contrast.ts:33-49 | The ratio is 1 for an unparsable colour, and always between 1 and 21. |
| Contrast.ContrastSymmetric | website/src/theme/contrast.ts:33-49 | The ratio does not depend on the colours' order. |
| Contrast.MeetsWcagAA | website/src/theme/contrast.ts:57-59 | AA requires 3 for large text and 4.5 otherwise. |
| Contrast.MeetsWcagAAA | website/src/theme/contrast.ts:67-69 | AAA requires 4.5 for large text and 7 otherwise. |
| Contrast.WcagLevelsNest | website/src/theme/contrast.ts:57-69 | AAA implies AA, a normal-text pass implies a large-text pass, and large-text AAA equals normal-text AA. |
| Contrast.InvalidColourFails | website/src/theme/contrast.ts:33-59 | An unparsable colour never passes AA. |
| Responsive.ResponsiveShadow | website/src/utils/responsive.ts:19-25 | Desktop uses the given shadow. Mobile uses the given mobile shadow, or `elevation.sm` when it is absent or empty. |
| Responsive.DefaultMobileSpacing | website/src/utils/responsive.ts:35-41 | The default is the floor of three quarters of the desktop value, at least 1. |
| Responsive.ResponsiveSpacing | website/src/utils/responsive.ts:35-41 | An explicit mobile spacing, 0 included, is used as given. Otherwise the default is used. |
| Responsive.DefaultSpacingBounds | website/src/utils/responsive.ts:35-41 | The default is at least 1. It never exceeds a positive desktop value, and is strictly below it from 4 on. |
| Responsive.DefaultSpacingExamples | website/src/utils/responsive.ts:35-41 | 16 gives 12, 4 gives 3, and 1 and 0 give 1. |
| Responsive.IsMobile | website/src/utils/responsive.ts:78-81 | Mobile iff there is a window narrower than 600. |
| Responsive.IsTablet | website/src/utils/responsive.ts:86-89 | Tablet iff the width is 600 or more and below 960. |
| Responsive.IsDesktop | website/src/utils/responsive.ts:94-97 | Desktop iff the width is at least 960. |
| Responsive.ViewportClassesPartition | website/src/utils/responsive.ts:67-97 | In a browser exactly one class holds. Without a window none does. |
| Responsive.ViewportClassesMonotone | website/src/utils/responsive.ts:67-97 | Widening the viewport never moves it to a smaller class. |

## Left out

- Path discovery (`FindKiroPaths`, `FindKiroAgentPath`, the storage directory lookup): the roots and directories are parameters, and a discovery error is not modelled.
- Reading files and decoding JSON: a transcript's decoded contents are a parameter (`None` when decoding fails).
- The Kiro process check, the confirmation prompt, spinners, progress bars and all printed text of the command layer: the confirmation answer is a parameter and only the outcome is modelled.
- Writing zip archives (`addFileToZip`), `RestoreBackup`, `extractFile` and `Rollback`: each file operation's outcome is a parameter of `Backup.CreateBackup`.
- Directory walks never fail part-way: an inaccessible entry is skipped, as the callbacks do, but a walk that aborts with an error is not modelled.
- Progress snapshots hold the scalar fields only; the per-type maps, which Go shares between snapshots, are tracked on the progress record itself.
- Floating point: `FormatSize` text for KB, MB and GB (only the unit is modelled), `RuleMatch.Confidence`, non-integer JavaScript numbers, and the relative luminance of a colour, which is a parameter of `Contrast.ContrastRatio`.
- `parseInt`/`parseFloat` of token strings: each token carries its parsed value.
- `getResponsiveFontSize`, `getResponsiveBorderRadius`, `trapFocus`, `announceToScreenReader`, `generateValidationReport` and `validatePaletteContrast`: not part of this model.
- `Analyze` and `GetDetailedStats` of the file scanner: not part of this model.
- Unicode case folding: `strings.ToLower` and the `i` regular-expression flag are modelled for ASCII letters only.
- 64-bit overflow: sizes, counts and times are unbounded integers.
- Backup.CleanupOldBackups: requires a non-negative `MaxBackups` when automatic cleanup is on. With a negative value Go's deletion loop first removes every listed backup, oldest first, until one removal fails, and only then indexes past the end of the listing and panics; so that case destroys every backup as well as crashing, and the model does not describe it.
- Cleaner.MatchesCondition: requires each condition's value to have the type its kind asserts, because a failed type assertion panics in the source.
- ChatScanner.ChatScanner.GetConversationStats: the average is a real quotient, not a `float64`.
- The detector's classifier (internal/storage/detector.go:112-143) has no branch for index files, so no file is ever classified Index. Its directory tests `Cache`, `Crashpad` and `History` are case-sensitive on the raw path.
- `Cleaner.DeleteFile` treats a file that is already missing as a failure, as the code does.
- Strings.Join: no `filepath.Clean` is applied, and the separator is always `/`. The storage and backup directories are assumed clean (no trailing `/`, no `.` or `..` elements), so the paths recorded in `CleanableConversation.path`, the workspace statistics and `BackupInfo.path` match Go's only for such directories; for `"/s/"` Go records `/s/ws` where the model records `/s//ws`, and for `"."` Go records `ws` where the model records `./ws`.
- Clock.DaysBefore: `now.AddDate(0, 0, -d)` steps local calendar days, so across a daylight-saving change Go's cutoff differs by an hour from the model's `now - d * 86400000`. `Commands.KeptAsRecent` and `ChatScanner.Cutoff` use the same millisecond convention and share this difference.
- FileOps.DurationParts: Go computes each count through `float64` (`int(d.Seconds())`, `int(d.Minutes())`, `int(d.Hours())`, `int(d.Hours() / 24)`), while the model divides exact integers. A duration a few nanoseconds below a whole number of days, from about 171 days on, rounds up in Go (1000 days less 1 ns gives 1000 days) where the model gives one day fewer; the truncation the model states is exact integer truncation, not Go's float result.
- FileOps.FormatDuration: inherits the `float64` rounding difference of `FileOps.DurationParts` near day boundaries.
- Default arguments of the website helpers are not modelled: `context` of `DesignSystem.ValidateCustomSpacing` (default 'custom spacing'), `isAnimating` of `Accessibility.AnimationAriaProps` (default false) and `fallbackStyles` of `Accessibility.AccessibleAnimation` (default `{}`) and `isLargeText` of `Contrast.MeetsWcagAA` and `Contrast.MeetsWcagAAA` (default false) are always passed explicitly.
- Second passes see the same tree as the first: `FileScan.FileScanner.GetStorageStats` reuses the walk of the scan, and `ChatScanner.ChatScanner.GetConversationStats` and `ChatScanner.ChatScanner.CountMessageTypes` reuse the listing they are given, where Go walks or reads the directories again and could see files that changed in between.
