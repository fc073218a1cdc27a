/** The file scanner (internal/scanner/file_scanner.go): it walks every storage
    root, builds one record per file with the category the detector gave it,
    keeps the progress counters, and derives storage statistics, summary
    rules, the reclaimable size and advice from the records.

    Every walk callback in the scanner and in the detector swallows the error
    it is handed, so a walk never fails: the model has no failing root. */
module FileScan {
  import opened Strings
  import opened Clock
  import opened Types
  import opened Detector
  import Cleaner

  // ---------------------------------------------------------------------------
  // Category names
  // ---------------------------------------------------------------------------

  /** The keys of the progress maps. */
  const TypeNames: seq<string> := ["database", "config", "cache", "log", "temp", "index", "history", "other"]

  /** The keys of `StorageStats.fileCounts`. */
  const DisplayNames: seq<string> := ["数据库", "配置", "缓存", "日志", "临时", "图片", "备份", "其他"]

  /** No key is listed twice. */
  predicate Distinct(keys: seq<string>) {
    forall i, j :: 0 <= i < j < |keys| ==> keys[i] != keys[j]
  }

  /** `fileTypeToString`: the key under which the progress maps count a category. */
  function TypeName(t: FileType): (r: string)
    ensures r in TypeNames
    ensures r == "other" <==> t == TypeImage || t == TypeUnknown
    ensures r == "history" <==> t == TypeBackup
  {
    match t
    case TypeLog => "log"
    case TypeCache => "cache"
    case TypeTemp => "temp"
    case TypeIndex => "index"
    case TypeBackup => "history"
    case TypeDatabase => "database"
    case TypeConfig => "config"
    case _ => "other"
  }

  /** `getFileTypeName`: the display name under which storage statistics count a category. */
  function DisplayName(t: FileType): (r: string)
    ensures r in DisplayNames
    ensures r == "其他" <==> t == TypeIndex || t == TypeUnknown
  {
    match t
    case TypeDatabase => "数据库"
    case TypeConfig => "配置"
    case TypeCache => "缓存"
    case TypeLog => "日志"
    case TypeTemp => "临时"
    case TypeImage => "图片"
    case TypeBackup => "备份"
    case _ => "其他"
  }

  /** Apart from "other", each progress key names exactly one category. */
  lemma TypeNameDistinguishes(a: FileType, b: FileType)
    requires a != b && TypeName(a) == TypeName(b)
    ensures a in {TypeImage, TypeUnknown} && b in {TypeImage, TypeUnknown}
  {
  }

  /** Apart from "其他", each display name names exactly one category; the
      index category, which has its own progress key, has no display name of
      its own, while images, which have none among the progress keys, do. */
  lemma DisplayNameDistinguishes(a: FileType, b: FileType)
    requires a != b && DisplayName(a) == DisplayName(b)
    ensures a in {TypeIndex, TypeUnknown} && b in {TypeIndex, TypeUnknown}
  {
  }

  lemma KeyListsDistinct()
    ensures Distinct(TypeNames) && Distinct(DisplayNames)
  {
  }

  // ---------------------------------------------------------------------------
  // Sums and counts over records
  // ---------------------------------------------------------------------------

  /** The value of `m[k]` in Go: zero for a missing key. */
  function Get(m: map<string, nat>, k: string): nat {
    if k in m then m[k] else 0
  }

  /** The sum of the values of `m` under the keys `keys`. */
  function SumOver(keys: seq<string>, m: map<string, nat>): nat
    decreases |keys|
  {
    if keys == [] then 0 else Get(m, keys[0]) + SumOver(keys[1..], m)
  }

  function FilesSize(files: seq<FileInfo>): nat
    decreases |files|
  {
    if files == [] then 0 else FilesSize(files[..|files| - 1]) + files[|files| - 1].size
  }

  /** The number of records of category `t`. */
  function TypeCount(files: seq<FileInfo>, t: FileType): nat
    decreases |files|
  {
    if files == [] then 0
    else TypeCount(files[..|files| - 1], t) + (if files[|files| - 1].fileType == t then 1 else 0)
  }

  /** The bytes held by records of category `t`. */
  function SizeOfType(files: seq<FileInfo>, t: FileType): nat
    decreases |files|
  {
    if files == [] then 0
    else SizeOfType(files[..|files| - 1], t) + (if files[|files| - 1].fileType == t then files[|files| - 1].size else 0)
  }

  /** The age past which a log file counts as old: seven days. */
  const OldLogAge: int := 7 * MsPerDay

  /** A log file modified more than seven days before `now`. */
  predicate IsOldLog(f: FileInfo, now: int) {
    f.fileType == TypeLog && now - f.modified > OldLogAge
  }

  function OldLogCount(files: seq<FileInfo>, now: int): nat
    decreases |files|
  {
    if files == [] then 0
    else OldLogCount(files[..|files| - 1], now) + (if IsOldLog(files[|files| - 1], now) then 1 else 0)
  }

  function OldLogSize(files: seq<FileInfo>, now: int): nat
    decreases |files|
  {
    if files == [] then 0
    else OldLogSize(files[..|files| - 1], now) + (if IsOldLog(files[|files| - 1], now) then files[|files| - 1].size else 0)
  }

  /** The per-key counters after each record added 1 under `key` of its category. */
  function CountBy(m: map<string, nat>, files: seq<FileInfo>, key: FileType -> string): map<string, nat>
    decreases |files|
  {
    if files == [] then m
    else MapAdd(CountBy(m, files[..|files| - 1], key), key(files[|files| - 1].fileType), 1)
  }

  /** The per-key byte totals after each record added its size under `key` of its category. */
  function SizeBy(m: map<string, nat>, files: seq<FileInfo>, key: FileType -> string): map<string, nat>
    decreases |files|
  {
    if files == [] then m
    else MapAdd(SizeBy(m, files[..|files| - 1], key), key(files[|files| - 1].fileType), files[|files| - 1].size)
  }

  /** The sums over a concatenation of record lists add up. */
  lemma {:induction false} FileSumsAppend(a: seq<FileInfo>, b: seq<FileInfo>, t: FileType, now: int)
    ensures FilesSize(a + b) == FilesSize(a) + FilesSize(b)
    ensures TypeCount(a + b, t) == TypeCount(a, t) + TypeCount(b, t)
    ensures SizeOfType(a + b, t) == SizeOfType(a, t) + SizeOfType(b, t)
    ensures OldLogCount(a + b, now) == OldLogCount(a, now) + OldLogCount(b, now)
    ensures OldLogSize(a + b, now) == OldLogSize(a, now) + OldLogSize(b, now)
    decreases |b|
  {
    if b == [] {
      assert a + b == a;
    } else {
      assert (a + b)[..|a + b| - 1] == a + b[..|b| - 1];
      FileSumsAppend(a, b[..|b| - 1], t, now);
    }
  }

  /** Folding a concatenation into the maps is folding one part after the other. */
  lemma {:induction false} ByAppend(m: map<string, nat>, a: seq<FileInfo>, b: seq<FileInfo>, key: FileType -> string)
    ensures CountBy(m, a + b, key) == CountBy(CountBy(m, a, key), b, key)
    ensures SizeBy(m, a + b, key) == SizeBy(SizeBy(m, a, key), b, key)
    decreases |b|
  {
    if b == [] {
      assert a + b == a;
    } else {
      assert (a + b)[..|a + b| - 1] == a + b[..|b| - 1];
      ByAppend(m, a, b[..|b| - 1], key);
    }
  }

  /** Adding to a key that is not listed leaves the sum over the list alone. */
  lemma {:induction false} SumOverOther(keys: seq<string>, m: map<string, nat>, k: string, n: nat)
    requires k !in keys
    ensures SumOver(keys, MapAdd(m, k, n)) == SumOver(keys, m)
    decreases |keys|
  {
    if keys != [] {
      SumOverOther(keys[1..], m, k, n);
    }
  }

  /** Adding `n` under a listed key adds `n` to the sum over a list without repeats. */
  lemma {:induction false} SumOverMapAdd(keys: seq<string>, m: map<string, nat>, k: string, n: nat)
    requires Distinct(keys) && k in keys
    ensures SumOver(keys, MapAdd(m, k, n)) == SumOver(keys, m) + n
    decreases |keys|
  {
    if keys[0] == k {
      assert k !in keys[1..] by {
        forall j | 0 <= j < |keys[1..]| ensures keys[1..][j] != k {
          assert keys[1..][j] == keys[j + 1];
        }
      }
      SumOverOther(keys[1..], m, k, n);
    } else {
      assert Distinct(keys[1..]) by {
        forall i, j | 0 <= i < j < |keys[1..]| ensures keys[1..][i] != keys[1..][j] {
          assert keys[1..][i] == keys[i + 1] && keys[1..][j] == keys[j + 1];
        }
      }
      SumOverMapAdd(keys[1..], m, k, n);
    }
  }

  /** When every key the records fall under is listed, the counters over the
      list grow by the number of records and the byte totals by their size. */
  lemma {:induction false} ByTotals(keys: seq<string>, m: map<string, nat>, files: seq<FileInfo>, key: FileType -> string)
    requires Distinct(keys)
    requires forall f :: f in files ==> key(f.fileType) in keys
    ensures SumOver(keys, CountBy(m, files, key)) == SumOver(keys, m) + |files|
    ensures SumOver(keys, SizeBy(m, files, key)) == SumOver(keys, m) + FilesSize(files)
    decreases |files|
  {
    if files != [] {
      var pre := files[..|files| - 1];
      var f := files[|files| - 1];
      assert f in files;
      assert forall g :: g in pre ==> g in files;
      ByTotals(keys, m, pre, key);
      SumOverMapAdd(keys, CountBy(m, pre, key), key(f.fileType), 1);
      SumOverMapAdd(keys, SizeBy(m, pre, key), key(f.fileType), f.size);
    }
  }

  /** Temp files, old logs and the database, cache and log categories are
      disjoint parts of the records' bytes. */
  lemma {:induction false} CategorySizesBound(files: seq<FileInfo>, now: int)
    ensures SizeOfType(files, TypeDatabase) + SizeOfType(files, TypeCache) +
            SizeOfType(files, TypeLog) + SizeOfType(files, TypeTemp) <= FilesSize(files)
    ensures OldLogSize(files, now) <= SizeOfType(files, TypeLog)
    decreases |files|
  {
    if files != [] {
      CategorySizesBound(files[..|files| - 1], now);
    }
  }

  /** A count is positive iff some record qualifies. */
  lemma {:induction false} CountPositive(files: seq<FileInfo>, t: FileType, now: int)
    ensures TypeCount(files, t) > 0 <==> exists i :: 0 <= i < |files| && files[i].fileType == t
    ensures OldLogCount(files, now) > 0 <==> exists i :: 0 <= i < |files| && IsOldLog(files[i], now)
    decreases |files|
  {
    if files != [] {
      var pre := files[..|files| - 1];
      CountPositive(pre, t, now);
      assert forall i :: 0 <= i < |pre| ==> pre[i] == files[i];
    }
  }

  // ---------------------------------------------------------------------------
  // File records
  // ---------------------------------------------------------------------------

  /** One storage root: `typeWalk` is what the walk inside `DetectFileTypes`
      reports and `walk` what the scanner's own walk reports. The two walk the
      same tree one after the other, so they agree unless the tree changes. */
  datatype Root = Root(path: string, typeWalk: seq<WalkEntry>, walk: seq<WalkEntry>)

  /** The record built for a file entry: its category is looked up by path in
      the detector's map, a path missing there gets the zero category. */
  function Record(types: map<string, FileType>, e: WalkEntry): FileInfo {
    FileInfo(e.path, e.name, e.size, e.modTime,
             if e.path in types then types[e.path] else TypeDatabase, e.size == 0, false)
  }

  /** The records an entry contributes: one for an accessible file. */
  function EntryFiles(types: map<string, FileType>, e: WalkEntry): seq<FileInfo> {
    if Classified(e) then [Record(types, e)] else []
  }

  /** The directory visits an entry contributes. */
  function EntryDirs(e: WalkEntry): nat {
    if e.accessible && e.isDir then 1 else 0
  }

  /** The records of a walk, in walk order. */
  function PathFiles(types: map<string, FileType>, walk: seq<WalkEntry>): seq<FileInfo>
    decreases |walk|
  {
    if walk == [] then [] else PathFiles(types, walk[..|walk| - 1]) + EntryFiles(types, walk[|walk| - 1])
  }

  /** The accessible directories of a walk. */
  function DirCount(walk: seq<WalkEntry>): nat
    decreases |walk|
  {
    if walk == [] then 0 else DirCount(walk[..|walk| - 1]) + EntryDirs(walk[|walk| - 1])
  }

  function RootFiles(r: Root): seq<FileInfo> {
    PathFiles(TypeMap(r.typeWalk), r.walk)
  }

  /** The records of all roots, root after root. */
  function AllFiles(roots: seq<Root>): seq<FileInfo>
    decreases |roots|
  {
    if roots == [] then [] else AllFiles(roots[..|roots| - 1]) + RootFiles(roots[|roots| - 1])
  }

  function AllDirs(roots: seq<Root>): nat
    decreases |roots|
  {
    if roots == [] then 0 else AllDirs(roots[..|roots| - 1]) + DirCount(roots[|roots| - 1].walk)
  }

  /** The sizes `GetDirectorySize` reports for all roots, added up. */
  function WalksSize(roots: seq<Root>): nat
    decreases |roots|
  {
    if roots == [] then 0 else WalksSize(roots[..|roots| - 1]) + FileSizeSum(roots[|roots| - 1].walk)
  }

  /** Every record is built from an accessible file of the walk; it is empty
      iff its size is zero and it is never marked corrupted. */
  lemma {:induction false} PathFilesRecords(types: map<string, FileType>, walk: seq<WalkEntry>)
    ensures forall f :: f in PathFiles(types, walk) ==>
      (f.isEmpty <==> f.size == 0) && !f.isCorrupted &&
      exists i :: 0 <= i < |walk| && Classified(walk[i]) && f == Record(types, walk[i])
    decreases |walk|
  {
    if walk != [] {
      var pre := walk[..|walk| - 1];
      PathFilesRecords(types, pre);
      assert forall i :: 0 <= i < |pre| ==> pre[i] == walk[i];
    }
  }

  /** The records hold exactly the bytes `GetDirectorySize` counts for the same
      walk, and there is one record per accessible file. */
  lemma {:induction false} PathFilesSize(types: map<string, FileType>, walk: seq<WalkEntry>)
    ensures FilesSize(PathFiles(types, walk)) == FileSizeSum(walk)
    ensures |PathFiles(types, walk)| + DirCount(walk) <= |walk|
    decreases |walk|
  {
    if walk != [] {
      var pre := walk[..|walk| - 1];
      var e := walk[|walk| - 1];
      PathFilesSize(types, pre);
      FileSumsAppend(PathFiles(types, pre), EntryFiles(types, e), TypeDatabase, 0);
    }
  }

  /** A file whose path the detector's walk did not classify is recorded in
      the zero category, the database category. */
  lemma MissingPathIsDatabase(typeWalk: seq<WalkEntry>, e: WalkEntry)
    requires forall i :: 0 <= i < |typeWalk| && Classified(typeWalk[i]) ==> typeWalk[i].path != e.path
    ensures Record(TypeMap(typeWalk), e).fileType == TypeDatabase
  {
    TypeMapDomain(typeWalk, e.path);
  }

  /** When both walks report the same tree, a file (whose path occurs once)
      is recorded in the category the classifier gives it. */
  lemma SameTreeCategory(walk: seq<WalkEntry>, i: int)
    requires 0 <= i < |walk| && Classified(walk[i])
    requires forall j :: i < j < |walk| ==> walk[j].path != walk[i].path
    ensures Record(TypeMap(walk), walk[i]).fileType == Classify(walk[i].path, walk[i].name)
  {
    TypeMapValue(walk, i);
  }

  /** Over all roots, the records hold exactly the bytes the roots' walks report. */
  lemma {:induction false} AllFilesSize(roots: seq<Root>)
    ensures FilesSize(AllFiles(roots)) == WalksSize(roots)
    decreases |roots|
  {
    if roots != [] {
      var pre := roots[..|roots| - 1];
      var r := roots[|roots| - 1];
      AllFilesSize(pre);
      PathFilesSize(TypeMap(r.typeWalk), r.walk);
      FileSumsAppend(AllFiles(pre), RootFiles(r), TypeDatabase, 0);
    }
  }

  // ---------------------------------------------------------------------------
  // Progress
  // ---------------------------------------------------------------------------

  /** The progress values `snap`, `counts` and `sizes` after the records
      `files` and `dirs` directory visits were scanned from `start` (with maps
      `counts0` and `sizes0`): the counters advanced by their number and bytes,
      each record counted under its progress key, and, when a callback is
      given (`emit`), one snapshot per visit, none going backwards. */
  predicate ScanTracked(start: Snapshot, counts0: map<string, nat>, sizes0: map<string, nat>,
                        snap: Snapshot, counts: map<string, nat>, sizes: map<string, nat>,
                        files: seq<FileInfo>, dirs: nat, snaps: seq<Snapshot>, emit: bool)
  {
    Advanced(start, snap, |files|, dirs, FilesSize(files)) &&
    counts == CountBy(counts0, files, TypeName) &&
    sizes == SizeBy(sizes0, files, TypeName) &&
    if emit then |snaps| == |files| + dirs && ProgressLog(start, snaps, snap, start.isComplete)
    else snaps == []
  }

  /** Scanning nothing is tracked. */
  lemma ScanTrackedEmpty(start: Snapshot, counts0: map<string, nat>, sizes0: map<string, nat>,
                         files: seq<FileInfo>, snaps: seq<Snapshot>, emit: bool)
    requires files == [] && snaps == []
    ensures ScanTracked(start, counts0, sizes0, start, counts0, sizes0, files, 0, snaps, emit)
  {
    if emit {
      ProgressLogEmpty(start, start, start.isComplete);
    }
  }

  /** One visit (a directory, or the one record `files`) reported by at most
      one snapshot is tracked. */
  lemma VisitTracked(start: Snapshot, end: Snapshot, counts0: map<string, nat>, sizes0: map<string, nat>,
                     files: seq<FileInfo>, dirs: nat, snaps: seq<Snapshot>, emit: bool)
    requires |files| + dirs == 1
    requires Advanced(start, end, |files|, dirs, FilesSize(files))
    requires emit ==> snaps == [end]
    requires !emit ==> snaps == []
    ensures ScanTracked(start, counts0, sizes0, end, CountBy(counts0, files, TypeName), SizeBy(sizes0, files, TypeName),
                        files, dirs, snaps, emit)
  {
    if emit {
      ProgressLogEmpty(end, end, start.isComplete);
      assert ProgressLog(start, snaps, end, start.isComplete);
    }
  }

  /** The maps after counting one record. */
  lemma OneFileCounted(counts0: map<string, nat>, sizes0: map<string, nat>, info: FileInfo, files: seq<FileInfo>)
    requires files == [info]
    ensures CountBy(counts0, files, TypeName) == MapAdd(counts0, TypeName(info.fileType), 1)
    ensures SizeBy(sizes0, files, TypeName) == MapAdd(sizes0, TypeName(info.fileType), info.size)
    ensures FilesSize(files) == info.size
  {
    assert files[..0] == [];
  }

  /** Two successive tracked scans make one. */
  lemma ScanTrackedStep(start: Snapshot, counts0: map<string, nat>, sizes0: map<string, nat>,
                        mid: Snapshot, midCounts: map<string, nat>, midSizes: map<string, nat>,
                        files1: seq<FileInfo>, dirs1: nat, snaps1: seq<Snapshot>,
                        end: Snapshot, endCounts: map<string, nat>, endSizes: map<string, nat>,
                        files2: seq<FileInfo>, dirs2: nat, snaps2: seq<Snapshot>, emit: bool)
    requires ScanTracked(start, counts0, sizes0, mid, midCounts, midSizes, files1, dirs1, snaps1, emit)
    requires ScanTracked(mid, midCounts, midSizes, end, endCounts, endSizes, files2, dirs2, snaps2, emit)
    ensures ScanTracked(start, counts0, sizes0, end, endCounts, endSizes, files1 + files2, dirs1 + dirs2, snaps1 + snaps2, emit)
  {
    FileSumsAppend(files1, files2, TypeDatabase, 0);
    AdvancedCompose(start, mid, end, |files1|, dirs1, FilesSize(files1), |files2|, dirs2, FilesSize(files2));
    ByAppend(counts0, files1, files2, TypeName);
    ByAppend(sizes0, files1, files2, TypeName);
    if emit {
      ProgressLogConcat(start, snaps1, mid, snaps2, end, start.isComplete);
    }
  }

  /** The per-key progress maps account for every record: their values over
      the progress keys add up to the number of records and to their bytes,
      exactly as the scalar counters do. */
  lemma ProgressMapsTotals(files: seq<FileInfo>)
    ensures SumOver(TypeNames, CountBy(map[], files, TypeName)) == |files|
    ensures SumOver(TypeNames, SizeBy(map[], files, TypeName)) == FilesSize(files)
  {
    KeyListsDistinct();
    ByTotals(TypeNames, map[], files, TypeName);
    SumOverEmpty(TypeNames);
  }

  lemma {:induction false} SumOverEmpty(keys: seq<string>)
    ensures SumOver(keys, map[]) == 0
    decreases |keys|
  {
    if keys != [] {
      SumOverEmpty(keys[1..]);
    }
  }

  // ---------------------------------------------------------------------------
  // Rules, savings and advice
  // ---------------------------------------------------------------------------

  /** `RuleMatch`; `confidence` is a float in the source. */
  datatype RuleMatch = RuleMatch(rule: Cleaner.CleanupRule, fileInfo: FileInfo, matched: bool, confidence: real)

  /** The zero `FileInfo` a summary rule carries. */
  const NoFile: FileInfo := FileInfo("", "", 0, ZeroTime, TypeDatabase, false, false)

  /** The summary rule for `n` temp files. */
  function TempRuleMatch(n: nat): RuleMatch {
    RuleMatch(Cleaner.CleanupRule("临时文件清理", "清理" + NatToString(n) + "个临时文件", 1, false, []), NoFile, true, 0.9)
  }

  /** The summary rule for `n` old log files. */
  function OldLogRuleMatch(n: nat): RuleMatch {
    RuleMatch(Cleaner.CleanupRule("旧日志清理", "清理" + NatToString(n) + "个7天前的日志文件", 2, false, []), NoFile, true, 0.8)
  }

  /** The kinds of advice, in the order they are given. */
  datatype AdviceKind = TempAdvice | LogAdvice | CacheAdvice | TotalAdvice

  function Rank(k: AdviceKind): nat {
    match k
    case TempAdvice => 0
    case LogAdvice => 1
    case CacheAdvice => 2
    case TotalAdvice => 3
  }

  /** One line of advice: its kind fixes the sentence around the size. */
  datatype Advice = Advice(kind: AdviceKind, size: SizeText)

  /** The sentence of an advice line, before and after the formatted size. */
  function AdviceText(k: AdviceKind): (string, string) {
    match k
    case TempAdvice => ("发现 ", " 的临时文件，建议清理")
    case LogAdvice => ("发现 ", " 的日志文件，建议清理旧日志")
    case CacheAdvice => ("发现 ", " 的缓存文件，建议清理")
    case TotalAdvice => ("总存储使用 ", "，建议进行定期清理")
  }

  /** The size an advice line reports, and the threshold it must exceed. */
  function AdviceSize(stats: StorageStats, k: AdviceKind): int {
    match k
    case TempAdvice => stats.tempSize
    case LogAdvice => stats.logSize
    case CacheAdvice => stats.cacheSize
    case TotalAdvice => stats.totalSize
  }

  function AdviceThreshold(k: AdviceKind): int {
    match k
    case TempAdvice => 10 * MB
    case LogAdvice => 50 * MB
    case CacheAdvice => 100 * MB
    case TotalAdvice => 500 * MB
  }

  /** `generateRecommendations`: one line per size that strictly exceeds its
      threshold (temp 10 MB, log 50 MB, cache 100 MB, total 500 MB), in that order. */
  function GenerateRecommendations(stats: StorageStats): (r: seq<Advice>)
    ensures Advice(TempAdvice, FormatSize(stats.tempSize)) in r <==> stats.tempSize > 10 * MB
    ensures Advice(LogAdvice, FormatSize(stats.logSize)) in r <==> stats.logSize > 50 * MB
    ensures Advice(CacheAdvice, FormatSize(stats.cacheSize)) in r <==> stats.cacheSize > 100 * MB
    ensures Advice(TotalAdvice, FormatSize(stats.totalSize)) in r <==> stats.totalSize > 500 * MB
    ensures forall i, j :: 0 <= i < j < |r| ==> Rank(r[i].kind) < Rank(r[j].kind)
    ensures forall a :: a in r ==>
      a.size == FormatSize(AdviceSize(stats, a.kind)) && AdviceSize(stats, a.kind) > AdviceThreshold(a.kind)
  {
    (if stats.tempSize > 10 * MB then [Advice(TempAdvice, FormatSize(stats.tempSize))] else []) +
    (if stats.logSize > 50 * MB then [Advice(LogAdvice, FormatSize(stats.logSize))] else []) +
    (if stats.cacheSize > 100 * MB then [Advice(CacheAdvice, FormatSize(stats.cacheSize))] else []) +
    (if stats.totalSize > 500 * MB then [Advice(TotalAdvice, FormatSize(stats.totalSize))] else [])
  }

  /** `evaluateRules`: counts the temp files and the old log files, then
      reports the temp rule when there is a temp file and the old-log rule
      when there is an old log, in that order. */
  method EvaluateRules(files: seq<FileInfo>, now: int) returns (matches: seq<RuleMatch>)
    ensures |matches| == (if TypeCount(files, TypeTemp) > 0 then 1 else 0) + (if OldLogCount(files, now) > 0 then 1 else 0)
    ensures TypeCount(files, TypeTemp) > 0 ==> matches[0] == TempRuleMatch(TypeCount(files, TypeTemp))
    ensures OldLogCount(files, now) > 0 ==> matches[|matches| - 1] == OldLogRuleMatch(OldLogCount(files, now))
  {
    var tempFileCount, oldLogFileCount := 0, 0;
    var i := 0;
    while i < |files|
      invariant 0 <= i <= |files|
      invariant tempFileCount == TypeCount(files[..i], TypeTemp)
      invariant oldLogFileCount == OldLogCount(files[..i], now)
    {
      assert files[..i + 1][..i] == files[..i];
      if files[i].fileType == TypeTemp {
        tempFileCount := tempFileCount + 1;
      }
      if files[i].fileType == TypeLog && now - files[i].modified > OldLogAge {
        oldLogFileCount := oldLogFileCount + 1;
      }
      i := i + 1;
    }
    assert files[..i] == files;
    matches := [];
    if tempFileCount > 0 {
      matches := matches + [TempRuleMatch(tempFileCount)];
    }
    if oldLogFileCount > 0 {
      matches := matches + [OldLogRuleMatch(oldLogFileCount)];
    }
  }

  /** `calculateSpaceSavings`: the bytes of the temp files and of the log
      files older than seven days. */
  method CalculateSpaceSavings(files: seq<FileInfo>, now: int) returns (savings: nat)
    ensures savings == SizeOfType(files, TypeTemp) + OldLogSize(files, now)
  {
    savings := 0;
    var i := 0;
    while i < |files|
      invariant 0 <= i <= |files|
      invariant savings == SizeOfType(files[..i], TypeTemp) + OldLogSize(files[..i], now)
    {
      assert files[..i + 1][..i] == files[..i];
      var f := files[i];
      if f.fileType == TypeTemp || (f.fileType == TypeLog && now - f.modified > OldLogAge) {
        savings := savings + f.size;
      }
      i := i + 1;
    }
    assert files[..i] == files;
  }

  /** The savings never exceed the bytes scanned. */
  lemma SavingsBound(files: seq<FileInfo>, now: int)
    ensures SizeOfType(files, TypeTemp) + OldLogSize(files, now) <= FilesSize(files)
  {
    CategorySizesBound(files, now);
  }

  // ---------------------------------------------------------------------------
  // The scanner
  // ---------------------------------------------------------------------------

  /** The storage statistics `GetStorageStats` reports for `roots`: the walk
      totals, the bytes per category and the number of records per display
      name; the last cleanup stays at the zero time. */
  predicate StatsOf(roots: seq<Root>, s: StorageStats) {
    var files := AllFiles(roots);
    s.totalSize == WalksSize(roots) &&
    s.dbSize == SizeOfType(files, TypeDatabase) &&
    s.cacheSize == SizeOfType(files, TypeCache) &&
    s.logSize == SizeOfType(files, TypeLog) &&
    s.tempSize == SizeOfType(files, TypeTemp) &&
    s.fileCounts == CountBy(map[], files, DisplayName) &&
    s.lastCleanup == ZeroTime
  }

  /** Statistics of the roots are consistent: the category bytes fit in the
      total and the per-name counts add up to the number of records. */
  lemma StatsConsistent(roots: seq<Root>, s: StorageStats)
    requires StatsOf(roots, s)
    ensures s.dbSize + s.cacheSize + s.logSize + s.tempSize <= s.totalSize
    ensures SumOver(DisplayNames, s.fileCounts) == |AllFiles(roots)|
  {
    var files := AllFiles(roots);
    CategorySizesBound(files, 0);
    AllFilesSize(roots);
    KeyListsDistinct();
    ByTotals(DisplayNames, map[], files, DisplayName);
    SumOverEmpty(DisplayNames);
  }

  class FileScanner {
    /** The roots found by the last scan (`kiroPaths`). */
    var roots: seq<Root>

    /** `NewFileScanner`: no roots found yet. */
    constructor ()
      ensures roots == []
    {
      roots := [];
    }

    /** One callback of the scanner's walk: an accessible directory advances
        the directory counter; an accessible file yields its record and
        advances the file counters and its progress key; each reports a
        snapshot when a callback is given. Entries the walk reports with an
        error are skipped. */
    method VisitEntry(types: map<string, FileType>, e: WalkEntry, progress: ScanProgress?, hasCallback: bool)
      returns (file: seq<FileInfo>, snaps: seq<Snapshot>)
      modifies progress
      ensures file == EntryFiles(types, e)
      ensures progress == null ==> snaps == []
      ensures progress != null ==>
        ScanTracked(old(progress.Snap()), old(progress.typeCounts), old(progress.typeSizes),
                    progress.Snap(), progress.typeCounts, progress.typeSizes,
                    file, EntryDirs(e), snaps, hasCallback)
    {
      file, snaps := [], [];
      if progress != null {
        ScanTrackedEmpty(progress.Snap(), progress.typeCounts, progress.typeSizes, file, snaps, hasCallback);
      }
      if !e.accessible {
        return;
      }
      ghost var start := if progress != null then progress.Snap() else NoSnapshot;
      if e.isDir {
        if progress != null {
          progress.scannedDirs := progress.scannedDirs + 1;
          progress.currentPath := e.path;
          if hasCallback {
            snaps := [progress.Snap()];
          }
          VisitTracked(start, progress.Snap(), progress.typeCounts, progress.typeSizes, file, 1, snaps, hasCallback);
        }
        return;
      }
      var fileType := if e.path in types then types[e.path] else TypeDatabase;
      var info := FileInfo(e.path, e.name, e.size, e.modTime, fileType, e.size == 0, false);
      file := [info];
      if progress != null {
        ghost var counts0, sizes0 := progress.typeCounts, progress.typeSizes;
        progress.scannedFiles := progress.scannedFiles + 1;
        progress.totalSize := progress.totalSize + e.size;
        progress.currentPath := e.path;
        var typeName := TypeName(fileType);
        progress.typeCounts := MapAdd(progress.typeCounts, typeName, 1);
        progress.typeSizes := MapAdd(progress.typeSizes, typeName, e.size);
        if hasCallback {
          snaps := [progress.Snap()];
        }
        OneFileCounted(counts0, sizes0, info, file);
        VisitTracked(start, progress.Snap(), counts0, sizes0, file, 0, snaps, hasCallback);
      }
    }

    /** `scanPathWithProgress`: classifies the root's files, then walks it,
        collecting the records in walk order and advancing `progress` (when
        present) per visit. */
    method ScanPath(root: Root, progress: ScanProgress?, hasCallback: bool)
      returns (files: seq<FileInfo>, snaps: seq<Snapshot>)
      modifies progress
      ensures files == RootFiles(root)
      ensures progress == null ==> snaps == []
      ensures progress != null ==>
        ScanTracked(old(progress.Snap()), old(progress.typeCounts), old(progress.typeSizes),
                    progress.Snap(), progress.typeCounts, progress.typeSizes,
                    files, DirCount(root.walk), snaps, hasCallback)
    {
      var types := DetectFileTypes(root.typeWalk);
      files, snaps := WalkPath(types, root.walk, progress, hasCallback);
    }

    /** The walk of `scanPathWithProgress` with the detector's map `types`. */
    method WalkPath(types: map<string, FileType>, walk: seq<WalkEntry>, progress: ScanProgress?, hasCallback: bool)
      returns (files: seq<FileInfo>, snaps: seq<Snapshot>)
      modifies progress
      ensures files == PathFiles(types, walk)
      ensures progress == null ==> snaps == []
      ensures progress != null ==>
        ScanTracked(old(progress.Snap()), old(progress.typeCounts), old(progress.typeSizes),
                    progress.Snap(), progress.typeCounts, progress.typeSizes,
                    files, DirCount(walk), snaps, hasCallback)
    {
      files, snaps := [], [];
      ghost var start := if progress != null then progress.Snap() else NoSnapshot;
      ghost var counts0 := if progress != null then progress.typeCounts else map[];
      ghost var sizes0 := if progress != null then progress.typeSizes else map[];
      ScanTrackedEmpty(start, counts0, sizes0, files, snaps, hasCallback);
      var i := 0;
      while i < |walk|
        invariant 0 <= i <= |walk|
        invariant files == PathFiles(types, walk[..i])
        invariant progress == null ==> snaps == []
        invariant progress != null ==>
          ScanTracked(start, counts0, sizes0, progress.Snap(), progress.typeCounts, progress.typeSizes,
                      files, DirCount(walk[..i]), snaps, hasCallback)
      {
        assert walk[..i + 1][..i] == walk[..i];
        var file, more;
        if progress != null {
          ghost var mid, midCounts, midSizes := progress.Snap(), progress.typeCounts, progress.typeSizes;
          file, more := VisitEntry(types, walk[i], progress, hasCallback);
          ScanTrackedStep(start, counts0, sizes0, mid, midCounts, midSizes, files, DirCount(walk[..i]), snaps,
                          progress.Snap(), progress.typeCounts, progress.typeSizes, file, EntryDirs(walk[i]), more, hasCallback);
        } else {
          file, more := VisitEntry(types, walk[i], null, hasCallback);
        }
        files := files + file;
        snaps := snaps + more;
        i := i + 1;
      }
      assert walk[..i] == walk;
    }

    /** The root loop of `ScanWithProgress`, over one shared progress record. */
    method ScanRoots(paths: seq<Root>, progress: ScanProgress, hasCallback: bool)
      returns (files: seq<FileInfo>, snaps: seq<Snapshot>)
      modifies progress
      ensures files == AllFiles(paths)
      ensures ScanTracked(old(progress.Snap()), old(progress.typeCounts), old(progress.typeSizes),
                          progress.Snap(), progress.typeCounts, progress.typeSizes,
                          files, AllDirs(paths), snaps, hasCallback)
    {
      files, snaps := [], [];
      ghost var start := progress.Snap();
      ghost var counts0 := progress.typeCounts;
      ghost var sizes0 := progress.typeSizes;
      ScanTrackedEmpty(start, counts0, sizes0, files, snaps, hasCallback);
      var i := 0;
      while i < |paths|
        invariant 0 <= i <= |paths|
        invariant files == AllFiles(paths[..i])
        invariant ScanTracked(start, counts0, sizes0, progress.Snap(), progress.typeCounts, progress.typeSizes,
                              files, AllDirs(paths[..i]), snaps, hasCallback)
      {
        assert paths[..i + 1][..i] == paths[..i];
        ghost var mid := progress.Snap();
        ghost var midCounts := progress.typeCounts;
        ghost var midSizes := progress.typeSizes;
        var more, moreSnaps := ScanPath(paths[i], progress, hasCallback);
        ScanTrackedStep(start, counts0, sizes0, mid, midCounts, midSizes, files, AllDirs(paths[..i]), snaps,
                        progress.Snap(), progress.typeCounts, progress.typeSizes, more, DirCount(paths[i].walk), moreSnaps, hasCallback);
        files := files + more;
        snaps := snaps + moreSnaps;
        i := i + 1;
      }
      assert paths[..i] == paths;
    }

    /** `ScanWithProgress`: `paths` are the roots path discovery found. The
        records of all roots, root after root; `progress` is the record whose
        copies the callback receives (`hasCallback`), and `snaps` are those
        copies in order: one per visit, none going backwards, and a final one,
        marked complete, holding the totals of the whole scan. */
    method ScanWithProgress(paths: seq<Root>, hasCallback: bool)
      returns (files: seq<FileInfo>, snaps: seq<Snapshot>, ghost progress: ScanProgress)
      modifies this
      ensures roots == paths
      ensures files == AllFiles(paths)
      ensures fresh(progress)
      ensures progress.scannedFiles == |files| && progress.scannedDirs == AllDirs(paths)
      ensures progress.totalSize == FilesSize(files) && progress.phase == "files"
      ensures progress.typeCounts == CountBy(map[], files, TypeName)
      ensures progress.typeSizes == SizeBy(map[], files, TypeName)
      ensures progress.isComplete <==> hasCallback
      ensures !hasCallback ==> snaps == []
      ensures hasCallback ==>
        WellFormedProgress(snaps) && |snaps| == |files| + AllDirs(paths) + 1 &&
        snaps[|snaps| - 1] == progress.Snap()
    {
      var p := new ScanProgress();
      p.phase := "files";
      roots := paths;
      files, snaps := ScanRoots(paths, p, hasCallback);
      if hasCallback {
        ghost var end := p.Snap();
        p.isComplete := true;
        ProgressLogClose(Snapshot(0, 0, 0, "", "files", false), snaps, end, p.Snap());
        snaps := snaps + [p.Snap()];
      }
      progress := p;
    }

    /** Adds the records of one root to the statistics. */
    method TallyFiles(stats: StorageStats, files: seq<FileInfo>) returns (r: StorageStats)
      ensures r.totalSize == stats.totalSize && r.lastCleanup == stats.lastCleanup
      ensures r.dbSize == stats.dbSize + SizeOfType(files, TypeDatabase)
      ensures r.cacheSize == stats.cacheSize + SizeOfType(files, TypeCache)
      ensures r.logSize == stats.logSize + SizeOfType(files, TypeLog)
      ensures r.tempSize == stats.tempSize + SizeOfType(files, TypeTemp)
      ensures r.fileCounts == CountBy(stats.fileCounts, files, DisplayName)
    {
      r := stats;
      var i := 0;
      while i < |files|
        invariant 0 <= i <= |files|
        invariant r.totalSize == stats.totalSize && r.lastCleanup == stats.lastCleanup
        invariant r.dbSize == stats.dbSize + SizeOfType(files[..i], TypeDatabase)
        invariant r.cacheSize == stats.cacheSize + SizeOfType(files[..i], TypeCache)
        invariant r.logSize == stats.logSize + SizeOfType(files[..i], TypeLog)
        invariant r.tempSize == stats.tempSize + SizeOfType(files[..i], TypeTemp)
        invariant r.fileCounts == CountBy(stats.fileCounts, files[..i], DisplayName)
      {
        assert files[..i + 1][..i] == files[..i];
        var f := files[i];
        match f.fileType {
          case TypeDatabase => r := r.(dbSize := r.dbSize + f.size);
          case TypeCache => r := r.(cacheSize := r.cacheSize + f.size);
          case TypeLog => r := r.(logSize := r.logSize + f.size);
          case TypeTemp => r := r.(tempSize := r.tempSize + f.size);
          case _ =>
        }
        r := r.(fileCounts := MapAdd(r.fileCounts, DisplayName(f.fileType), 1));
        i := i + 1;
      }
      assert files[..i] == files;
    }

    /** `GetStorageStats`: over the roots of the last scan, the walk totals,
        the bytes of the database, cache, log and temp records, and the
        number of records per display name. */
    method GetStorageStats() returns (stats: StorageStats)
      ensures StatsOf(roots, stats)
    {
      stats := StorageStats(0, 0, 0, 0, 0, map[], ZeroTime);
      var i := 0;
      while i < |roots|
        invariant 0 <= i <= |roots|
        invariant StatsOf(roots[..i], stats)
      {
        var r := roots[i];
        assert roots[..i + 1][..i] == roots[..i];
        var size := GetDirectorySize(r.walk);
        stats := stats.(totalSize := stats.totalSize + size);
        var files, _ := ScanPath(r, null, false);
        ghost var before := AllFiles(roots[..i]);
        FileSumsAppend(before, files, TypeDatabase, 0);
        FileSumsAppend(before, files, TypeCache, 0);
        FileSumsAppend(before, files, TypeLog, 0);
        FileSumsAppend(before, files, TypeTemp, 0);
        ByAppend(map[], before, files, DisplayName);
        stats := TallyFiles(stats, files);
        i := i + 1;
      }
      assert roots[..i] == roots;
    }
  }

  /** A placeholder progress value for ghost bookkeeping when no progress record is kept. */
  const NoSnapshot: Snapshot := Snapshot(0, 0, 0, "", "", false)
}
