/** The records shared by the scanner, the cleaner and the command layer
    (pkg/types/types.go). Times are Unix milliseconds, sizes are byte counts. */
module Types {

  /** The file categories, in the order of their `iota` declaration. */
  datatype FileType =
    | TypeDatabase
    | TypeConfig
    | TypeCache
    | TypeLog
    | TypeTemp
    | TypeImage
    | TypeBackup
    | TypeIndex
    | TypeUnknown

  /** The integer value of a category (its `iota` position). */
  function Ordinal(t: FileType): (n: nat)
    ensures n <= 8
    ensures n == 0 <==> t == TypeDatabase
  {
    match t
    case TypeDatabase => 0
    case TypeConfig => 1
    case TypeCache => 2
    case TypeLog => 3
    case TypeTemp => 4
    case TypeImage => 5
    case TypeBackup => 6
    case TypeIndex => 7
    case TypeUnknown => 8
  }

  /** One scanned file. */
  datatype FileInfo = FileInfo(
    path: string,
    name: string,
    size: nat,
    modified: int,
    fileType: FileType,
    isEmpty: bool,
    isCorrupted: bool)

  /** One entry reported by a directory walk; `accessible` is false when the walk
      hands the callback an error for it. */
  datatype WalkEntry = WalkEntry(
    path: string,
    name: string,
    isDir: bool,
    size: nat,
    modTime: int,
    accessible: bool)

  datatype ChatMessage = ChatMessage(role: string, content: string)

  datatype ChatMetadata = ChatMetadata(
    modelId: string,
    modelProvider: string,
    workflow: string,
    workflowId: string,
    startTime: int,
    endTime: int)

  /** The decoded JSON body of a transcript. */
  datatype ChatFile = ChatFile(
    executionId: string,
    actionId: string,
    chat: seq<ChatMessage>,
    metadata: ChatMetadata)

  /** A parsed transcript. */
  datatype ChatFileInfo = ChatFileInfo(
    path: string,
    size: nat,
    modTime: int,
    messageCount: nat,
    humanMessages: nat,
    botMessages: nat,
    toolMessages: nat,
    metadata: ChatMetadata)

  datatype WorkspaceStats = WorkspaceStats(
    workspaceId: string,
    path: string,
    conversationCount: nat,
    totalMessages: nat,
    totalSize: nat,
    lastActivity: int)

  datatype ConversationStats = ConversationStats(
    totalConversations: nat,
    totalMessages: nat,
    totalSize: nat,
    humanMessages: nat,
    botMessages: nat,
    toolMessages: nat,
    avgMessagesPerConv: real,
    workspaceBreakdown: seq<WorkspaceStats>,
    lastActivity: int)

  /** Storage totals by category; `fileCounts` is keyed by display name. */
  datatype StorageStats = StorageStats(
    totalSize: nat,
    dbSize: nat,
    cacheSize: nat,
    logSize: nat,
    tempSize: nat,
    fileCounts: map<string, nat>,
    lastCleanup: int)

  datatype CleanableConversation = CleanableConversation(
    path: string,
    size: nat,
    modTime: int,
    reason: string)

  /** The scalar part of a progress report handed to a progress callback. */
  datatype Snapshot = Snapshot(
    scannedFiles: nat,
    scannedDirs: nat,
    totalSize: nat,
    currentPath: string,
    phase: string,
    isComplete: bool)

  /** The scanning progress record that the scanners update in place. */
  class ScanProgress {
    var scannedFiles: nat
    var scannedDirs: nat
    var totalSize: nat
    var currentPath: string
    var typeCounts: map<string, nat>
    var typeSizes: map<string, nat>
    var phase: string
    var isComplete: bool

    /** `NewScanProgress`: zero counters, empty maps, phase "files". */
    constructor ()
      ensures scannedFiles == 0 && scannedDirs == 0 && totalSize == 0
      ensures currentPath == "" && typeCounts == map[] && typeSizes == map[]
      ensures phase == "files" && !isComplete
    {
      scannedFiles, scannedDirs, totalSize := 0, 0, 0;
      currentPath := "";
      typeCounts, typeSizes := map[], map[];
      phase := "files";
      isComplete := false;
    }

    /** The value a callback receives (`callback(*progress)`), without the maps. */
    function Snap(): Snapshot
      reads this
    {
      Snapshot(scannedFiles, scannedDirs, totalSize, currentPath, phase, isComplete)
    }
  }

  /** Snapshot `b` does not go backwards from snapshot `a`. */
  predicate NoDecrease(a: Snapshot, b: Snapshot) {
    a.scannedFiles <= b.scannedFiles && a.scannedDirs <= b.scannedDirs && a.totalSize <= b.totalSize
  }

  /** `b` is `a` with `files` more files, `dirs` more directories and `bytes`
      more bytes counted, in the same phase and completion state. */
  predicate Advanced(a: Snapshot, b: Snapshot, files: nat, dirs: nat, bytes: nat) {
    b.scannedFiles == a.scannedFiles + files && b.scannedDirs == a.scannedDirs + dirs &&
    b.totalSize == a.totalSize + bytes && b.phase == a.phase && b.isComplete == a.isComplete
  }

  /** Two successive advances make one. */
  lemma AdvancedCompose(a: Snapshot, b: Snapshot, c: Snapshot, f1: nat, d1: nat, b1: nat, f2: nat, d2: nat, b2: nat)
    requires Advanced(a, b, f1, d1, b1) && Advanced(b, c, f2, d2, b2)
    ensures Advanced(a, c, f1 + f2, d1 + d2, b1 + b2)
  {
  }

  /** A callback sequence whose counters never decrease and in which exactly the
      last snapshot is marked complete. */
  predicate WellFormedProgress(snaps: seq<Snapshot>) {
    |snaps| > 0 &&
    (forall i, j :: 0 <= i <= j < |snaps| ==> NoDecrease(snaps[i], snaps[j])) &&
    (forall i :: 0 <= i < |snaps| ==> (snaps[i].isComplete <==> i == |snaps| - 1))
  }

  /** The snapshots `snaps` reported, in order, while the progress moved from
      `start` to `end`: none goes backwards from the one before it, the last
      is not ahead of `end`, and each carries the completion flag `complete`. */
  predicate ProgressLog(start: Snapshot, snaps: seq<Snapshot>, end: Snapshot, complete: bool)
    decreases |snaps|
  {
    if snaps == [] then NoDecrease(start, end)
    else NoDecrease(start, snaps[0]) && snaps[0].isComplete == complete && ProgressLog(snaps[0], snaps[1..], end, complete)
  }

  /** Reporting nothing while the counters move forward is a log. */
  lemma ProgressLogEmpty(start: Snapshot, end: Snapshot, complete: bool)
    requires NoDecrease(start, end)
    ensures ProgressLog(start, [], end, complete)
  {
  }

  /** Two consecutive logs form one log. */
  lemma {:induction false} ProgressLogConcat(a: Snapshot, s1: seq<Snapshot>, b: Snapshot, s2: seq<Snapshot>, c: Snapshot, complete: bool)
    requires ProgressLog(a, s1, b, complete) && ProgressLog(b, s2, c, complete)
    ensures ProgressLog(a, s1 + s2, c, complete)
    decreases |s1|
  {
    if s1 == [] {
      assert s1 + s2 == s2;
      ProgressLogStart(a, b, s2, c, complete);
    } else {
      assert (s1 + s2)[0] == s1[0];
      assert (s1 + s2)[1..] == s1[1..] + s2;
      ProgressLogConcat(s1[0], s1[1..], b, s2, c, complete);
    }
  }

  /** A log may start from any earlier state. */
  lemma ProgressLogStart(a: Snapshot, b: Snapshot, s: seq<Snapshot>, c: Snapshot, complete: bool)
    requires NoDecrease(a, b) && ProgressLog(b, s, c, complete)
    ensures ProgressLog(a, s, c, complete)
  {
  }

  /** Reporting the current state after the counters moved forward extends a log. */
  lemma ProgressLogSnoc(a: Snapshot, s1: seq<Snapshot>, b: Snapshot, c: Snapshot, complete: bool)
    requires ProgressLog(a, s1, b, complete) && NoDecrease(b, c) && c.isComplete == complete
    ensures ProgressLog(a, s1 + [c], c, complete)
  {
    ProgressLogConcat(a, s1, b, [c], c, complete);
  }

  /** In a log every snapshot carries the flag, lies between the two ends, and
      no later snapshot is behind an earlier one. */
  lemma {:induction false} ProgressLogOrdered(start: Snapshot, snaps: seq<Snapshot>, end: Snapshot, complete: bool)
    requires ProgressLog(start, snaps, end, complete)
    ensures NoDecrease(start, end)
    ensures forall i :: 0 <= i < |snaps| ==> snaps[i].isComplete == complete
    ensures forall i :: 0 <= i < |snaps| ==> NoDecrease(start, snaps[i]) && NoDecrease(snaps[i], end)
    ensures forall i, j :: 0 <= i <= j < |snaps| ==> NoDecrease(snaps[i], snaps[j])
    decreases |snaps|
  {
    if snaps != [] {
      var rest := snaps[1..];
      ProgressLogOrdered(snaps[0], rest, end, complete);
      assert forall i :: 1 <= i < |snaps| ==> snaps[i] == rest[i - 1];
    }
  }

  /** A log of incomplete snapshots closed by one complete snapshot that is
      not behind the log's end is a well-formed callback sequence. */
  lemma ProgressLogClose(start: Snapshot, snaps: seq<Snapshot>, end: Snapshot, last: Snapshot)
    requires ProgressLog(start, snaps, end, false)
    requires NoDecrease(end, last) && last.isComplete
    ensures WellFormedProgress(snaps + [last])
  {
    ProgressLogOrdered(start, snaps, end, false);
    var all := snaps + [last];
    assert forall i :: 0 <= i < |snaps| ==> all[i] == snaps[i];
    forall i, j | 0 <= i <= j < |all| ensures NoDecrease(all[i], all[j]) {
      if j < |snaps| {
        assert NoDecrease(snaps[i], snaps[j]);
      } else if i < |snaps| {
        assert NoDecrease(snaps[i], end);
      }
    }
  }

  /** Adds `n` to the entry for `key`, creating it from zero (`m[key] += n`). */
  function MapAdd(m: map<string, nat>, key: string, n: nat): (r: map<string, nat>)
    ensures key in r && r[key] == (if key in m then m[key] else 0) + n
    ensures forall k :: k != key ==> (k in r <==> k in m)
    ensures forall k :: k != key && k in m ==> r[k] == m[k]
  {
    m[key := (if key in m then m[key] else 0) + n]
  }
}
