/** The backup manager (internal/backup/manager.go): where backups live, the
    guard and identifier of a new backup, the listing of existing backups and
    the retention policy that sorts them by age and deletes the oldest. */
module Backup {
  import opened Wrappers
  import opened Strings
  import opened Types
  import Detector

  /** `types.BackupConfig`. */
  datatype BackupConfig = BackupConfig(
    enabled: bool,
    path: string,
    maxBackups: int,
    compressed: bool,
    autoCleanup: bool,
    schedule: string)

  /** `types.BackupInfo`. */
  datatype BackupInfo = BackupInfo(
    id: string,
    path: string,
    size: nat,
    createdAt: int,
    itemCount: int,
    description: string)

  /** A `BackupManager`: its configuration and its directory. */
  datatype Manager = Manager(config: BackupConfig, backupDir: string)

  /** What `file.Info()` gives for a directory entry: the size, the
      modification time, and that time as `Format("2006-01-02 15:04:05")`
      prints it. */
  datatype EntryInfo = EntryInfo(size: nat, modTime: int, stamp: string)

  /** One entry of the backup directory; `info` is `None` when it cannot be stat-ed. */
  datatype DirEntry = DirEntry(name: string, isDir: bool, info: Option<EntryInfo>)

  /** What `os.ReadDir` on the backup directory gives. */
  datatype DirRead =
    | Entries(entries: seq<DirEntry>)
    | Missing                       // the directory does not exist
    | Unreadable(msg: string)       // any other error

  // ---------------------------------------------------------------------------
  // Construction and new backups
  // ---------------------------------------------------------------------------

  /** `NewBackupManager`: the configured path, or `.kiro-cleaner/backups`
      under `home` (the value of HOME) when none is configured. */
  function NewBackupManager(config: BackupConfig, home: string): (m: Manager)
    ensures m.config == config
    ensures config.path != "" ==> m.backupDir == config.path
    ensures config.path == "" ==> m.backupDir == Join(Join(home, ".kiro-cleaner"), "backups")
    ensures m.backupDir != ""
  {
    Manager(config, if config.path != "" then config.path else Join(Join(home, ".kiro-cleaner"), "backups"))
  }

  /** `CreateBackup` over the outcomes of its file operations: `mkdir` and
      `create` are the errors (if any) of creating the directory and the
      archive, `adds[k]` that of adding `items[k]`; `timestamp` is the current
      time as `Format("20060102_150405")` prints it. Writing the archive
      itself is not modelled. */
  method CreateBackup(m: Manager, items: seq<FileInfo>, timestamp: string,
                      mkdir: Option<string>, create: Option<string>, adds: seq<Option<string>>)
    returns (r: Result<string>)
    requires |adds| == |items|
    ensures !m.config.enabled ==> r == Err("备份功能已禁用")
    ensures m.config.enabled && mkdir.Some? ==> r == Err("创建备份目录失败: " + mkdir.value)
    ensures m.config.enabled && mkdir.None? && create.Some? ==> r == Err("创建备份文件失败: " + create.value)
    ensures r.Ok? <==> m.config.enabled && mkdir.None? && create.None? && forall k :: 0 <= k < |adds| ==> adds[k].None?
    ensures r.Ok? ==> r.value == "backup_" + timestamp
    ensures m.config.enabled && mkdir.None? && create.None? && r.Err? ==>
      exists k :: 0 <= k < |adds| && adds[k].Some? && (forall j :: 0 <= j < k ==> adds[j].None?) &&
        r.msg == "备份文件 " + items[k].path + " 失败: " + adds[k].value
  {
    if !m.config.enabled {
      return Err("备份功能已禁用");
    }
    if mkdir.Some? {
      return Err("创建备份目录失败: " + mkdir.value);
    }
    var backupId := "backup_" + timestamp;
    if create.Some? {
      return Err("创建备份文件失败: " + create.value);
    }
    var k := 0;
    while k < |items|
      invariant 0 <= k <= |items|
      invariant forall j :: 0 <= j < k ==> adds[j].None?
    {
      if adds[k].Some? {
        return Err("备份文件 " + items[k].path + " 失败: " + adds[k].value);
      }
      k := k + 1;
    }
    return Ok(backupId);
  }

  // ---------------------------------------------------------------------------
  // Listing
  // ---------------------------------------------------------------------------

  /** The entry names `ListBackups` keeps: `filepath.Ext` is ".zip". */
  predicate IsZipName(name: string) {
    Ext(name) == ".zip"
  }

  /** For a plain file name, the `.zip` extension is exactly the `.zip` suffix. */
  lemma ZipNameIsSuffix(name: string)
    requires '/' !in name
    ensures IsZipName(name) <==> HasSuffix(name, ".zip")
  {
    if HasSuffix(name, ".zip") {
      var k := |name| - 4;
      assert name[k..] == ".zip";
      assert name[k] == '.' && name[k + 1] == 'z' && name[k + 2] == 'i' && name[k + 3] == 'p';
      Detector.ExtScan(name, |name|, k);
    }
  }

  /** The backup an entry stands for, if it is one. */
  function EntryBackup(dir: string, e: DirEntry): seq<BackupInfo> {
    if e.isDir || !IsZipName(e.name) || e.info.None? then []
    else
      var id := e.name[..|e.name| - 4];
      [BackupInfo(id, Join(dir, e.name), e.info.value.size, e.info.value.modTime, 0, "自动备份 " + e.info.value.stamp)]
  }

  /** Exactly the stat-able `.zip` files that are not directories are
      backups; the identifier is the name without its `.zip`, the path is the
      name under the backup directory, the size and creation time are the
      file's own and the item count is unknown (0). */
  lemma EntryBackupShape(dir: string, e: DirEntry)
    ensures var r := EntryBackup(dir, e);
      |r| <= 1 &&
      (r != [] <==> !e.isDir && IsZipName(e.name) && e.info.Some?) &&
      (r != [] ==>
        r[0].id + ".zip" == e.name && r[0].path == Join(dir, e.name) &&
        r[0].size == e.info.value.size && r[0].createdAt == e.info.value.modTime && r[0].itemCount == 0)
  {
    if !e.isDir && IsZipName(e.name) && e.info.Some? {
      var id := e.name[..|e.name| - 4];
      assert e.name == id + ".zip";
    }
  }

  /** The concatenation of `f` over `xs`, in order. */
  function FlatMap<T, U>(f: T -> seq<U>, xs: seq<T>): seq<U>
    decreases |xs|
  {
    if xs == [] then [] else FlatMap(f, xs[..|xs| - 1]) + f(xs[|xs| - 1])
  }

  lemma {:induction false} FlatMapFrom<T, U>(f: T -> seq<U>, xs: seq<T>, b: U)
    ensures b in FlatMap(f, xs) <==> exists j :: 0 <= j < |xs| && b in f(xs[j])
    decreases |xs|
  {
    if xs != [] {
      var n := |xs| - 1;
      var pre := xs[..n];
      FlatMapFrom(f, pre, b);
      if b in FlatMap(f, pre) {
        var j :| 0 <= j < |pre| && b in f(pre[j]);
        assert xs[j] == pre[j];
      }
      if j :| 0 <= j < |xs| && b in f(xs[j]) {
        if j < n {
          assert xs[j] == pre[j];
        }
      }
    }
  }

  lemma {:induction false} FlatMapLength<T, U>(f: T -> seq<U>, xs: seq<T>)
    requires forall x :: |f(x)| <= 1
    ensures |FlatMap(f, xs)| <= |xs|
    decreases |xs|
  {
    if xs != [] {
      FlatMapLength(f, xs[..|xs| - 1]);
    }
  }

  /** The backups of a directory listing, in listing order. */
  function BackupsOf(dir: string, entries: seq<DirEntry>): seq<BackupInfo> {
    FlatMap(e => EntryBackup(dir, e), entries)
  }

  /** A missing directory lists as empty; another read error is returned. */
  function ListResult(dir: string, read: DirRead): (r: Result<seq<BackupInfo>>)
    ensures read.Missing? ==> r == Ok([])
    ensures read.Unreadable? ==> r == Err(read.msg)
    ensures read.Entries? ==> r == Ok(BackupsOf(dir, read.entries))
  {
    match read
    case Missing => Ok([])
    case Unreadable(msg) => Err(msg)
    case Entries(entries) => Ok(BackupsOf(dir, entries))
  }

  /** `b` is the backup of some entry of the listing. */
  predicate FromEntry(dir: string, entries: seq<DirEntry>, b: BackupInfo) {
    exists j :: 0 <= j < |entries| && b in EntryBackup(dir, entries[j])
  }

  /** Every listed backup comes from a stat-able `.zip` file of the listing,
      and every such file is listed. */
  lemma BackupsOfFrom(dir: string, entries: seq<DirEntry>, b: BackupInfo)
    ensures b in BackupsOf(dir, entries) <==> FromEntry(dir, entries, b)
  {
    FlatMapFrom(e => EntryBackup(dir, e), entries, b);
  }

  /** Listing one more entry appends its backup, if any. */
  lemma BackupsOfSnoc(dir: string, entries: seq<DirEntry>, i: int)
    requires 0 <= i < |entries|
    ensures BackupsOf(dir, entries[..i + 1]) == BackupsOf(dir, entries[..i]) + EntryBackup(dir, entries[i])
  {
    assert entries[..i + 1][..i] == entries[..i];
  }

  /** `ListBackups`. */
  method ListBackups(m: Manager, read: DirRead) returns (r: Result<seq<BackupInfo>>)
    ensures r == ListResult(m.backupDir, read)
  {
    if read.Missing? {
      return Ok([]);
    }
    if read.Unreadable? {
      return Err(read.msg);
    }
    var entries := read.entries;
    var backups: seq<BackupInfo> := [];
    var i := 0;
    while i < |entries|
      invariant 0 <= i <= |entries|
      invariant backups == BackupsOf(m.backupDir, entries[..i])
    {
      var e := entries[i];
      BackupsOfSnoc(m.backupDir, entries, i);
      if !e.isDir && IsZipName(e.name) && e.info.Some? {
        var id := e.name[..|e.name| - 4];
        backups := backups + [BackupInfo(id, Join(m.backupDir, e.name), e.info.value.size, e.info.value.modTime, 0,
                                         "自动备份 " + e.info.value.stamp)];
      }
      i := i + 1;
    }
    assert entries[..i] == entries;
    return Ok(backups);
  }

  // ---------------------------------------------------------------------------
  // Retention
  // ---------------------------------------------------------------------------

  /** Oldest first. */
  predicate SortedByAge(s: seq<BackupInfo>) {
    forall p, q :: 0 <= p < q < |s| ==> s[p].createdAt <= s[q].createdAt
  }

  /** The first `i` positions are in order. */
  predicate SortedBelow(s: seq<BackupInfo>, i: int) {
    forall p, q :: 0 <= p < q < i && q < |s| ==> s[p].createdAt <= s[q].createdAt
  }

  /** Nothing before `i` is newer than anything from `i` on. */
  predicate SplitAt(s: seq<BackupInfo>, i: int) {
    forall p, q :: 0 <= p < i <= q < |s| ==> s[p].createdAt <= s[q].createdAt
  }

  /** Position `i` is no newer than positions `i + 1 .. j - 1`. */
  predicate OldestBetween(s: seq<BackupInfo>, i: int, j: int)
    requires 0 <= i < |s|
  {
    forall q :: i < q < j && q < |s| ==> s[i].createdAt <= s[q].createdAt
  }

  /** The exchange sort of `CleanupOldBackups`: for each position, every later
      backup that is older is swapped into it. */
  method ExchangeSort(a: array<BackupInfo>)
    modifies a
    ensures SortedByAge(a[..])
    ensures multiset(a[..]) == multiset(old(a[..]))
  {
    var i := 0;
    while i < a.Length - 1
      invariant 0 <= i <= a.Length && (a.Length > 0 ==> i <= a.Length - 1)
      invariant Outer(a[..], i) && multiset(a[..]) == multiset(old(a[..]))
    {
      var j := i + 1;
      while j < a.Length
        invariant i + 1 <= j <= a.Length
        invariant Inner(a[..], i, j) && multiset(a[..]) == multiset(old(a[..]))
      {
        if a[i].createdAt > a[j].createdAt {
          ghost var s := a[..];
          SwapKeepsOrder(s, i, j);
          a[i], a[j] := a[j], a[i];
          assert a[..] == s[i := s[j]][j := s[i]];
        } else {
          InnerStep(a[..], i, j);
        }
        j := j + 1;
      }
      SortedStep(a[..], i);
      i := i + 1;
    }
    SortedWhole(a[..], i);
  }

  /** What the outer loop keeps: the first `i` positions hold the oldest
      backups, in order. */
  predicate Outer(s: seq<BackupInfo>, i: int) {
    SortedBelow(s, i) && SplitAt(s, i)
  }

  /** What the inner loop adds: position `i` is no newer than `i + 1 .. j - 1`. */
  predicate Inner(s: seq<BackupInfo>, i: int, j: int) {
    0 <= i < |s| && OldestBetween(s, i, j) && Outer(s, i)
  }

  /** Swapping a newer `s[i]` with an older `s[j]` keeps what the inner loop
      knows, and the contents. */
  lemma SwapKeepsOrder(s: seq<BackupInfo>, i: int, j: int)
    requires 0 <= i < j < |s| && s[i].createdAt > s[j].createdAt && Inner(s, i, j)
    ensures var t := s[i := s[j]][j := s[i]];
      Inner(t, i, j + 1) && multiset(t) == multiset(s)
  {
    var t := s[i := s[j]][j := s[i]];
    forall q | i < q < j + 1 && q < |t|
      ensures t[i].createdAt <= t[q].createdAt
    {
    }
    forall p, q | 0 <= p < i <= q < |t|
      ensures t[p].createdAt <= t[q].createdAt
    {
      assert t[p] == s[p];
    }
  }

  /** Without a swap, position `j` joins the scanned range. */
  lemma InnerStep(s: seq<BackupInfo>, i: int, j: int)
    requires 0 <= i < j < |s| && s[i].createdAt <= s[j].createdAt && Inner(s, i, j)
    ensures Inner(s, i, j + 1)
  {
  }

  /** After the inner loop, the first `i + 1` positions are in order. */
  lemma SortedStep(s: seq<BackupInfo>, i: int)
    requires Inner(s, i, |s|)
    ensures Outer(s, i + 1)
  {
  }

  lemma SortedWhole(s: seq<BackupInfo>, i: int)
    requires Outer(s, i)
    requires |s| > 0 ==> i == |s| - 1
    requires |s| == 0 ==> i == 0
    ensures SortedByAge(s)
  {
    if |s| > 0 {
      forall p, q | 0 <= p < q < |s|
        ensures s[p].createdAt <= s[q].createdAt
      {
        if q < i {
        } else {
          assert p < i <= q;
        }
      }
    }
  }

  /** In an age-sorted listing, the first `k` are no newer than the rest. */
  lemma OldestFirst(s: seq<BackupInfo>, k: nat)
    requires SortedByAge(s) && k <= |s|
    ensures forall x, y :: x in s[..k] && y in s[k..] ==> x.createdAt <= y.createdAt
  {
    forall x, y | x in s[..k] && y in s[k..]
      ensures x.createdAt <= y.createdAt
    {
      var p :| 0 <= p < k && s[..k][p] == x;
      var q :| 0 <= q < |s| - k && s[k..][q] == y;
      assert s[p] == x && s[k + q] == y;
    }
  }

  /** The deletion loop: removes `sorted[0]`, `sorted[1]`, ... up to
      `toDelete` of them and stops at the first failure; `removals[k]` is the
      error (if any) of removing `sorted[k]`. Returns the error and the
      backups actually removed. */
  method DeleteOldest(sorted: seq<BackupInfo>, toDelete: nat, removals: seq<Option<string>>)
    returns (err: Option<string>, removed: seq<BackupInfo>)
    requires toDelete <= |sorted| && |removals| >= |sorted|
    ensures |removed| <= toDelete && removed == sorted[..|removed|]
    ensures forall k :: 0 <= k < |removed| ==> removals[k].None?
    ensures err.None? <==> |removed| == toDelete
    ensures err.Some? ==> removals[|removed|].Some? && err.value == "删除备份文件失败: " + removals[|removed|].value
  {
    var i := 0;
    while i < toDelete
      invariant 0 <= i <= toDelete
      invariant forall k :: 0 <= k < i ==> removals[k].None?
    {
      if removals[i].Some? {
        return Some("删除备份文件失败: " + removals[i].value), sorted[..i];
      }
      i := i + 1;
    }
    return None, sorted[..toDelete];
  }

  /** The outcome of pruning `toDelete` backups from the listing `all`: the
      removed backups are oldest ones, removed while every removal succeeded;
      all of them go unless a removal fails, and then the error reports the
      first failed removal. */
  predicate PrunedOldest(all: seq<BackupInfo>, toDelete: nat, removals: seq<Option<string>>,
                         err: Option<string>, removed: seq<BackupInfo>)
  {
    |removed| <= toDelete && |removed| <= |removals| &&
    (err.None? <==> |removed| == toDelete) &&
    multiset(removed) <= multiset(all) &&
    (forall x, y :: x in removed && y in multiset(all) - multiset(removed) ==> x.createdAt <= y.createdAt) &&
    (forall k :: 0 <= k < |removed| ==> removals[k].None?) &&
    (err.Some? ==>
      |removed| < |removals| && removals[|removed|].Some? &&
      err.value == "删除备份文件失败: " + removals[|removed|].value)
  }

  /** `CleanupOldBackups`. Does nothing unless automatic cleanup is on; passes
      on a listing error; keeps everything while there are at most
      `MaxBackups`; otherwise sorts the listing oldest first and deletes the
      surplus from the front. `removals` holds the outcome of each removal,
      in the order the removals are attempted. */
  method CleanupOldBackups(m: Manager, read: DirRead, removals: seq<Option<string>>)
    returns (err: Option<string>, removed: seq<BackupInfo>)
    requires m.config.autoCleanup ==> m.config.maxBackups >= 0
    requires read.Entries? ==> |removals| == |read.entries|
    ensures !m.config.autoCleanup ==> err.None? && removed == []
    ensures m.config.autoCleanup && read.Unreadable? ==> err == Some(read.msg) && removed == []
    ensures var listed := ListResult(m.backupDir, read);
      m.config.autoCleanup && listed.Ok? ==>
        var all := listed.value;
        (|all| <= m.config.maxBackups ==> err.None? && removed == []) &&
        (|all| > m.config.maxBackups ==> PrunedOldest(all, |all| - m.config.maxBackups, removals, err, removed))
  {
    if !m.config.autoCleanup {
      return None, [];
    }
    var listed := ListBackups(m, read);
    if listed.Err? {
      return Some(listed.msg), [];
    }
    var backups := listed.value;
    if |backups| <= m.config.maxBackups {
      return None, [];
    }
    BackupsBounded(m.backupDir, read);
    var a := new BackupInfo[|backups|](k requires 0 <= k < |backups| => backups[k]);
    assert a[..] == backups;
    ExchangeSort(a);
    var sorted := a[..];
    var toDelete := |backups| - m.config.maxBackups;
    err, removed := DeleteOldest(sorted, toDelete, removals);
    RemovedAreOldest(sorted, |removed|);
  }

  /** A listing has no more backups than entries. */
  lemma BackupsBounded(dir: string, read: DirRead)
    ensures read.Entries? ==> |BackupsOf(dir, read.entries)| <= |read.entries|
    ensures read.Missing? ==> ListResult(dir, read).Ok? && ListResult(dir, read).value == []
  {
    if read.Entries? {
      BackupsOfLength(dir, read.entries);
    }
  }

  lemma BackupsOfLength(dir: string, entries: seq<DirEntry>)
    ensures |BackupsOf(dir, entries)| <= |entries|
  {
    forall e | true
      ensures |EntryBackup(dir, e)| <= 1
    {
      EntryBackupShape(dir, e);
    }
    FlatMapLength(e => EntryBackup(dir, e), entries);
  }

  /** Removing a prefix of an age-sorted listing removes the oldest backups. */
  lemma RemovedAreOldest(sorted: seq<BackupInfo>, k: nat)
    requires SortedByAge(sorted) && k <= |sorted|
    ensures multiset(sorted[..k]) <= multiset(sorted)
    ensures forall x, y :: x in sorted[..k] && y in multiset(sorted) - multiset(sorted[..k]) ==> x.createdAt <= y.createdAt
  {
    assert sorted == sorted[..k] + sorted[k..];
    assert multiset(sorted) == multiset(sorted[..k]) + multiset(sorted[k..]);
    assert multiset(sorted) - multiset(sorted[..k]) == multiset(sorted[k..]);
    OldestFirst(sorted, k);
    forall y | y in multiset(sorted[k..])
      ensures y in sorted[k..]
    {
    }
  }
}
