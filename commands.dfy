/** The clean command (cmd/kiro-cleaner/commands.go, `runClean`): the keep
    flags merged with the saved configuration, the selection of what to
    delete from the file scan and the transcript list, the per-reason tally
    shown to the user, and the delete loop. */
module Commands {
  import opened Wrappers
  import opened Clock
  import opened Types
  import FileScan

  /** One thing to delete and why (`cleanItem`). */
  datatype CleanItem = CleanItem(path: string, size: nat, reason: string)

  /** The keep settings of the saved configuration. */
  datatype Config = Config(keepLogs: bool, keepCache: bool, keepChats: bool, keepIndex: bool, keepRecent: int)

  /** Which keep flags were given on the command line. */
  datatype Changed = Changed(logs: bool, cache: bool, chats: bool, index: bool, recent: bool)

  /** The values of the keep flags. */
  datatype Keep = Keep(logs: bool, cache: bool, chats: bool, index: bool, recent: int)

  /** How `runClean` ends. */
  datatype Outcome =
    | NothingToClean
    | Previewed(count: nat, totalSize: nat, typeCount: map<string, nat>, typeSize: map<string, nat>)
    | Cancelled
    | Cleaned(cleaned: nat, cleanedSize: nat, errors: nat)

  /** The order in which the tally is shown; every reason appears once. */
  const DisplayOrder: seq<string> := ["log", "cache", "index", "chat", "history", "temp"]

  // ---------------------------------------------------------------------------
  // Flags
  // ---------------------------------------------------------------------------

  /** The flag values after the configuration fills in every flag not given on
      the command line; a configured `KeepRecent` counts only when positive. */
  function Merge(k: Keep, changed: Changed, cfg: Config): (r: Keep)
    ensures changed.logs ==> r.logs == k.logs
    ensures !changed.logs ==> r.logs == cfg.keepLogs
    ensures changed.cache ==> r.cache == k.cache
    ensures !changed.cache ==> r.cache == cfg.keepCache
    ensures changed.chats ==> r.chats == k.chats
    ensures !changed.chats ==> r.chats == cfg.keepChats
    ensures changed.index ==> r.index == k.index
    ensures !changed.index ==> r.index == cfg.keepIndex
    ensures !changed.recent && cfg.keepRecent > 0 ==> r.recent == cfg.keepRecent
    ensures changed.recent || cfg.keepRecent <= 0 ==> r.recent == k.recent
  {
    Keep(
      if changed.logs then k.logs else cfg.keepLogs,
      if changed.cache then k.cache else cfg.keepCache,
      if changed.chats then k.chats else cfg.keepChats,
      if changed.index then k.index else cfg.keepIndex,
      if !changed.recent && cfg.keepRecent > 0 then cfg.keepRecent else k.recent)
  }

  /** Merging twice with the same configuration changes nothing more. */
  lemma MergeIdempotent(k: Keep, changed: Changed, cfg: Config)
    ensures Merge(Merge(k, changed, cfg), changed, cfg) == Merge(k, changed, cfg)
  {
  }

  // ---------------------------------------------------------------------------
  // Selection
  // ---------------------------------------------------------------------------

  /** Modified after the cutoff `keepRecent` days before `now`, so kept. */
  predicate KeptAsRecent(keepRecent: int, now: int, modified: int) {
    keepRecent > 0 && modified > now - keepRecent * MsPerDay
  }

  /** The reason a scanned file of category `t` is deleted under `k`, if it is. */
  function FileReason(k: Keep, t: FileType): (r: Option<string>)
    ensures t == TypeTemp || t == TypeBackup ==> r.Some?
    ensures t == TypeLog ==> (r.Some? <==> !k.logs)
    ensures t == TypeCache ==> (r.Some? <==> !k.cache)
    ensures t == TypeIndex ==> (r.Some? <==> !k.index)
    ensures t == TypeDatabase || t == TypeConfig || t == TypeImage || t == TypeUnknown ==> r.None?
    ensures r.Some? ==> r.value == FileScan.TypeName(t) && r.value in DisplayOrder && r.value != "chat"
  {
    match t
    case TypeTemp => Some("temp")
    case TypeLog => if k.logs then None else Some("log")
    case TypeCache => if k.cache then None else Some("cache")
    case TypeBackup => Some("history")
    case TypeIndex => if k.index then None else Some("index")
    case _ => None
  }

  /** The item one scanned file contributes. */
  function FileItem(k: Keep, f: FileInfo, now: int): (r: seq<CleanItem>)
    ensures r != [] <==> !KeptAsRecent(k.recent, now, f.modified) && FileReason(k, f.fileType).Some?
    ensures r != [] ==> r == [CleanItem(f.path, f.size, FileReason(k, f.fileType).value)]
  {
    if KeptAsRecent(k.recent, now, f.modified) then []
    else match FileReason(k, f.fileType)
      case None => []
      case Some(reason) => [CleanItem(f.path, f.size, reason)]
  }

  /** The item one cleanable transcript contributes. */
  function ChatItem(k: Keep, c: CleanableConversation, now: int): (r: seq<CleanItem>)
    ensures r != [] <==> !KeptAsRecent(k.recent, now, c.modTime)
    ensures r != [] ==> r == [CleanItem(c.path, c.size, "chat")]
  {
    if KeptAsRecent(k.recent, now, c.modTime) then [] else [CleanItem(c.path, c.size, "chat")]
  }

  function FileItems(k: Keep, files: seq<FileInfo>, now: int): seq<CleanItem>
    decreases |files|
  {
    if files == [] then []
    else FileItems(k, files[..|files| - 1], now) + FileItem(k, files[|files| - 1], now)
  }

  function ChatItems(k: Keep, chats: seq<CleanableConversation>, now: int): seq<CleanItem>
    decreases |chats|
  {
    if chats == [] then []
    else ChatItems(k, chats[..|chats| - 1], now) + ChatItem(k, chats[|chats| - 1], now)
  }

  /** `toClean`: the selected files in scan order, then, unless transcripts are
      kept or listing them failed, the selected transcripts. */
  function Plan(k: Keep, files: seq<FileInfo>, chats: Result<seq<CleanableConversation>>, now: int): seq<CleanItem> {
    FileItems(k, files, now) + (if !k.chats && chats.Ok? then ChatItems(k, chats.value, now) else [])
  }

  function ItemsSize(items: seq<CleanItem>): nat
    decreases |items|
  {
    if items == [] then 0 else ItemsSize(items[..|items| - 1]) + items[|items| - 1].size
  }

  /** An item is selected from the files iff some file contributes it. */
  lemma {:induction false} FileItemsFrom(k: Keep, files: seq<FileInfo>, now: int, x: CleanItem)
    ensures x in FileItems(k, files, now) <==> exists j :: 0 <= j < |files| && x in FileItem(k, files[j], now)
    decreases |files|
  {
    if files != [] {
      var n := |files| - 1;
      var pre := files[..n];
      assert FileItems(k, files, now) == FileItems(k, pre, now) + FileItem(k, files[n], now);
      FileItemsFrom(k, pre, now, x);
      if x in FileItems(k, files, now) {
        if x in FileItems(k, pre, now) {
          var j :| 0 <= j < |pre| && x in FileItem(k, pre[j], now);
          assert files[j] == pre[j];
        } else {
          assert x in FileItem(k, files[n], now);
        }
      }
      if j :| 0 <= j < |files| && x in FileItem(k, files[j], now) {
        if j < n {
          assert files[j] == pre[j];
          assert x in FileItems(k, pre, now);
        } else {
          assert j == n;
        }
      }
    }
  }

  /** An item is selected from the transcripts iff some transcript contributes it. */
  lemma {:induction false} ChatItemsFrom(k: Keep, chats: seq<CleanableConversation>, now: int, x: CleanItem)
    ensures x in ChatItems(k, chats, now) <==> exists j :: 0 <= j < |chats| && x in ChatItem(k, chats[j], now)
    decreases |chats|
  {
    if chats != [] {
      var n := |chats| - 1;
      var pre := chats[..n];
      assert ChatItems(k, chats, now) == ChatItems(k, pre, now) + ChatItem(k, chats[n], now);
      ChatItemsFrom(k, pre, now, x);
      if x in ChatItems(k, chats, now) {
        if x in ChatItems(k, pre, now) {
          var j :| 0 <= j < |pre| && x in ChatItem(k, pre[j], now);
          assert chats[j] == pre[j];
        } else {
          assert x in ChatItem(k, chats[n], now);
        }
      }
      if j :| 0 <= j < |chats| && x in ChatItem(k, chats[j], now) {
        if j < n {
          assert chats[j] == pre[j];
          assert x in ChatItems(k, pre, now);
        } else {
          assert j == n;
        }
      }
    }
  }

  /** Every planned item comes from a file that is neither kept as recent nor
      of a kept or never-cleaned category, or from a transcript that is not
      kept as recent, listed while transcripts are not kept; and conversely
      every such file and transcript is planned. */
  lemma PlanMembership(k: Keep, files: seq<FileInfo>, chats: Result<seq<CleanableConversation>>, now: int, x: CleanItem)
    ensures x in Plan(k, files, chats, now) <==>
      (exists j :: 0 <= j < |files| && x in FileItem(k, files[j], now)) ||
      (!k.chats && chats.Ok? && exists j :: 0 <= j < |chats.value| && x in ChatItem(k, chats.value[j], now))
  {
    FileItemsFrom(k, files, now, x);
    if !k.chats && chats.Ok? {
      ChatItemsFrom(k, chats.value, now, x);
    }
  }

  /** Transcripts are cleaned only when they are not kept and listing them worked. */
  lemma {:induction false} NoChatsWhenKept(k: Keep, files: seq<FileInfo>, chats: Result<seq<CleanableConversation>>, now: int, x: CleanItem)
    requires k.chats || chats.Err?
    requires x in Plan(k, files, chats, now)
    ensures x.reason != "chat"
  {
    PlanMembership(k, files, chats, now, x);
    var j :| 0 <= j < |files| && x in FileItem(k, files[j], now);
  }

  /** Every planned reason is one of the tallied keys. */
  lemma {:induction false} PlanReasons(k: Keep, files: seq<FileInfo>, chats: Result<seq<CleanableConversation>>, now: int)
    ensures forall x :: x in Plan(k, files, chats, now) ==> x.reason in DisplayOrder
  {
    forall x | x in Plan(k, files, chats, now)
      ensures x.reason in DisplayOrder
    {
      PlanMembership(k, files, chats, now, x);
      if j :| 0 <= j < |files| && x in FileItem(k, files[j], now) {
      } else {
        assert x.reason == "chat";
      }
    }
  }

  // ---------------------------------------------------------------------------
  // Tally and deletion
  // ---------------------------------------------------------------------------

  /** `typeCount`: the number of items per reason. */
  function ReasonCounts(items: seq<CleanItem>): map<string, nat>
    decreases |items|
  {
    if items == [] then map[]
    else MapAdd(ReasonCounts(items[..|items| - 1]), items[|items| - 1].reason, 1)
  }

  /** `typeSize`: the bytes per reason. */
  function ReasonSizes(items: seq<CleanItem>): map<string, nat>
    decreases |items|
  {
    if items == [] then map[]
    else MapAdd(ReasonSizes(items[..|items| - 1]), items[|items| - 1].reason, items[|items| - 1].size)
  }

  lemma DisplayOrderDistinct()
    ensures FileScan.Distinct(DisplayOrder)
  {
  }

  /** When every reason is shown, the shown counts add up to the number of
      items and the shown sizes to their total size. */
  lemma {:induction false} TallyTotals(items: seq<CleanItem>)
    requires forall x :: x in items ==> x.reason in DisplayOrder
    ensures FileScan.SumOver(DisplayOrder, ReasonCounts(items)) == |items|
    ensures FileScan.SumOver(DisplayOrder, ReasonSizes(items)) == ItemsSize(items)
    decreases |items|
  {
    if items == [] {
      FileScan.SumOverEmpty(DisplayOrder);
    } else {
      var pre := items[..|items| - 1];
      var x := items[|items| - 1];
      assert x in items;
      assert forall y :: y in pre ==> y in items;
      TallyTotals(pre);
      DisplayOrderDistinct();
      FileScan.SumOverMapAdd(DisplayOrder, ReasonCounts(pre), x.reason, 1);
      FileScan.SumOverMapAdd(DisplayOrder, ReasonSizes(pre), x.reason, x.size);
    }
  }

  /** The items whose removal succeeded (`removals[i]` is the outcome for `items[i]`). */
  function Removed(items: seq<CleanItem>, removals: seq<bool>): seq<CleanItem>
    requires |removals| == |items|
    decreases |items|
  {
    if items == [] then []
    else
      var n := |items| - 1;
      Removed(items[..n], removals[..n]) + (if removals[n] then [items[n]] else [])
  }

  /** The items whose removal failed. */
  function Failed(items: seq<CleanItem>, removals: seq<bool>): seq<CleanItem>
    requires |removals| == |items|
    decreases |items|
  {
    if items == [] then []
    else
      var n := |items| - 1;
      Failed(items[..n], removals[..n]) + (if removals[n] then [] else [items[n]])
  }

  /** Every item is either removed or failed: the counts and the bytes split. */
  lemma {:induction false} RemovalPartition(items: seq<CleanItem>, removals: seq<bool>)
    requires |removals| == |items|
    ensures |Removed(items, removals)| + |Failed(items, removals)| == |items|
    ensures ItemsSize(Removed(items, removals)) + ItemsSize(Failed(items, removals)) == ItemsSize(items)
    decreases |items|
  {
    if items != [] {
      var n := |items| - 1;
      RemovalPartition(items[..n], removals[..n]);
      ItemsSizeSnoc(Removed(items[..n], removals[..n]), items[n]);
      ItemsSizeSnoc(Failed(items[..n], removals[..n]), items[n]);
      var r0, f0 := Removed(items[..n], removals[..n]), Failed(items[..n], removals[..n]);
      if removals[n] {
        assert Failed(items, removals) == f0 + [] && f0 + [] == f0;
      } else {
        assert Removed(items, removals) == r0 + [] && r0 + [] == r0;
      }
    }
  }

  /** `items` and `size` are what the file loop has selected from the first `i` files. */
  predicate FilesSelected(k: Keep, files: seq<FileInfo>, i: nat, now: int, items: seq<CleanItem>, size: nat)
    requires i <= |files|
  {
    items == FileItems(k, files[..i], now) && size == ItemsSize(items)
  }

  lemma FilesSelectedStart(k: Keep, files: seq<FileInfo>, now: int, items: seq<CleanItem>)
    requires items == []
    ensures FilesSelected(k, files, 0, now, items, 0)
  {
    assert files[..0] == [];
  }

  /** One more turn of the file loop. */
  lemma FilesSelectedStep(k: Keep, files: seq<FileInfo>, i: nat, now: int, items: seq<CleanItem>, size: nat, more: seq<CleanItem>)
    requires i < |files| && FilesSelected(k, files, i, now, items, size) && more == FileItem(k, files[i], now)
    ensures more != [] ==> FilesSelected(k, files, i + 1, now, items + more, size + files[i].size)
    ensures more == [] ==> FilesSelected(k, files, i + 1, now, items, size)
  {
    assert files[..i + 1][..i] == files[..i];
    if more != [] {
      ItemsSizeSnoc(items, more[0]);
    } else {
      assert items + more == items;
    }
  }

  /** The transcript loop's state after `j` transcripts. */
  predicate ChatsSelected(k: Keep, items: seq<CleanItem>, chats: seq<CleanableConversation>, j: nat, now: int,
                          toClean: seq<CleanItem>, size: nat)
    requires j <= |chats|
  {
    toClean == items + ChatItems(k, chats[..j], now) && size == ItemsSize(toClean)
  }

  lemma ChatsSelectedStart(k: Keep, items: seq<CleanItem>, chats: seq<CleanableConversation>, now: int,
                           toClean: seq<CleanItem>, size: nat)
    requires toClean == items && size == ItemsSize(items)
    ensures ChatsSelected(k, items, chats, 0, now, toClean, size)
  {
    assert chats[..0] == [];
    assert items + [] == items;
  }

  /** One more turn of the transcript loop. */
  lemma ChatsSelectedStep(k: Keep, items: seq<CleanItem>, chats: seq<CleanableConversation>, j: nat, now: int,
                          toClean: seq<CleanItem>, size: nat, more: seq<CleanItem>)
    requires j < |chats| && ChatsSelected(k, items, chats, j, now, toClean, size) && more == ChatItem(k, chats[j], now)
    ensures more != [] ==> ChatsSelected(k, items, chats, j + 1, now, toClean + more, size + chats[j].size)
    ensures more == [] ==> ChatsSelected(k, items, chats, j + 1, now, toClean, size)
  {
    assert chats[..j + 1][..j] == chats[..j];
    assert ChatItems(k, chats[..j + 1], now) == ChatItems(k, chats[..j], now) + more;
    if more != [] {
      ItemsSizeSnoc(toClean, more[0]);
      assert items + ChatItems(k, chats[..j + 1], now) == toClean + more;
    } else {
      assert ChatItems(k, chats[..j + 1], now) == ChatItems(k, chats[..j], now);
    }
  }

  lemma ItemsSizeSnoc(items: seq<CleanItem>, x: CleanItem)
    ensures ItemsSize(items + [x]) == ItemsSize(items) + x.size
  {
    assert (items + [x])[..|items|] == items;
  }

  /** The outcomes of the first `i + 1` removals. */
  lemma RemovalStep(items: seq<CleanItem>, removals: seq<bool>, i: nat)
    requires |removals| == |items| && i < |items|
    ensures Removed(items[..i + 1], removals[..i + 1]) ==
      Removed(items[..i], removals[..i]) + (if removals[i] then [items[i]] else [])
    ensures Failed(items[..i + 1], removals[..i + 1]) ==
      Failed(items[..i], removals[..i]) + (if removals[i] then [] else [items[i]])
  {
    assert items[..i + 1][..i] == items[..i];
    assert removals[..i + 1][..i] == removals[..i];
  }

  /** How `runClean` ends for the plan `plan`: nothing to do, a dry-run
      preview with its tally, a declined confirmation, or the delete loop's
      counts. */
  function RunOutcome(plan: seq<CleanItem>, dryRun: bool, force: bool, confirmed: bool, removals: seq<bool>): (r: Outcome)
    requires |removals| == |plan|
    ensures r == NothingToClean <==> plan == []
    ensures r.Cleaned? <==> plan != [] && !dryRun && (force || confirmed)
    ensures r.Cleaned? ==> r.cleaned + r.errors == |plan| && r.cleanedSize <= ItemsSize(plan)
    ensures r.Previewed? ==> r.count == |plan| && r.totalSize == ItemsSize(plan)
    ensures plan != [] && dryRun ==> r == Previewed(|plan|, ItemsSize(plan), ReasonCounts(plan), ReasonSizes(plan))
    ensures plan != [] && !dryRun && !force && !confirmed ==> r == Cancelled
    ensures r.Cleaned? ==>
      r.cleaned == |Removed(plan, removals)| &&
      r.cleanedSize == ItemsSize(Removed(plan, removals)) &&
      r.errors == |Failed(plan, removals)|
  {
    if plan == [] then NothingToClean
    else if dryRun then Previewed(|plan|, ItemsSize(plan), ReasonCounts(plan), ReasonSizes(plan))
    else if !force && !confirmed then Cancelled
    else
      RemovalPartition(plan, removals);
      Cleaned(|Removed(plan, removals)|, ItemsSize(Removed(plan, removals)), |Failed(plan, removals)|)
  }

  // ---------------------------------------------------------------------------
  // The command
  // ---------------------------------------------------------------------------

  /** The command's flag variables. */
  class CleanCommand {
    var keepLogs: bool
    var keepCache: bool
    var keepChats: bool
    var keepIndex: bool
    var keepRecent: int
    var dryRun: bool
    var force: bool

    constructor(keep: Keep, dryRun: bool, force: bool)
      ensures Flags() == keep && this.dryRun == dryRun && this.force == force
    {
      keepLogs, keepCache, keepChats, keepIndex, keepRecent := keep.logs, keep.cache, keep.chats, keep.index, keep.recent;
      this.dryRun, this.force := dryRun, force;
    }

    function Flags(): Keep
      reads this
    {
      Keep(keepLogs, keepCache, keepChats, keepIndex, keepRecent)
    }

    /** The configuration fills in the flags not given on the command line. */
    method MergeConfig(changed: Changed, cfg: Config)
      modifies this
      ensures Flags() == Merge(old(Flags()), changed, cfg)
      ensures dryRun == old(dryRun) && force == old(force)
    {
      if !changed.logs {
        keepLogs := cfg.keepLogs;
      }
      if !changed.cache {
        keepCache := cfg.keepCache;
      }
      if !changed.chats {
        keepChats := cfg.keepChats;
      }
      if !changed.index {
        keepIndex := cfg.keepIndex;
      }
      if !changed.recent && cfg.keepRecent > 0 {
        keepRecent := cfg.keepRecent;
      }
    }

    /** The selection loops: `toClean` and `totalSize`. */
    method SelectItems(files: seq<FileInfo>, chats: Result<seq<CleanableConversation>>, now: int)
      returns (toClean: seq<CleanItem>, totalSize: nat)
      ensures toClean == Plan(Flags(), files, chats, now)
      ensures totalSize == ItemsSize(toClean)
    {
      var cutoff := 0;
      if keepRecent > 0 {
        cutoff := now - keepRecent * MsPerDay;
      }
      toClean, totalSize := SelectFiles(files, now, cutoff);
      if !keepChats && chats.Ok? {
        toClean, totalSize := SelectChats(toClean, totalSize, chats.value, now, cutoff);
      } else {
        assert toClean + [] == toClean;
      }
    }

    /** The loop over the scanned files. */
    method SelectFiles(files: seq<FileInfo>, now: int, cutoff: int) returns (toClean: seq<CleanItem>, totalSize: nat)
      requires keepRecent > 0 ==> cutoff == now - keepRecent * MsPerDay
      ensures toClean == FileItems(Flags(), files, now)
      ensures totalSize == ItemsSize(toClean)
    {
      ghost var k := Flags();
      var none: seq<CleanItem> := [];
      toClean, totalSize := none, 0;
      FilesSelectedStart(k, files, now, toClean);
      var i := 0;
      while i < |files|
        invariant 0 <= i <= |files|
        invariant FilesSelected(k, files, i, now, toClean, totalSize)
      {
        var more := SelectFile(files[i], now, cutoff);
        FilesSelectedStep(k, files, i, now, toClean, totalSize, more);
        if more != [] {
          toClean := toClean + more;
          totalSize := totalSize + files[i].size;
        }
        i := i + 1;
      }
      assert files[..i] == files;
    }

    /** One turn of the file loop: skip a recent file, then switch on the category. */
    method SelectFile(f: FileInfo, now: int, cutoff: int) returns (more: seq<CleanItem>)
      requires keepRecent > 0 ==> cutoff == now - keepRecent * MsPerDay
      ensures more == FileItem(Flags(), f, now)
    {
      more := [];
      if keepRecent > 0 && f.modified > cutoff {
        return;
      }
      match f.fileType {
        case TypeTemp => more := [CleanItem(f.path, f.size, "temp")];
        case TypeLog =>
          if !keepLogs {
            more := [CleanItem(f.path, f.size, "log")];
          }
        case TypeCache =>
          if !keepCache {
            more := [CleanItem(f.path, f.size, "cache")];
          }
        case TypeBackup => more := [CleanItem(f.path, f.size, "history")];
        case TypeIndex =>
          if !keepIndex {
            more := [CleanItem(f.path, f.size, "index")];
          }
        case _ =>
      }
    }

    /** The loop over the cleanable transcripts, appending to the file items. */
    method SelectChats(items: seq<CleanItem>, size: nat, chats: seq<CleanableConversation>, now: int, cutoff: int)
      returns (toClean: seq<CleanItem>, totalSize: nat)
      requires keepRecent > 0 ==> cutoff == now - keepRecent * MsPerDay
      requires size == ItemsSize(items)
      ensures toClean == items + ChatItems(Flags(), chats, now)
      ensures totalSize == ItemsSize(toClean)
    {
      ghost var k := Flags();
      toClean, totalSize := items, size;
      ChatsSelectedStart(k, items, chats, now, toClean, totalSize);
      var j := 0;
      while j < |chats|
        invariant 0 <= j <= |chats| && ChatsSelected(k, items, chats, j, now, toClean, totalSize)
      {
        var c := chats[j];
        ghost var more := ChatItem(k, c, now);
        ChatsSelectedStep(k, items, chats, j, now, toClean, totalSize, more);
        if keepRecent > 0 && c.modTime > cutoff {
          assert more == [];
        } else {
          var item := CleanItem(c.path, c.size, "chat");
          assert more == [item];
          toClean := toClean + [item];
          totalSize := totalSize + c.size;
        }
        j := j + 1;
      }
      assert chats[..j] == chats;
    }

    /** The per-reason tally. */
    method Tally(toClean: seq<CleanItem>) returns (typeCount: map<string, nat>, typeSize: map<string, nat>)
      ensures typeCount == ReasonCounts(toClean)
      ensures typeSize == ReasonSizes(toClean)
    {
      typeCount, typeSize := map[], map[];
      var i := 0;
      while i < |toClean|
        invariant 0 <= i <= |toClean|
        invariant typeCount == ReasonCounts(toClean[..i])
        invariant typeSize == ReasonSizes(toClean[..i])
      {
        var item := toClean[i];
        assert toClean[..i + 1][..i] == toClean[..i];
        typeCount := MapAdd(typeCount, item.reason, 1);
        typeSize := MapAdd(typeSize, item.reason, item.size);
        i := i + 1;
      }
      assert toClean[..i] == toClean;
    }

    /** The delete loop: every item is attempted; `removals[i]` is whether
        removing `toClean[i]` succeeded. */
    method DeleteItems(toClean: seq<CleanItem>, removals: seq<bool>) returns (cleaned: nat, cleanedSize: nat, errors: nat)
      requires |removals| == |toClean|
      ensures cleaned == |Removed(toClean, removals)|
      ensures cleanedSize == ItemsSize(Removed(toClean, removals))
      ensures errors == |Failed(toClean, removals)|
      ensures cleaned + errors == |toClean|
    {
      cleaned, cleanedSize, errors := 0, 0, 0;
      var i := 0;
      while i < |toClean|
        invariant 0 <= i <= |toClean|
        invariant cleaned == |Removed(toClean[..i], removals[..i])|
        invariant cleanedSize == ItemsSize(Removed(toClean[..i], removals[..i]))
        invariant errors == |Failed(toClean[..i], removals[..i])|
      {
        RemovalStep(toClean, removals, i);
        if removals[i] {
          ItemsSizeSnoc(Removed(toClean[..i], removals[..i]), toClean[i]);
          cleaned := cleaned + 1;
          cleanedSize := cleanedSize + toClean[i].size;
        } else {
          assert Removed(toClean[..i], removals[..i]) + [] == Removed(toClean[..i], removals[..i]);
          errors := errors + 1;
        }
        i := i + 1;
      }
      assert toClean[..i] == toClean && removals[..i] == removals;
      RemovalPartition(toClean, removals);
    }

    /** `runClean` after the scans: `files` is the file scan, `chats` the
        result of `FindCleanableConversations(0, 0)`, `confirmed` the answer to
        the confirmation prompt and `removals` the outcome of each removal. */
    method Run(changed: Changed, cfg: Config, files: seq<FileInfo>, chats: Result<seq<CleanableConversation>>,
               now: int, confirmed: bool, removals: seq<bool>) returns (outcome: Outcome)
      modifies this
      requires |removals| == |Plan(Merge(Flags(), changed, cfg), files, chats, now)|
      ensures Flags() == Merge(old(Flags()), changed, cfg)
      ensures dryRun == old(dryRun) && force == old(force)
      ensures outcome == RunOutcome(Plan(Flags(), files, chats, now), dryRun, force, confirmed, removals)
    {
      MergeConfig(changed, cfg);
      var toClean, totalSize := SelectItems(files, chats, now);
      if |toClean| == 0 {
        return NothingToClean;
      }
      var typeCount, typeSize := Tally(toClean);
      if dryRun {
        return Previewed(|toClean|, totalSize, typeCount, typeSize);
      }
      if !force && !confirmed {
        return Cancelled;
      }
      var cleaned, cleanedSize, errors := DeleteItems(toClean, removals);
      outcome := Cleaned(cleaned, cleanedSize, errors);
    }
  }

  /** The tally shown for a plan accounts for every planned item and byte. */
  lemma PlanTallied(k: Keep, files: seq<FileInfo>, chats: Result<seq<CleanableConversation>>, now: int)
    ensures FileScan.SumOver(DisplayOrder, ReasonCounts(Plan(k, files, chats, now))) == |Plan(k, files, chats, now)|
    ensures FileScan.SumOver(DisplayOrder, ReasonSizes(Plan(k, files, chats, now))) == ItemsSize(Plan(k, files, chats, now))
  {
    PlanReasons(k, files, chats, now);
    TallyTotals(Plan(k, files, chats, now));
  }

}
