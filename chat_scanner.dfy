/** The conversation scanner (internal/scanner/chat_scanner.go): walks the
    workspace directories under the agent's storage directory, aggregates the
    parsed transcripts per workspace and overall, reports progress, and picks
    the conversations that may be cleaned. Directory listings are inputs. */
module ChatScanner {
  import opened Wrappers
  import opened Strings
  import opened Clock
  import opened Types
  import opened ChatParser

  // ---------------------------------------------------------------------------
  // The directory tree as data
  // ---------------------------------------------------------------------------

  /** One entry of a workspace directory: `stat` is what `os.Stat` reports
      (`None` when it fails), `contents` the outcome of reading and decoding
      it (`None` when it cannot be read, `Some(None)` when decoding fails). */
  datatype ChatEntry = ChatEntry(
    name: string,
    isDir: bool,
    stat: Option<FileStat>,
    contents: Option<Option<ChatFile>>)

  /** One entry of the storage directory; `listing` is `None` when the entry
      cannot be listed as a directory. */
  datatype BaseEntry = BaseEntry(name: string, isDir: bool, listing: Option<seq<ChatEntry>>)

  /** Directory names under the storage directory that are not workspaces. */
  const SpecialDirs: set<string> := {
    "index", "dev_data", "workspace-sessions", ".migrations", ".diffs", ".utils", "default"
  }

  /** A storage-directory entry the scans treat as a workspace. */
  predicate IsWorkspaceDir(e: BaseEntry) {
    e.isDir && !HasPrefix(e.name, ".") && e.name !in SpecialDirs
  }

  /** A workspace entry the scans treat as a transcript (case-sensitive suffix). */
  predicate IsChatEntry(c: ChatEntry) {
    !c.isDir && HasSuffix(c.name, ".chat")
  }

  /** `IsChatFile`: the case-insensitive test. */
  predicate IsChatFile(filename: string) {
    HasSuffix(ToLower(filename), ".chat")
  }

  /** Every name the scans accept passes `IsChatFile`. */
  lemma ScanSuffixIsStricter(name: string)
    requires HasSuffix(name, ".chat")
    ensures IsChatFile(name)
  {
    var k := |name| - 5;
    assert ToLower(name)[k..] == ".chat" by {
      forall j | 0 <= j < 5 ensures ToLower(name)[k..][j] == ".chat"[j] {
        assert name[k + j] == ".chat"[j];
      }
    }
  }

  /** Not conversely: an upper-case `.CHAT` suffix passes `IsChatFile` and is
      skipped by the scans. */
  lemma UpperCaseChatSkipped()
    ensures IsChatFile("x.CHAT") && !HasSuffix("x.CHAT", ".chat")
  {
    var n := "x.CHAT";
    assert ToLower(n)[1..] == ".chat";
    assert n[2] != 'c';
  }

  /** The examples of `IsChatFile`: the empty name and "chat" are not
      transcripts, ".chat" is. */
  lemma IsChatFileExamples()
    ensures !IsChatFile("") && !IsChatFile("chat") && IsChatFile(".chat")
  {
    assert ToLower("") == "";
    assert |ToLower("chat")| == 4;
    assert ToLower(".chat") == ".chat";
  }

  // ---------------------------------------------------------------------------
  // What one workspace holds
  // ---------------------------------------------------------------------------

  /** The record a workspace entry contributes: a transcript that parses. */
  function EntryOutcome(path: string, c: ChatEntry): Option<ChatFileInfo> {
    if IsChatEntry(c) then ParseOutcome(Join(path, c.name), c.stat, c.contents) else None
  }

  /** The records of the transcripts of one workspace that parse, in order. */
  function ParsedChats(path: string, files: seq<ChatEntry>): (r: seq<ChatFileInfo>)
    ensures |r| <= |files|
  {
    if files == [] then []
    else
      var outcome := EntryOutcome(path, files[|files| - 1]);
      ParsedChats(path, files[..|files| - 1]) + (if outcome.Some? then [outcome.value] else [])
  }

  /** `ParsedChats` over one more entry of a listing. */
  lemma ParsedChatsStep(path: string, files: seq<ChatEntry>, j: nat)
    requires j < |files|
    ensures ParsedChats(path, files[..j + 1]) == ParsedChats(path, files[..j]) +
      (if EntryOutcome(path, files[j]).Some? then [EntryOutcome(path, files[j]).value] else [])
  {
    assert files[..j + 1][..j] == files[..j];
  }

  function SumMessages(infos: seq<ChatFileInfo>): nat {
    if infos == [] then 0 else SumMessages(infos[..|infos| - 1]) + infos[|infos| - 1].messageCount
  }

  function SumSize(infos: seq<ChatFileInfo>): nat {
    if infos == [] then 0 else SumSize(infos[..|infos| - 1]) + infos[|infos| - 1].size
  }

  /** The latest modification time, starting from Go's zero time. */
  function LastModified(infos: seq<ChatFileInfo>): (m: int)
    ensures m >= ZeroTime
  {
    if infos == [] then ZeroTime
    else
      var m0 := LastModified(infos[..|infos| - 1]);
      var t := infos[|infos| - 1].modTime;
      if t > m0 then t else m0
  }

  /** The latest modification time is that of some transcript (or the zero
      time) and no transcript is later. */
  lemma {:induction false} LastModifiedIsLatest(infos: seq<ChatFileInfo>)
    ensures forall i :: 0 <= i < |infos| ==> infos[i].modTime <= LastModified(infos)
    ensures LastModified(infos) == ZeroTime || exists i :: 0 <= i < |infos| && infos[i].modTime == LastModified(infos)
    decreases |infos|
  {
    if infos != [] {
      var pre := infos[..|infos| - 1];
      LastModifiedIsLatest(pre);
      assert forall i :: 0 <= i < |pre| ==> pre[i] == infos[i];
    }
  }

  /** The counters `count`, `messages`, `size` and `last` hold the totals of `parsed`. */
  predicate Summarizes(parsed: seq<ChatFileInfo>, count: nat, messages: nat, size: nat, last: int) {
    count == |parsed| && messages == SumMessages(parsed) && size == SumSize(parsed) && last == LastModified(parsed)
  }

  /** The statistics of a workspace whose transcripts parse to `infos`. */
  function Aggregate(id: string, path: string, infos: seq<ChatFileInfo>): WorkspaceStats {
    WorkspaceStats(id, path, |infos|, SumMessages(infos), SumSize(infos), LastModified(infos))
  }

  // ---------------------------------------------------------------------------
  // What the whole storage directory holds
  // ---------------------------------------------------------------------------

  /** The listing of a workspace directory the scans read, if any. */
  predicate Listed(e: BaseEntry) {
    IsWorkspaceDir(e) && e.listing.Some?
  }

  function WorkspaceDirCount(entries: seq<BaseEntry>): nat {
    if entries == [] then 0
    else WorkspaceDirCount(entries[..|entries| - 1]) + (if IsWorkspaceDir(entries[|entries| - 1]) then 1 else 0)
  }

  /** The parsed transcripts of one storage-directory entry. */
  function EntryChats(base: string, e: BaseEntry): seq<ChatFileInfo> {
    if Listed(e) then ParsedChats(Join(base, e.name), e.listing.value) else []
  }

  /** All parsed transcripts of all workspaces, in scan order. */
  function AllChats(base: string, entries: seq<BaseEntry>): seq<ChatFileInfo> {
    if entries == [] then []
    else AllChats(base, entries[..|entries| - 1]) + EntryChats(base, entries[|entries| - 1])
  }

  /** The statistics of one storage-directory entry that the scan keeps. */
  function EntryStats(base: string, e: BaseEntry): (r: seq<WorkspaceStats>)
    ensures |r| <= 1
    ensures r != [] ==> r[0].conversationCount > 0 && r[0].workspaceId == e.name
  {
    var chats := EntryChats(base, e);
    if Listed(e) && |chats| > 0 then [Aggregate(e.name, Join(base, e.name), chats)] else []
  }

  /** The workspaces `ScanWorkspaces` returns: one per listed workspace
      directory with at least one parsed transcript, in directory order. */
  function Kept(base: string, entries: seq<BaseEntry>): seq<WorkspaceStats> {
    if entries == [] then []
    else Kept(base, entries[..|entries| - 1]) + EntryStats(base, entries[|entries| - 1])
  }

  /** Every kept workspace has at least one conversation. */
  lemma {:induction false} KeptHaveConversations(base: string, entries: seq<BaseEntry>)
    ensures forall i :: 0 <= i < |Kept(base, entries)| ==> Kept(base, entries)[i].conversationCount > 0
    decreases |entries|
  {
    if entries != [] {
      var pre := Kept(base, entries[..|entries| - 1]);
      KeptHaveConversations(base, entries[..|entries| - 1]);
      var k := Kept(base, entries);
      assert forall i :: 0 <= i < |pre| ==> k[i] == pre[i];
    }
  }

  function SumConversations(ws: seq<WorkspaceStats>): nat {
    if ws == [] then 0 else SumConversations(ws[..|ws| - 1]) + ws[|ws| - 1].conversationCount
  }

  function SumWsMessages(ws: seq<WorkspaceStats>): nat {
    if ws == [] then 0 else SumWsMessages(ws[..|ws| - 1]) + ws[|ws| - 1].totalMessages
  }

  function SumWsSize(ws: seq<WorkspaceStats>): nat {
    if ws == [] then 0 else SumWsSize(ws[..|ws| - 1]) + ws[|ws| - 1].totalSize
  }

  function LatestActivity(ws: seq<WorkspaceStats>): (m: int)
    ensures m >= ZeroTime
  {
    if ws == [] then ZeroTime
    else
      var m0 := LatestActivity(ws[..|ws| - 1]);
      if ws[|ws| - 1].lastActivity > m0 then ws[|ws| - 1].lastActivity else m0
  }

  function HumanTotal(infos: seq<ChatFileInfo>): nat {
    if infos == [] then 0 else HumanTotal(infos[..|infos| - 1]) + infos[|infos| - 1].humanMessages
  }

  function BotTotal(infos: seq<ChatFileInfo>): nat {
    if infos == [] then 0 else BotTotal(infos[..|infos| - 1]) + infos[|infos| - 1].botMessages
  }

  function ToolTotal(infos: seq<ChatFileInfo>): nat {
    if infos == [] then 0 else ToolTotal(infos[..|infos| - 1]) + infos[|infos| - 1].toolMessages
  }

  lemma {:induction false} SumsAppend(a: seq<ChatFileInfo>, b: seq<ChatFileInfo>)
    ensures SumMessages(a + b) == SumMessages(a) + SumMessages(b)
    ensures SumSize(a + b) == SumSize(a) + SumSize(b)
    ensures HumanTotal(a + b) == HumanTotal(a) + HumanTotal(b)
    ensures BotTotal(a + b) == BotTotal(a) + BotTotal(b)
    ensures ToolTotal(a + b) == ToolTotal(a) + ToolTotal(b)
    decreases |b|
  {
    if b == [] {
      assert a + b == a;
    } else {
      assert (a + b)[..|a + b| - 1] == a + b[..|b| - 1];
      SumsAppend(a, b[..|b| - 1]);
    }
  }

  lemma {:induction false} WsSumsAppend(a: seq<WorkspaceStats>, b: seq<WorkspaceStats>)
    ensures SumConversations(a + b) == SumConversations(a) + SumConversations(b)
    ensures SumWsMessages(a + b) == SumWsMessages(a) + SumWsMessages(b)
    ensures SumWsSize(a + b) == SumWsSize(a) + SumWsSize(b)
    decreases |b|
  {
    if b == [] {
      assert a + b == a;
    } else {
      assert (a + b)[..|a + b| - 1] == a + b[..|b| - 1];
      WsSumsAppend(a, b[..|b| - 1]);
    }
  }

  /** `human`, `bot` and `tool` are the role counters summed over `infos`. */
  predicate RoleTotals(infos: seq<ChatFileInfo>, human: nat, bot: nat, tool: nat) {
    human == HumanTotal(infos) && bot == BotTotal(infos) && tool == ToolTotal(infos)
  }

  lemma RoleTotalsAppend(a: seq<ChatFileInfo>, b: seq<ChatFileInfo>, h0: nat, b0: nat, t0: nat, h: nat, bt: nat, t: nat)
    requires RoleTotals(a, h0, b0, t0) && RoleTotals(b, h, bt, t)
    ensures RoleTotals(a + b, h0 + h, b0 + bt, t0 + t)
  {
    SumsAppend(a, b);
  }

  /** The sums over a sequence with one more element. */
  lemma ChatSumsSnoc(a: seq<ChatFileInfo>, x: ChatFileInfo)
    ensures SumMessages(a + [x]) == SumMessages(a) + x.messageCount
    ensures SumSize(a + [x]) == SumSize(a) + x.size
    ensures HumanTotal(a + [x]) == HumanTotal(a) + x.humanMessages
    ensures BotTotal(a + [x]) == BotTotal(a) + x.botMessages
    ensures ToolTotal(a + [x]) == ToolTotal(a) + x.toolMessages
  {
    assert (a + [x])[..|a|] == a;
  }

  /** Counting one more transcript keeps the counters in step. */
  lemma SummarizesSnoc(parsed: seq<ChatFileInfo>, count: nat, messages: nat, size: nat, last: int, x: ChatFileInfo)
    requires Summarizes(parsed, count, messages, size, last)
    ensures Summarizes(parsed + [x], count + 1, messages + x.messageCount, size + x.size,
                       if x.modTime > last then x.modTime else last)
  {
    ChatSumsSnoc(parsed, x);
    LastModifiedSnoc(parsed, x);
  }

  lemma LastModifiedSnoc(a: seq<ChatFileInfo>, x: ChatFileInfo)
    ensures LastModified(a + [x]) == if x.modTime > LastModified(a) then x.modTime else LastModified(a)
  {
    assert (a + [x])[..|a|] == a;
  }

  /** The scan functions over one more storage-directory entry. */
  lemma EntriesStep(base: string, entries: seq<BaseEntry>, i: nat)
    requires i < |entries|
    ensures AllChats(base, entries[..i + 1]) == AllChats(base, entries[..i]) + EntryChats(base, entries[i])
    ensures Kept(base, entries[..i + 1]) == Kept(base, entries[..i]) + EntryStats(base, entries[i])
    ensures WorkspaceDirCount(entries[..i + 1]) == WorkspaceDirCount(entries[..i]) + (if IsWorkspaceDir(entries[i]) then 1 else 0)
  {
    assert entries[..i + 1][..i] == entries[..i];
  }

  /** A kept entry accounts for all of its parsed transcripts. */
  lemma EntryCovered(base: string, e: BaseEntry)
    ensures SumConversations(EntryStats(base, e)) == |EntryChats(base, e)|
    ensures SumWsMessages(EntryStats(base, e)) == SumMessages(EntryChats(base, e))
    ensures SumWsSize(EntryStats(base, e)) == SumSize(EntryChats(base, e))
  {
    var st := EntryStats(base, e);
    if st != [] {
      assert st[..0] == [];
    } else {
      assert EntryChats(base, e) == [];
    }
  }

  /** The kept workspaces account for every parsed transcript: dropping the
      workspaces without transcripts loses no conversation, message or byte. */
  lemma {:induction false} KeptCoversAllChats(base: string, entries: seq<BaseEntry>)
    ensures SumConversations(Kept(base, entries)) == |AllChats(base, entries)|
    ensures SumWsMessages(Kept(base, entries)) == SumMessages(AllChats(base, entries))
    ensures SumWsSize(Kept(base, entries)) == SumSize(AllChats(base, entries))
    decreases |entries|
  {
    if entries != [] {
      var pre := entries[..|entries| - 1];
      var e := entries[|entries| - 1];
      KeptCoversAllChats(base, pre);
      SumsAppend(AllChats(base, pre), EntryChats(base, e));
      WsSumsAppend(Kept(base, pre), EntryStats(base, e));
      EntryCovered(base, e);
    }
  }

  /** Over the parsed transcripts of a workspace, the role counters never
      exceed the messages. */
  lemma {:induction false} ParsedRolesBound(path: string, files: seq<ChatEntry>)
    ensures var p := ParsedChats(path, files);
      HumanTotal(p) + BotTotal(p) + ToolTotal(p) <= SumMessages(p)
    decreases |files|
  {
    if files != [] {
      var n := |files| - 1;
      ParsedRolesBound(path, files[..n]);
      ParsedChatsStep(path, files, n);
      assert files[..n + 1] == files;
      var o := EntryOutcome(path, files[n]);
      if o.Some? {
        ChatSumsSnoc(ParsedChats(path, files[..n]), o.value);
      } else {
        assert ParsedChats(path, files) == ParsedChats(path, files[..n]);
      }
    }
  }

  /** Over every parsed transcript of the storage directory, the role counters
      never exceed the messages. */
  lemma {:induction false} RoleTotalsBound(base: string, entries: seq<BaseEntry>)
    ensures var all := AllChats(base, entries);
      HumanTotal(all) + BotTotal(all) + ToolTotal(all) <= SumMessages(all)
    decreases |entries|
  {
    if entries != [] {
      var e := entries[|entries| - 1];
      RoleTotalsBound(base, entries[..|entries| - 1]);
      SumsAppend(AllChats(base, entries[..|entries| - 1]), EntryChats(base, e));
      if Listed(e) {
        ParsedRolesBound(Join(base, e.name), e.listing.value);
      }
    }
  }

  // ---------------------------------------------------------------------------
  // Choosing conversations to clean
  // ---------------------------------------------------------------------------

  /** The cutoff of `FindCleanableConversations`: `ageDays` days before `now`,
      or the zero time when `ageDays` is not positive. */
  function Cutoff(ageDays: int, now: int): int {
    if ageDays > 0 then DaysBefore(now, ageDays) else ZeroTime
  }

  /** The reason a transcript with the given stat is cleanable, if it is. */
  function Reason(ageDays: int, sizeBytes: int, now: int, st: FileStat): (r: Option<string>)
    ensures ageDays == 0 ==> r == Some("all")
    ensures ageDays != 0 ==> (r == Some("old") <==> st.modTime < Cutoff(ageDays, now))
    ensures ageDays != 0 ==> (r == Some("large") <==>
      !(st.modTime < Cutoff(ageDays, now)) && sizeBytes > 0 && st.size > sizeBytes)
    ensures r.Some? ==> r.value in {"all", "old", "large"}
    ensures ageDays != 0 ==> (r.None? <==>
      !(st.modTime < Cutoff(ageDays, now)) && !(sizeBytes > 0 && st.size > sizeBytes))
  {
    if ageDays == 0 then Some("all")
    else if st.modTime < Cutoff(ageDays, now) then Some("old")
    else if sizeBytes > 0 && st.size > sizeBytes then Some("large")
    else None
  }

  /** The cleanable transcripts of one workspace directory, in order. */
  function CleanableIn(path: string, files: seq<ChatEntry>, ageDays: int, sizeBytes: int, now: int)
    : (r: seq<CleanableConversation>)
    ensures |r| <= |files|
  {
    if files == [] then []
    else
      var c := files[|files| - 1];
      var rest := CleanableIn(path, files[..|files| - 1], ageDays, sizeBytes, now);
      if IsChatEntry(c) && c.stat.Some? && Reason(ageDays, sizeBytes, now, c.stat.value).Some? then
        rest + [CleanableConversation(Join(path, c.name), c.stat.value.size, c.stat.value.modTime,
                                      Reason(ageDays, sizeBytes, now, c.stat.value).value)]
      else rest
  }

  /** How many transcripts of a workspace directory can be stat-ed. */
  function StatableChats(files: seq<ChatEntry>): nat {
    if files == [] then 0
    else StatableChats(files[..|files| - 1]) + (var c := files[|files| - 1]; if IsChatEntry(c) && c.stat.Some? then 1 else 0)
  }

  /** With `ageDays == 0` every transcript that can be stat-ed is listed, and
      never more than those. */
  lemma {:induction false} AllModeListsEverything(path: string, files: seq<ChatEntry>, sizeBytes: int, now: int)
    ensures |CleanableIn(path, files, 0, sizeBytes, now)| == StatableChats(files)
    ensures forall ageDays :: |CleanableIn(path, files, ageDays, sizeBytes, now)| <= StatableChats(files)
    decreases |files|
  {
    if files != [] {
      AllModeListsEverything(path, files[..|files| - 1], sizeBytes, now);
    }
  }

  /** The cleanable transcripts of the whole storage directory. */
  function Cleanable(base: string, entries: seq<BaseEntry>, ageDays: int, sizeBytes: int, now: int)
    : seq<CleanableConversation>
  {
    if entries == [] then []
    else
      var e := entries[|entries| - 1];
      Cleanable(base, entries[..|entries| - 1], ageDays, sizeBytes, now) +
      (if Listed(e) then CleanableIn(Join(base, e.name), e.listing.value, ageDays, sizeBytes, now) else [])
  }

  /** A listed conversation carries the reason its stat calls for. */
  predicate HasReason(ageDays: int, sizeBytes: int, now: int, x: CleanableConversation) {
    Reason(ageDays, sizeBytes, now, FileStat(x.size, x.modTime)) == Some(x.reason)
  }

  /** Every conversation listed in a workspace carries the reason its stat
      calls for. */
  lemma {:induction false} CleanableInReasons(path: string, files: seq<ChatEntry>, ageDays: int, sizeBytes: int, now: int)
    ensures forall i :: 0 <= i < |CleanableIn(path, files, ageDays, sizeBytes, now)| ==>
      HasReason(ageDays, sizeBytes, now, CleanableIn(path, files, ageDays, sizeBytes, now)[i])
    decreases |files|
  {
    if files != [] {
      var pre := CleanableIn(path, files[..|files| - 1], ageDays, sizeBytes, now);
      CleanableInReasons(path, files[..|files| - 1], ageDays, sizeBytes, now);
      var c := files[|files| - 1];
      if IsChatEntry(c) && c.stat.Some? && Reason(ageDays, sizeBytes, now, c.stat.value).Some? {
        var st := c.stat.value;
        var x := CleanableConversation(Join(path, c.name), st.size, st.modTime, Reason(ageDays, sizeBytes, now, st).value);
        assert FileStat(x.size, x.modTime) == st;
        assert HasReason(ageDays, sizeBytes, now, x);
        assert CleanableIn(path, files, ageDays, sizeBytes, now) == pre + [x];
      } else {
        assert CleanableIn(path, files, ageDays, sizeBytes, now) == pre;
      }
    }
  }

  /** Every listed conversation carries the reason its stat calls for: "all"
      exactly when `ageDays` is 0, otherwise "old" before the cutoff and
      "large" past a positive size limit. */
  lemma {:induction false} CleanableReasons(base: string, entries: seq<BaseEntry>, ageDays: int, sizeBytes: int, now: int)
    ensures forall i :: 0 <= i < |Cleanable(base, entries, ageDays, sizeBytes, now)| ==>
      HasReason(ageDays, sizeBytes, now, Cleanable(base, entries, ageDays, sizeBytes, now)[i])
    decreases |entries|
  {
    if entries != [] {
      var e := entries[|entries| - 1];
      var pre := Cleanable(base, entries[..|entries| - 1], ageDays, sizeBytes, now);
      CleanableReasons(base, entries[..|entries| - 1], ageDays, sizeBytes, now);
      var more := if Listed(e) then CleanableIn(Join(base, e.name), e.listing.value, ageDays, sizeBytes, now) else [];
      if Listed(e) {
        CleanableInReasons(Join(base, e.name), e.listing.value, ageDays, sizeBytes, now);
      }
      var r := Cleanable(base, entries, ageDays, sizeBytes, now);
      assert r == pre + more;
      forall i | 0 <= i < |r| ensures HasReason(ageDays, sizeBytes, now, r[i]) {
        if i < |pre| {
          assert r[i] == pre[i];
        } else {
          assert r[i] == more[i - |pre|];
        }
      }
    }
  }

  /** A workspace entry is a transcript that can be stat-ed and has a reason
      to be cleaned. */
  predicate Qualifies(c: ChatEntry, ageDays: int, sizeBytes: int, now: int) {
    IsChatEntry(c) && c.stat.Some? && Reason(ageDays, sizeBytes, now, c.stat.value).Some?
  }

  /** The record listed for a qualifying transcript of the workspace at `path`. */
  function Tagged(path: string, c: ChatEntry, ageDays: int, sizeBytes: int, now: int): CleanableConversation
    requires Qualifies(c, ageDays, sizeBytes, now)
  {
    CleanableConversation(Join(path, c.name), c.stat.value.size, c.stat.value.modTime,
                          Reason(ageDays, sizeBytes, now, c.stat.value).value)
  }

  /** The positions of the qualifying transcripts of a workspace, in order. */
  function Qualifying(files: seq<ChatEntry>, ageDays: int, sizeBytes: int, now: int): seq<nat> {
    if files == [] then []
    else
      Qualifying(files[..|files| - 1], ageDays, sizeBytes, now) +
      (if Qualifies(files[|files| - 1], ageDays, sizeBytes, now) then [|files| - 1] else [])
  }

  /** `r` lists, in order, the tagged records of the qualifying positions `q`
      of `files`: positions strictly increase (so no transcript is listed
      twice), and every qualifying transcript has its position among them. */
  predicate ListsExactly(path: string, files: seq<ChatEntry>, ageDays: int, sizeBytes: int, now: int,
                         r: seq<CleanableConversation>, q: seq<nat>)
  {
    |q| == |r| &&
    (forall k :: 0 <= k < |q| ==>
      q[k] < |files| && Qualifies(files[q[k]], ageDays, sizeBytes, now) &&
      r[k] == Tagged(path, files[q[k]], ageDays, sizeBytes, now)) &&
    (forall k, l :: 0 <= k < l < |q| ==> q[k] < q[l]) &&
    (forall j :: 0 <= j < |files| && Qualifies(files[j], ageDays, sizeBytes, now) ==> j in q)
  }

  /** The workspace's list is exactly its qualifying transcripts, in order. */
  lemma {:induction false} CleanableInExact(path: string, files: seq<ChatEntry>, ageDays: int, sizeBytes: int, now: int)
    ensures ListsExactly(path, files, ageDays, sizeBytes, now,
      CleanableIn(path, files, ageDays, sizeBytes, now), Qualifying(files, ageDays, sizeBytes, now))
    decreases |files|
  {
    if files != [] {
      var n := |files| - 1;
      var front := files[..n];
      CleanableInExact(path, front, ageDays, sizeBytes, now);
      var r0 := CleanableIn(path, front, ageDays, sizeBytes, now);
      var q0 := Qualifying(front, ageDays, sizeBytes, now);
      var r := CleanableIn(path, files, ageDays, sizeBytes, now);
      var q := Qualifying(files, ageDays, sizeBytes, now);
      if Qualifies(files[n], ageDays, sizeBytes, now) {
        assert r == r0 + [Tagged(path, files[n], ageDays, sizeBytes, now)];
        assert q == q0 + [n];
      } else {
        assert r == r0 && q == q0;
      }
      ExactStep(path, files, ageDays, sizeBytes, now, r0, q0, r, q);
    }
  }

  /** `ListsExactly` carries over from all transcripts but the last to all of
      them, with the last one appended when it qualifies. */
  lemma ExactStep(path: string, files: seq<ChatEntry>, ageDays: int, sizeBytes: int, now: int,
                  r0: seq<CleanableConversation>, q0: seq<nat>, r: seq<CleanableConversation>, q: seq<nat>)
    requires files != []
    requires ListsExactly(path, files[..|files| - 1], ageDays, sizeBytes, now, r0, q0)
    requires var n := |files| - 1;
      if Qualifies(files[n], ageDays, sizeBytes, now)
      then r == r0 + [Tagged(path, files[n], ageDays, sizeBytes, now)] && q == q0 + [n]
      else r == r0 && q == q0
    ensures ListsExactly(path, files, ageDays, sizeBytes, now, r, q)
  {
    var n := |files| - 1;
    var front := files[..n];
    forall k | 0 <= k < |q0| ensures q0[k] < n && files[q0[k]] == front[q0[k]] {
    }
    forall k | 0 <= k < |q|
      ensures q[k] < |files| && Qualifies(files[q[k]], ageDays, sizeBytes, now) &&
        r[k] == Tagged(path, files[q[k]], ageDays, sizeBytes, now)
    {
      if k < |q0| {
        assert q[k] == q0[k] && r[k] == r0[k];
      }
    }
    forall j | 0 <= j < |files| && Qualifies(files[j], ageDays, sizeBytes, now)
      ensures j in q
    {
      if j < n {
        assert files[j] == front[j];
        assert j in q0;
      }
    }
  }

  /** Completeness of the cleanable list: every qualifying transcript of every
      listed workspace appears in it, with its path, size, time and reason. */
  lemma {:induction false} CleanableComplete(base: string, entries: seq<BaseEntry>, ageDays: int, sizeBytes: int, now: int,
                                             i: nat, j: nat)
    requires i < |entries| && Listed(entries[i])
    requires j < |entries[i].listing.value|
    requires Qualifies(entries[i].listing.value[j], ageDays, sizeBytes, now)
    ensures Tagged(Join(base, entries[i].name), entries[i].listing.value[j], ageDays, sizeBytes, now)
      in Cleanable(base, entries, ageDays, sizeBytes, now)
    decreases |entries|
  {
    var n := |entries| - 1;
    var x := Tagged(Join(base, entries[i].name), entries[i].listing.value[j], ageDays, sizeBytes, now);
    var pre := Cleanable(base, entries[..n], ageDays, sizeBytes, now);
    var e := entries[n];
    var more := if Listed(e) then CleanableIn(Join(base, e.name), e.listing.value, ageDays, sizeBytes, now) else [];
    assert Cleanable(base, entries, ageDays, sizeBytes, now) == pre + more;
    if i < n {
      assert entries[..n][i] == entries[i];
      CleanableComplete(base, entries[..n], ageDays, sizeBytes, now, i, j);
      assert x in pre;
    } else {
      assert i == n;
      var files := e.listing.value;
      CleanableInExact(Join(base, e.name), files, ageDays, sizeBytes, now);
      var q := Qualifying(files, ageDays, sizeBytes, now);
      assert j in q;
      var k :| 0 <= k < |q| && q[k] == j;
      assert more[k] == x;
    }
  }

  /** `CleanableIn` over one more transcript of the workspace. */
  lemma CleanableInStep(path: string, files: seq<ChatEntry>, j: nat, ageDays: int, sizeBytes: int, now: int)
    requires j < |files|
    ensures CleanableIn(path, files[..j + 1], ageDays, sizeBytes, now) ==
      CleanableIn(path, files[..j], ageDays, sizeBytes, now) +
      (if Qualifies(files[j], ageDays, sizeBytes, now) then [Tagged(path, files[j], ageDays, sizeBytes, now)] else [])
  {
    assert files[..j + 1][..j] == files[..j];
    assert files[..j + 1][j] == files[j];
  }

  /** `Cleanable` over one more storage-directory entry. */
  lemma CleanableStep(base: string, entries: seq<BaseEntry>, i: nat, ageDays: int, sizeBytes: int, now: int)
    requires i < |entries|
    ensures Cleanable(base, entries[..i + 1], ageDays, sizeBytes, now) ==
      Cleanable(base, entries[..i], ageDays, sizeBytes, now) +
      (if Listed(entries[i]) then CleanableIn(Join(base, entries[i].name), entries[i].listing.value, ageDays, sizeBytes, now) else [])
  {
    assert entries[..i + 1][..i] == entries[..i];
  }

  function SumCleanable(cs: seq<CleanableConversation>): nat {
    if cs == [] then 0 else SumCleanable(cs[..|cs| - 1]) + cs[|cs| - 1].size
  }

  /** The savings of two lists taken together are the sum of their savings. */
  lemma {:induction false} SumCleanableAppend(a: seq<CleanableConversation>, b: seq<CleanableConversation>)
    ensures SumCleanable(a + b) == SumCleanable(a) + SumCleanable(b)
    decreases |b|
  {
    if b == [] {
      assert a + b == a;
    } else {
      assert (a + b)[..|a + b| - 1] == a + b[..|b| - 1];
      SumCleanableAppend(a, b[..|b| - 1]);
    }
  }

  /** The "chat" entry of a per-type map after `count` transcripts adding up to
      `amount` were recorded; untouched when there were none. */
  function AddChats(m: map<string, nat>, count: nat, amount: nat): (r: map<string, nat>)
    ensures count > 0 ==> "chat" in r && r["chat"] == (if "chat" in m then m["chat"] else 0) + amount
    ensures count == 0 ==> r == m
  {
    if count == 0 then m else MapAdd(m, "chat", amount)
  }

  /** Recording one more transcript of `extra` bytes. */
  lemma AddChatsStep(m: map<string, nat>, count: nat, amount: nat, extra: nat)
    requires count == 0 ==> amount == 0
    ensures AddChats(m, count + 1, amount + extra) == MapAdd(AddChats(m, count, amount), "chat", extra)
  {
    if count > 0 {
      var c := if "chat" in m then m["chat"] else 0;
      var m1 := MapAdd(m, "chat", amount);
      assert m1 == m["chat" := c + amount];
      assert MapAdd(m1, "chat", extra) == m1["chat" := c + amount + extra];
      assert m1["chat" := c + amount + extra] == m["chat" := c + amount + extra];
    }
  }

  /** The snapshot that closes a scan: complete, in the "chats" phase, with the
      totals of the whole scan. */
  predicate FinalSnapshot(s: Snapshot, dirs: nat, files: nat, bytes: nat) {
    s.isComplete && s.phase == "chats" && s.scannedDirs == dirs && s.scannedFiles == files && s.totalSize == bytes
  }

  /** What `GetConversationStats` reports for a storage directory: the kept
      workspaces, totals that account for every parsed transcript, the average
      (zero without conversations) and role totals bounded by the messages. */
  predicate StatsOf(base: string, entries: seq<BaseEntry>, s: ConversationStats) {
    var ws := Kept(base, entries);
    var all := AllChats(base, entries);
    s.workspaceBreakdown == ws &&
    s.totalConversations == SumConversations(ws) == |all| &&
    s.totalMessages == SumWsMessages(ws) == SumMessages(all) &&
    s.totalSize == SumWsSize(ws) == SumSize(all) &&
    s.lastActivity == LatestActivity(ws) &&
    (s.totalConversations > 0 ==> s.avgMessagesPerConv == s.totalMessages as real / s.totalConversations as real) &&
    (s.totalConversations == 0 ==> s.avgMessagesPerConv == 0.0) &&
    s.humanMessages == HumanTotal(all) && s.botMessages == BotTotal(all) && s.toolMessages == ToolTotal(all) &&
    s.humanMessages + s.botMessages + s.toolMessages <= s.totalMessages
  }

  /** The progress values `snap`, `counts` and `sizes` after the transcripts
      `parsed` were scanned from `start` (with per-type maps `counts0` and
      `sizes0`), reporting `snaps`: one snapshot per transcript, the counters
      advanced by their number and size, and the "chat" entries likewise. */
  predicate Tracked(start: Snapshot, counts0: map<string, nat>, sizes0: map<string, nat>,
                    snap: Snapshot, counts: map<string, nat>, sizes: map<string, nat>,
                    parsed: seq<ChatFileInfo>, snaps: seq<Snapshot>)
  {
    Advanced(start, snap, |parsed|, 0, SumSize(parsed)) &&
    counts == AddChats(counts0, |parsed|, |parsed|) &&
    sizes == AddChats(sizes0, |parsed|, SumSize(parsed)) &&
    |snaps| == |parsed| &&
    ProgressLog(start, snaps, snap, start.isComplete)
  }

  /** The record `info` taken into the list of parsed transcripts, if any. */
  function Opt(info: Option<ChatFileInfo>): seq<ChatFileInfo> {
    if info.Some? then [info.value] else []
  }

  /** Two successive recordings into a per-type map make one. */
  lemma AddChatsCompose(m: map<string, nat>, n1: nat, a1: nat, n2: nat, a2: nat)
    requires n1 == 0 ==> a1 == 0
    requires n2 == 0 ==> a2 == 0
    ensures AddChats(AddChats(m, n1, a1), n2, a2) == AddChats(m, n1 + n2, a1 + a2)
  {
    if n1 > 0 && n2 > 0 {
      var c := if "chat" in m then m["chat"] else 0;
      var m1 := MapAdd(m, "chat", a1);
      assert m1 == m["chat" := c + a1];
      assert MapAdd(m1, "chat", a2) == m1["chat" := c + a1 + a2];
      assert m1["chat" := c + a1 + a2] == m["chat" := c + a1 + a2];
    }
  }

  /** Scanning one more entry whose outcome is `info` extends a tracked scan. */
  lemma TrackedStep(start: Snapshot, counts0: map<string, nat>, sizes0: map<string, nat>,
                    mid: Snapshot, midCounts: map<string, nat>, midSizes: map<string, nat>,
                    parsed: seq<ChatFileInfo>, snaps: seq<Snapshot>, info: Option<ChatFileInfo>,
                    more: seq<Snapshot>, end: Snapshot, endCounts: map<string, nat>, endSizes: map<string, nat>)
    requires Tracked(start, counts0, sizes0, mid, midCounts, midSizes, parsed, snaps)
    requires Tracked(mid, midCounts, midSizes, end, endCounts, endSizes, Opt(info), more)
    ensures Tracked(start, counts0, sizes0, end, endCounts, endSizes, parsed + Opt(info), snaps + more)
  {
    var o := Opt(info);
    ProgressLogConcat(start, snaps, mid, more, end, start.isComplete);
    SumsAppend(parsed, o);
    AdvancedCompose(start, mid, end, |parsed|, 0, SumSize(parsed), |o|, 0, SumSize(o));
    assert |parsed| == 0 ==> SumSize(parsed) == 0;
    assert |o| == 0 ==> SumSize(o) == 0;
    AddChatsCompose(counts0, |parsed|, |parsed|, |o|, |o|);
    AddChatsCompose(sizes0, |parsed|, SumSize(parsed), |o|, SumSize(o));
  }

  // ---------------------------------------------------------------------------
  // The scanner
  // ---------------------------------------------------------------------------

  class ChatScanner {
    var basePath: string

    /** `NewChatScanner`: no storage directory chosen yet. */
    constructor ()
      ensures basePath == ""
    {
      basePath := "";
    }

    /** `SetBasePath`. */
    method SetBasePath(path: string)
      modifies this
      ensures basePath == path
    {
      basePath := path;
    }

    /** One entry of a workspace directory in `scanSingleWorkspaceWithProgress`:
        a transcript that parses advances `progress` by one file and its size
        and reports one snapshot. */
    method VisitChat(path: string, c: ChatEntry, progress: ScanProgress?)
      returns (info: Option<ChatFileInfo>, snaps: seq<Snapshot>)
      modifies progress
      ensures info == EntryOutcome(path, c)
      ensures progress == null ==> snaps == []
      ensures progress != null ==>
        Tracked(old(progress.Snap()), old(progress.typeCounts), old(progress.typeSizes),
                progress.Snap(), progress.typeCounts, progress.typeSizes, Opt(info), snaps)
    {
      info, snaps := None, [];
      if c.isDir || !HasSuffix(c.name, ".chat") {
        if progress != null {
          ProgressLogEmpty(progress.Snap(), progress.Snap(), progress.isComplete);
        }
        return;
      }
      var chatPath := Join(path, c.name);
      var parsed := ParseChatFile(chatPath, c.stat, c.contents);
      if parsed.Err? {
        if progress != null {
          ProgressLogEmpty(progress.Snap(), progress.Snap(), progress.isComplete);
        }
        return;
      }
      info := Some(parsed.value);
      if progress != null {
        ghost var start := progress.Snap();
        ProgressLogEmpty(start, start, start.isComplete);
        progress.scannedFiles := progress.scannedFiles + 1;
        progress.totalSize := progress.totalSize + parsed.value.size;
        progress.currentPath := chatPath;
        progress.typeCounts := MapAdd(progress.typeCounts, "chat", 1);
        progress.typeSizes := MapAdd(progress.typeSizes, "chat", parsed.value.size);
        snaps := [progress.Snap()];
        ProgressLogSnoc(start, [], start, progress.Snap(), start.isComplete);
        assert [] + [progress.Snap()] == snaps;
        assert SumSize([parsed.value]) == parsed.value.size by { ChatSumsSnoc([], parsed.value); }
      }
    }

    /** `scanSingleWorkspaceWithProgress`: `files` is the workspace listing
        (`None` when it cannot be read, which is an error). The statistics
        aggregate the transcripts that parse; when `progress` is present each
        of them advances it and reports one snapshot. */
    method ScanSingleWorkspace(id: string, path: string, files: Option<seq<ChatEntry>>, progress: ScanProgress?)
      returns (stats: Option<WorkspaceStats>, snaps: seq<Snapshot>)
      modifies progress
      ensures files.None? <==> stats.None?
      ensures files.Some? ==> stats == Some(Aggregate(id, path, ParsedChats(path, files.value)))
      ensures progress == null ==> snaps == []
      ensures progress != null ==>
        Tracked(old(progress.Snap()), old(progress.typeCounts), old(progress.typeSizes),
                progress.Snap(), progress.typeCounts, progress.typeSizes,
                if files.Some? then ParsedChats(path, files.value) else [], snaps)
    {
      if files.None? {
        if progress != null {
          ProgressLogEmpty(progress.Snap(), progress.Snap(), progress.isComplete);
        }
        return None, [];
      }
      var count, messages, size, last;
      count, messages, size, last, snaps := ScanChats(path, files.value, progress);
      stats := Some(WorkspaceStats(id, path, count, messages, size, last));
    }

    /** The loop of `scanSingleWorkspaceWithProgress` over a readable
        workspace listing: the number, messages, bytes and latest time of the
        transcripts that parse. */
    method ScanChats(path: string, entries: seq<ChatEntry>, progress: ScanProgress?)
      returns (count: nat, messages: nat, size: nat, last: int, snaps: seq<Snapshot>)
      modifies progress
      ensures Summarizes(ParsedChats(path, entries), count, messages, size, last)
      ensures progress == null ==> snaps == []
      ensures progress != null ==>
        Tracked(old(progress.Snap()), old(progress.typeCounts), old(progress.typeSizes),
                progress.Snap(), progress.typeCounts, progress.typeSizes, ParsedChats(path, entries), snaps)
    {
      snaps := [];
      ghost var start := if progress != null then progress.Snap() else Snapshot(0, 0, 0, "", "", false);
      ghost var counts0 := if progress != null then progress.typeCounts else map[];
      ghost var sizes0 := if progress != null then progress.typeSizes else map[];
      if progress != null {
        ProgressLogEmpty(start, start, start.isComplete);
      }
      count, messages, size, last := 0, 0, 0, ZeroTime;
      ghost var parsed: seq<ChatFileInfo> := [];
      var i := 0;
      while i < |entries|
        invariant 0 <= i <= |entries|
        invariant parsed == ParsedChats(path, entries[..i])
        invariant Summarizes(parsed, count, messages, size, last)
        invariant progress == null ==> snaps == []
        invariant progress != null ==>
          Tracked(start, counts0, sizes0, progress.Snap(), progress.typeCounts, progress.typeSizes, parsed, snaps)
      {
        ParsedChatsStep(path, entries, i);
        ghost var mid := if progress != null then progress.Snap() else start;
        ghost var midCounts := if progress != null then progress.typeCounts else map[];
        ghost var midSizes := if progress != null then progress.typeSizes else map[];
        var info, more := VisitChat(path, entries[i], progress);
        if progress != null {
          TrackedStep(start, counts0, sizes0, mid, midCounts, midSizes, parsed, snaps, info, more,
                      progress.Snap(), progress.typeCounts, progress.typeSizes);
        }
        if info.None? {
          assert parsed + [] == parsed;
        } else {
          SummarizesSnoc(parsed, count, messages, size, last, info.value);
          count := count + 1;
          messages := messages + info.value.messageCount;
          size := size + info.value.size;
          if info.value.modTime > last {
            last := info.value.modTime;
          }
        }
        parsed := parsed + Opt(info);
        snaps := snaps + more;
        i := i + 1;
      }
      assert entries[..i] == entries;
    }

    /** One entry of the storage directory in `ScanWorkspacesWithProgress`: a
        workspace directory advances the directory counter and reports a
        snapshot, then its transcripts are scanned; it is kept only when at
        least one of them parses. */
    method VisitWorkspace(e: BaseEntry, progress: ScanProgress?)
      returns (kept: seq<WorkspaceStats>, snaps: seq<Snapshot>)
      modifies progress
      ensures kept == EntryStats(basePath, e)
      ensures progress == null ==> snaps == []
      ensures progress != null ==>
        Advanced(old(progress.Snap()), progress.Snap(), |EntryChats(basePath, e)|,
                 if IsWorkspaceDir(e) then 1 else 0, SumSize(EntryChats(basePath, e))) &&
        ProgressLog(old(progress.Snap()), snaps, progress.Snap(), old(progress.isComplete))
    {
      kept, snaps := [], [];
      if !e.isDir || HasPrefix(e.name, ".") || e.name in SpecialDirs {
        if progress != null {
          ProgressLogEmpty(progress.Snap(), progress.Snap(), progress.isComplete);
        }
        return;
      }
      var workspacePath := Join(basePath, e.name);
      ghost var start := if progress != null then progress.Snap() else Snapshot(0, 0, 0, "", "", false);
      if progress != null {
        ProgressLogEmpty(start, start, start.isComplete);
        progress.scannedDirs := progress.scannedDirs + 1;
        progress.currentPath := workspacePath;
        snaps := [progress.Snap()];
        ProgressLogSnoc(start, [], start, progress.Snap(), start.isComplete);
        assert [] + [progress.Snap()] == snaps;
      }
      ghost var mid := if progress != null then progress.Snap() else start;
      var stats, more := ScanSingleWorkspace(e.name, workspacePath, e.listing, progress);
      if progress != null {
        ProgressLogConcat(start, snaps, mid, more, progress.Snap(), start.isComplete);
      }
      snaps := snaps + more;
      if stats.Some? && stats.value.conversationCount > 0 {
        kept := [stats.value];
      }
    }

    /** The workspace loop of `ScanWorkspacesWithProgress` over the storage
        directory's entries; `progress` is present iff a callback was given. */
    method ScanEntries(entries: seq<BaseEntry>, progress: ScanProgress?)
      returns (workspaces: seq<WorkspaceStats>, snaps: seq<Snapshot>)
      modifies progress
      ensures workspaces == Kept(basePath, entries)
      ensures progress == null ==> snaps == []
      ensures progress != null ==>
        Advanced(old(progress.Snap()), progress.Snap(), |AllChats(basePath, entries)|,
                 WorkspaceDirCount(entries), SumSize(AllChats(basePath, entries))) &&
        ProgressLog(old(progress.Snap()), snaps, progress.Snap(), old(progress.isComplete))
    {
      workspaces, snaps := [], [];
      ghost var start := if progress != null then progress.Snap() else Snapshot(0, 0, 0, "", "", false);
      if progress != null {
        ProgressLogEmpty(start, start, start.isComplete);
      }
      var i := 0;
      while i < |entries|
        invariant 0 <= i <= |entries|
        invariant workspaces == Kept(basePath, entries[..i])
        invariant progress == null ==> snaps == []
        invariant progress != null ==>
          start == old(progress.Snap()) &&
          Advanced(start, progress.Snap(), |AllChats(basePath, entries[..i])|,
                   WorkspaceDirCount(entries[..i]), SumSize(AllChats(basePath, entries[..i]))) &&
          ProgressLog(start, snaps, progress.Snap(), start.isComplete)
      {
        EntriesStep(basePath, entries, i);
        SumsAppend(AllChats(basePath, entries[..i]), EntryChats(basePath, entries[i]));
        ghost var mid := if progress != null then progress.Snap() else start;
        var kept, more := VisitWorkspace(entries[i], progress);
        if progress != null {
          ProgressLogConcat(start, snaps, mid, more, progress.Snap(), start.isComplete);
        }
        workspaces := workspaces + kept;
        snaps := snaps + more;
        i := i + 1;
      }
      assert entries[..i] == entries;
    }

    /** `ScanWorkspacesWithProgress`: `listing` is the storage directory's
        listing, `None` when it cannot be located or read; `hasCallback` says
        whether a progress callback was given, and `snaps` are the values it
        receives, in order: their counters never go back, exactly the last is
        marked complete, and it holds the totals of the whole scan. */
    method ScanWorkspacesWithProgress(listing: Option<seq<BaseEntry>>, hasCallback: bool)
      returns (r: Result<seq<WorkspaceStats>>, snaps: seq<Snapshot>)
      ensures listing.None? ==> r.Err? && snaps == []
      ensures listing.Some? ==> r == Ok(Kept(basePath, listing.value))
      ensures !hasCallback ==> snaps == []
      ensures hasCallback && listing.Some? ==>
        WellFormedProgress(snaps) &&
        FinalSnapshot(snaps[|snaps| - 1], WorkspaceDirCount(listing.value),
                      |AllChats(basePath, listing.value)|, SumSize(AllChats(basePath, listing.value)))
    {
      if listing.None? {
        return Err("读取目录失败"), [];
      }
      var progress: ScanProgress? := null;
      if hasCallback {
        progress := new ScanProgress();
        progress.phase := "chats";
      }
      var workspaces;
      workspaces, snaps := ScanEntries(listing.value, progress);
      if progress != null {
        ghost var end := progress.Snap();
        progress.isComplete := true;
        ProgressLogClose(Snapshot(0, 0, 0, "", "chats", false), snaps, end, progress.Snap());
        snaps := snaps + [progress.Snap()];
      }
      r := Ok(workspaces);
    }

    /** The role counters of the parsed transcripts of one workspace. */
    method CountWorkspace(path: string, files: seq<ChatEntry>) returns (human: nat, bot: nat, tool: nat)
      ensures human == HumanTotal(ParsedChats(path, files))
      ensures bot == BotTotal(ParsedChats(path, files))
      ensures tool == ToolTotal(ParsedChats(path, files))
    {
      human, bot, tool := 0, 0, 0;
      var j := 0;
      while j < |files|
        invariant 0 <= j <= |files|
        invariant human == HumanTotal(ParsedChats(path, files[..j]))
        invariant bot == BotTotal(ParsedChats(path, files[..j]))
        invariant tool == ToolTotal(ParsedChats(path, files[..j]))
      {
        var c := files[j];
        ParsedChatsStep(path, files, j);
        var info, _ := VisitChat(path, c, null);
        if info.None? {
          assert ParsedChats(path, files[..j + 1]) == ParsedChats(path, files[..j]);
        } else {
          ChatSumsSnoc(ParsedChats(path, files[..j]), info.value);
          human := human + info.value.humanMessages;
          bot := bot + info.value.botMessages;
          tool := tool + info.value.toolMessages;
        }
        j := j + 1;
      }
      assert files[..j] == files;
    }

    /** `countMessageTypes`: a second pass over the same directories summing
        the role counters of every parsed transcript. */
    method CountMessageTypes(listing: Option<seq<BaseEntry>>) returns (human: nat, bot: nat, tool: nat)
      ensures listing.None? ==> human == 0 && bot == 0 && tool == 0
      ensures listing.Some? ==>
        human == HumanTotal(AllChats(basePath, listing.value)) &&
        bot == BotTotal(AllChats(basePath, listing.value)) &&
        tool == ToolTotal(AllChats(basePath, listing.value))
    {
      human, bot, tool := 0, 0, 0;
      if listing.None? {
        return;
      }
      var entries := listing.value;
      var i := 0;
      while i < |entries|
        invariant 0 <= i <= |entries|
        invariant RoleTotals(AllChats(basePath, entries[..i]), human, bot, tool)
      {
        var e := entries[i];
        EntriesStep(basePath, entries, i);
        if e.isDir && !HasPrefix(e.name, ".") && e.name !in SpecialDirs && e.listing.Some? {
          var h, b, t := CountWorkspace(Join(basePath, e.name), e.listing.value);
          RoleTotalsAppend(AllChats(basePath, entries[..i]), EntryChats(basePath, e), human, bot, tool, h, b, t);
          human, bot, tool := human + h, bot + b, tool + t;
        } else {
          RoleTotalsAppend(AllChats(basePath, entries[..i]), EntryChats(basePath, e), human, bot, tool, 0, 0, 0);
        }
        i := i + 1;
      }
      assert entries[..i] == entries;
    }

    /** The totals `GetConversationStats` accumulates over the scanned workspaces. */
    method SumWorkspaces(workspaces: seq<WorkspaceStats>) returns (conversations: nat, messages: nat, size: nat, last: int)
      ensures conversations == SumConversations(workspaces)
      ensures messages == SumWsMessages(workspaces)
      ensures size == SumWsSize(workspaces)
      ensures last == LatestActivity(workspaces)
    {
      conversations, messages, size, last := 0, 0, 0, ZeroTime;
      var i := 0;
      while i < |workspaces|
        invariant 0 <= i <= |workspaces|
        invariant conversations == SumConversations(workspaces[..i])
        invariant messages == SumWsMessages(workspaces[..i])
        invariant size == SumWsSize(workspaces[..i])
        invariant last == LatestActivity(workspaces[..i])
      {
        var ws := workspaces[i];
        assert workspaces[..i + 1][..i] == workspaces[..i];
        assert workspaces[..i + 1][i] == ws;
        conversations := conversations + ws.conversationCount;
        messages := messages + ws.totalMessages;
        size := size + ws.totalSize;
        if ws.lastActivity > last {
          last := ws.lastActivity;
        }
        i := i + 1;
      }
      assert workspaces[..i] == workspaces;
    }

    /** `GetConversationStats`: the scan's workspaces, their totals, the average
        number of messages per conversation and the role totals. */
    method GetConversationStats(listing: Option<seq<BaseEntry>>) returns (r: Result<ConversationStats>)
      ensures listing.None? <==> r.Err?
      ensures listing.Some? ==> StatsOf(basePath, listing.value, r.value)
    {
      var scanned, _ := ScanWorkspacesWithProgress(listing, false);
      if scanned.Err? {
        return Err(scanned.msg);
      }
      var workspaces := scanned.value;
      var conversations, messages, size, last := SumWorkspaces(workspaces);
      var avg := 0.0;
      if conversations > 0 {
        avg := messages as real / conversations as real;
      }
      var human, bot, tool := CountMessageTypes(listing);
      KeptCoversAllChats(basePath, listing.value);
      RoleTotalsBound(basePath, listing.value);
      r := Ok(ConversationStats(conversations, messages, size, human, bot, tool, avg, workspaces, last));
    }

    /** The transcripts of one workspace directory that `FindCleanableConversations` picks. */
    method CleanableInWorkspace(path: string, files: seq<ChatEntry>, ageDays: int, sizeBytes: int, now: int)
      returns (cleanable: seq<CleanableConversation>)
      ensures cleanable == CleanableIn(path, files, ageDays, sizeBytes, now)
    {
      var cutoff := ZeroTime;
      if ageDays > 0 {
        cutoff := DaysBefore(now, ageDays);
      }
      cleanable := [];
      var j := 0;
      while j < |files|
        invariant 0 <= j <= |files|
        invariant cleanable == CleanableIn(path, files[..j], ageDays, sizeBytes, now)
      {
        var c := files[j];
        CleanableInStep(path, files, j, ageDays, sizeBytes, now);
        if !c.isDir && HasSuffix(c.name, ".chat") && c.stat.Some? {
          var st := c.stat.value;
          assert cutoff == Cutoff(ageDays, now);
          var chatPath := Join(path, c.name);
          if ageDays == 0 {
            cleanable := cleanable + [CleanableConversation(chatPath, st.size, st.modTime, "all")];
          } else if st.modTime < cutoff {
            cleanable := cleanable + [CleanableConversation(chatPath, st.size, st.modTime, "old")];
          } else if sizeBytes > 0 && st.size > sizeBytes {
            cleanable := cleanable + [CleanableConversation(chatPath, st.size, st.modTime, "large")];
          }
        }
        j := j + 1;
      }
      assert files[..j] == files;
    }

    /** `FindCleanableConversations`: every transcript that can be stat-ed is
        tagged "all" when `ageDays` is 0, otherwise "old" when modified before
        the cutoff, otherwise "large" when a positive `sizeBytes` is exceeded. */
    method FindCleanable(listing: Option<seq<BaseEntry>>, ageDays: int, sizeBytes: int, now: int)
      returns (r: Result<seq<CleanableConversation>>)
      ensures listing.None? <==> r.Err?
      ensures listing.Some? ==> r.value == Cleanable(basePath, listing.value, ageDays, sizeBytes, now)
    {
      if listing.None? {
        return Err("读取目录失败");
      }
      var entries := listing.value;
      var cleanable := [];
      var i := 0;
      while i < |entries|
        invariant 0 <= i <= |entries|
        invariant cleanable == Cleanable(basePath, entries[..i], ageDays, sizeBytes, now)
      {
        var e := entries[i];
        CleanableStep(basePath, entries, i, ageDays, sizeBytes, now);
        if e.isDir && !HasPrefix(e.name, ".") && e.name !in SpecialDirs && e.listing.Some? {
          var more := CleanableInWorkspace(Join(basePath, e.name), e.listing.value, ageDays, sizeBytes, now);
          cleanable := cleanable + more;
        }
        i := i + 1;
      }
      assert entries[..i] == entries;
      r := Ok(cleanable);
    }

    /** `CalculateSpaceSavings`: the total size of the given conversations. */
    method CalculateSpaceSavings(cleanable: seq<CleanableConversation>) returns (total: nat)
      ensures total == SumCleanable(cleanable)
      ensures cleanable == [] ==> total == 0
    {
      total := 0;
      var i := 0;
      while i < |cleanable|
        invariant 0 <= i <= |cleanable|
        invariant total == SumCleanable(cleanable[..i])
      {
        assert cleanable[..i + 1][..i] == cleanable[..i];
        total := total + cleanable[i].size;
        i := i + 1;
      }
      assert cleanable[..i] == cleanable;
    }
  }
}
