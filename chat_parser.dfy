/** The transcript parser (internal/scanner/chat_parser.go): counts the
    messages of a decoded `.chat` file by role and builds its record. JSON
    decoding is outside the model: the decoded file is an input, `None` when
    decoding fails. */
module ChatParser {
  import opened Wrappers
  import opened Clock
  import opened Types

  /** The size and modification time `os.Stat` reports. */
  datatype FileStat = FileStat(size: nat, modTime: int)

  /** How many messages have exactly the role `role`. */
  function RoleCount(messages: seq<ChatMessage>, role: string): (n: nat)
    ensures n <= |messages|
  {
    if messages == [] then 0
    else RoleCount(messages[..|messages| - 1], role) + (if messages[|messages| - 1].role == role then 1 else 0)
  }

  predicate KnownRole(m: ChatMessage) {
    m.role == "human" || m.role == "bot" || m.role == "tool"
  }

  /** `CountMessages`: one pass, one counter per known role; other roles are
      ignored. */
  method CountMessages(messages: seq<ChatMessage>) returns (human: nat, bot: nat, tool: nat)
    ensures human == RoleCount(messages, "human")
    ensures bot == RoleCount(messages, "bot")
    ensures tool == RoleCount(messages, "tool")
  {
    human, bot, tool := 0, 0, 0;
    var i := 0;
    while i < |messages|
      invariant 0 <= i <= |messages|
      invariant human == RoleCount(messages[..i], "human")
      invariant bot == RoleCount(messages[..i], "bot")
      invariant tool == RoleCount(messages[..i], "tool")
    {
      assert messages[..i + 1][..i] == messages[..i];
      var role := messages[i].role;
      if role == "human" {
        human := human + 1;
      } else if role == "bot" {
        bot := bot + 1;
      } else if role == "tool" {
        tool := tool + 1;
      }
      i := i + 1;
    }
    assert messages[..i] == messages;
  }

  /** The three counters never exceed the number of messages, and they add up
      to it exactly when every message has one of the three known roles. */
  lemma {:induction false} RoleCountsCover(messages: seq<ChatMessage>)
    ensures RoleCount(messages, "human") + RoleCount(messages, "bot") + RoleCount(messages, "tool") <= |messages|
    ensures RoleCount(messages, "human") + RoleCount(messages, "bot") + RoleCount(messages, "tool") == |messages|
      <==> forall i :: 0 <= i < |messages| ==> KnownRole(messages[i])
    decreases |messages|
  {
    if messages != [] {
      var pre := messages[..|messages| - 1];
      RoleCountsCover(pre);
      assert forall i :: 0 <= i < |pre| ==> pre[i] == messages[i];
    }
  }

  /** Appending one message adds one to the count of its own role only. */
  lemma RoleCountSnoc(messages: seq<ChatMessage>, m: ChatMessage)
    ensures forall role :: RoleCount(messages + [m], role) == RoleCount(messages, role) + (if m.role == role then 1 else 0)
  {
    assert (messages + [m])[..|messages|] == messages;
  }

  /** A conversation of human, bot, human, bot and tool messages has two human,
      two bot and one tool message. */
  lemma AlternatingConversation(h: string, b: string, t: string)
    ensures var chat := [ChatMessage("human", h), ChatMessage("bot", b), ChatMessage("human", h),
                         ChatMessage("bot", b), ChatMessage("tool", t)];
      |chat| == 5 && RoleCount(chat, "human") == 2 && RoleCount(chat, "bot") == 2 && RoleCount(chat, "tool") == 1
  {
    var mh, mb, mt := ChatMessage("human", h), ChatMessage("bot", b), ChatMessage("tool", t);
    RoleCountSnoc([], mh);
    RoleCountSnoc([mh], mb);
    RoleCountSnoc([mh, mb], mh);
    RoleCountSnoc([mh, mb, mh], mb);
    RoleCountSnoc([mh, mb, mh, mb], mt);
    assert [] + [mh] == [mh];
    assert [mh] + [mb] == [mh, mb];
    assert [mh, mb] + [mh] == [mh, mb, mh];
    assert [mh, mb, mh] + [mb] == [mh, mb, mh, mb];
    assert [mh, mb, mh, mb] + [mt] == [mh, mb, mh, mb, mt];
  }

  /** `time.UnixMilli(ms)` for a positive timestamp, Go's zero time otherwise. */
  function TimeOf(ms: int): (t: int)
    ensures ms > 0 ==> t == ms
    ensures ms <= 0 ==> t == ZeroTime
  {
    if ms > 0 then ms else ZeroTime
  }

  /** `ExtractMetadata`: the start and end times of a conversation. */
  function ExtractMetadata(md: ChatMetadata): (r: (int, int))
    ensures r.0 == TimeOf(md.startTime) && r.1 == TimeOf(md.endTime)
  {
    (TimeOf(md.startTime), TimeOf(md.endTime))
  }

  /** A converted time is never before the zero time, and an end stamp later
      than a positive start stamp converts to a later time. */
  lemma ExtractMetadataOrder(md: ChatMetadata)
    ensures ExtractMetadata(md).0 >= ZeroTime && ExtractMetadata(md).1 >= ZeroTime
    ensures md.endTime > md.startTime > 0 ==> ExtractMetadata(md).1 > ExtractMetadata(md).0
    ensures md.startTime <= 0 ==> ExtractMetadata(md).0 == ZeroTime
  {
  }

  /** The record built for a decoded transcript: its role counters never
      exceed its message count. */
  function Record(path: string, size: nat, modTime: int, chat: ChatFile): (info: ChatFileInfo)
    ensures info.humanMessages + info.botMessages + info.toolMessages <= info.messageCount
    ensures info.path == path && info.size == size && info.modTime == modTime
  {
    RoleCountsCover(chat.chat);
    ChatFileInfo(path, size, modTime, |chat.chat|,
      RoleCount(chat.chat, "human"), RoleCount(chat.chat, "bot"), RoleCount(chat.chat, "tool"), chat.metadata)
  }

  /** What `ParseChatFile` yields for a file with the given stat and contents. */
  function ParseOutcome(path: string, stat: Option<FileStat>, contents: Option<Option<ChatFile>>): Option<ChatFileInfo> {
    if stat.Some? && contents.Some? && contents.value.Some? then
      Some(Record(path, stat.value.size, stat.value.modTime, contents.value.value))
    else None
  }

  /** `ParseChatFileFromBytes`: `decoded` is the outcome of decoding the bytes. */
  method ParseChatFileFromBytes(decoded: Option<ChatFile>, path: string, size: nat, modTime: int)
    returns (r: Result<ChatFileInfo>)
    ensures decoded.None? <==> r.Err?
    ensures decoded.Some? ==>
      var info := r.value;
      info.path == path && info.size == size && info.modTime == modTime &&
      info.messageCount == |decoded.value.chat| &&
      info.humanMessages == RoleCount(decoded.value.chat, "human") &&
      info.botMessages == RoleCount(decoded.value.chat, "bot") &&
      info.toolMessages == RoleCount(decoded.value.chat, "tool") &&
      info.metadata == decoded.value.metadata &&
      info == Record(path, size, modTime, decoded.value)
  {
    if decoded.None? {
      return Err("解析 JSON 失败");
    }
    var chatFile := decoded.value;
    var human, bot, tool := CountMessages(chatFile.chat);
    r := Ok(ChatFileInfo(path, size, modTime, |chatFile.chat|, human, bot, tool, chatFile.metadata));
  }

  /** `ParseChatFile`: `stat` is `None` when the file cannot be stat-ed,
      `contents` is `None` when it cannot be read and otherwise holds the
      decoding outcome. */
  method ParseChatFile(path: string, stat: Option<FileStat>, contents: Option<Option<ChatFile>>)
    returns (r: Result<ChatFileInfo>)
    ensures stat.None? ==> r == Err("获取文件信息失败")
    ensures stat.Some? && contents.None? ==> r == Err("读取文件失败")
    ensures r.Ok? <==> stat.Some? && contents.Some? && contents.value.Some?
    ensures r.Ok? ==>
      var chat := contents.value.value;
      r.value.path == path && r.value.size == stat.value.size && r.value.modTime == stat.value.modTime &&
      r.value.messageCount == |chat.chat| && r.value.metadata == chat.metadata &&
      r.value.humanMessages == RoleCount(chat.chat, "human") &&
      r.value.botMessages == RoleCount(chat.chat, "bot") &&
      r.value.toolMessages == RoleCount(chat.chat, "tool")
    ensures r.Ok? <==> ParseOutcome(path, stat, contents).Some?
    ensures r.Ok? ==> r.value == ParseOutcome(path, stat, contents).value
  {
    if stat.None? {
      return Err("获取文件信息失败");
    }
    if contents.None? {
      return Err("读取文件失败");
    }
    r := ParseChatFileFromBytes(contents.value, path, stat.value.size, stat.value.modTime);
  }
}
