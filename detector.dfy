/** The storage detector (internal/storage/detector.go): the ordered file
    classifier, the directory-size walk, the storage-root check and the unit
    choice of `FormatSize`. */
module Detector {
  import opened Types
  import opened Strings

  // ---------------------------------------------------------------------------
  // Classification
  // ---------------------------------------------------------------------------

  const DatabaseExts: set<string> := {".db", ".sqlite", ".sqlite3", ".vscdb"}
  const StructuredExts: set<string> := {".json", ".xml", ".yaml", ".yml"}
  const ConfigNames: set<string> := {"config.json", "settings.json", "mcp.json"}
  const ImageExts: set<string> := {".jpg", ".jpeg", ".png", ".gif", ".webp"}
  const ArchiveExts: set<string> := {".zip", ".tar", ".gz"}

  /** The category `DetectFileTypes` gives a regular file: `ext` and `name` are
      lower-cased, the `Cache`/`CachedData`/`Crashpad`/`History` tests look at
      the raw path, and the first matching case of the switch wins. */
  function Classify(path: string, baseName: string): FileType {
    var ext := ToLower(Ext(path));
    var name := ToLower(baseName);
    if ext in DatabaseExts then TypeDatabase
    else if ext == ".chat" then TypeDatabase
    else if ext in StructuredExts then
      (if name in ConfigNames then TypeConfig
       else if IsSubstring("session", name) then TypeDatabase
       else TypeConfig)
    else if ext == ".log" || name == "log" || IsSubstring(".log", name) then TypeLog
    else if ext == ".tmp" || ext == ".temp" || name == "temp" then TypeTemp
    else if IsSubstring("cache", name) || IsSubstring("Cache", path) || IsSubstring("CachedData", path) then TypeCache
    else if IsSubstring("Crashpad", path) then TypeTemp
    else if IsSubstring("History", path) then TypeBackup
    else if ext in ImageExts then TypeImage
    else if ext in ArchiveExts || IsSubstring("backup", name) then TypeBackup
    else TypeUnknown
  }

  // The same decision written as data: an ordered table of guarded rows, each
  // guard a conjunction of clauses and each clause a disjunction of atomic tests.

  datatype Atom =
    | ExtIs(ext: string)          // lower-cased extension equals
    | NameIs(lname: string)       // lower-cased base name equals
    | NameHas(part: string)       // lower-cased base name contains
    | PathHas(raw: string)        // raw path contains (case-sensitive)

  datatype Row = Row(guard: seq<seq<Atom>>, category: FileType)

  predicate AtomHolds(a: Atom, path: string, baseName: string) {
    match a
    case ExtIs(e) => ToLower(Ext(path)) == e
    case NameIs(n) => ToLower(baseName) == n
    case NameHas(p) => IsSubstring(p, ToLower(baseName))
    case PathHas(p) => IsSubstring(p, path)
  }

  predicate AnyHolds(clause: seq<Atom>, path: string, baseName: string) {
    exists a :: a in clause && AtomHolds(a, path, baseName)
  }

  predicate RowMatches(r: Row, path: string, baseName: string) {
    forall c :: c in r.guard ==> AnyHolds(c, path, baseName)
  }

  /** The category of the first row, from position `k` on, whose guard holds;
      `TypeUnknown` when none does. */
  function FirstMatch(rows: seq<Row>, k: nat, path: string, baseName: string): FileType
    decreases |rows| - k
  {
    if k >= |rows| then TypeUnknown
    else if RowMatches(rows[k], path, baseName) then rows[k].category
    else FirstMatch(rows, k + 1, path, baseName)
  }

  const StructuredClause: seq<Atom> := [ExtIs(".json"), ExtIs(".xml"), ExtIs(".yaml"), ExtIs(".yml")]

  /** The classifier's switch, case by case. */
  const RuleTable: seq<Row> := [
    Row([[ExtIs(".db"), ExtIs(".sqlite"), ExtIs(".sqlite3"), ExtIs(".vscdb")]], TypeDatabase),
    Row([[ExtIs(".chat")]], TypeDatabase),
    Row([StructuredClause, [NameIs("config.json"), NameIs("settings.json"), NameIs("mcp.json")]], TypeConfig),
    Row([StructuredClause, [NameHas("session")]], TypeDatabase),
    Row([StructuredClause], TypeConfig),
    Row([[ExtIs(".log"), NameIs("log"), NameHas(".log")]], TypeLog),
    Row([[ExtIs(".tmp"), ExtIs(".temp"), NameIs("temp")]], TypeTemp),
    Row([[NameHas("cache"), PathHas("Cache"), PathHas("CachedData")]], TypeCache),
    Row([[PathHas("Crashpad")]], TypeTemp),
    Row([[PathHas("History")]], TypeBackup),
    Row([[ExtIs(".jpg"), ExtIs(".jpeg"), ExtIs(".png"), ExtIs(".gif"), ExtIs(".webp")]], TypeImage),
    Row([[ExtIs(".zip"), ExtIs(".tar"), ExtIs(".gz"), NameHas("backup")]], TypeBackup)
  ]

  /** A one-clause guard matches iff one of its atoms holds. */
  lemma SingleClause(r: Row, path: string, baseName: string)
    requires |r.guard| == 1
    ensures RowMatches(r, path, baseName) <==> AnyHolds(r.guard[0], path, baseName)
  {
    assert forall c :: c in r.guard <==> c == r.guard[0];
  }

  /** A two-clause guard matches iff both clauses do. */
  lemma TwoClauses(r: Row, path: string, baseName: string)
    requires |r.guard| == 2
    ensures RowMatches(r, path, baseName) <==>
      AnyHolds(r.guard[0], path, baseName) && AnyHolds(r.guard[1], path, baseName)
  {
    assert forall c :: c in r.guard <==> c == r.guard[0] || c == r.guard[1];
  }

  /** A clause of extension tests holds iff the lower-cased extension is one of them. */
  lemma ExtClause(clause: seq<Atom>, exts: set<string>, path: string, baseName: string)
    requires forall a :: a in clause ==> a.ExtIs?
    requires forall e :: e in exts <==> ExtIs(e) in clause
    ensures AnyHolds(clause, path, baseName) <==> ToLower(Ext(path)) in exts
  {
    if ToLower(Ext(path)) in exts {
      assert AtomHolds(ExtIs(ToLower(Ext(path))), path, baseName);
    }
  }

  /** A clause of name tests holds iff the lower-cased name is one of them. */
  lemma NameClause(clause: seq<Atom>, names: set<string>, path: string, baseName: string)
    requires forall a :: a in clause ==> a.NameIs?
    requires forall n :: n in names <==> NameIs(n) in clause
    ensures AnyHolds(clause, path, baseName) <==> ToLower(baseName) in names
  {
    if ToLower(baseName) in names {
      assert AtomHolds(NameIs(ToLower(baseName)), path, baseName);
    }
  }

  lemma Row0(path: string, baseName: string)
    ensures RowMatches(RuleTable[0], path, baseName) <==> ToLower(Ext(path)) in DatabaseExts
  {
    SingleClause(RuleTable[0], path, baseName);
    ExtClause(RuleTable[0].guard[0], DatabaseExts, path, baseName);
  }

  lemma Row1(path: string, baseName: string)
    ensures RowMatches(RuleTable[1], path, baseName) <==> ToLower(Ext(path)) == ".chat"
  {
    SingleClause(RuleTable[1], path, baseName);
    ExtClause(RuleTable[1].guard[0], {".chat"}, path, baseName);
  }

  lemma Row2(path: string, baseName: string)
    ensures RowMatches(RuleTable[2], path, baseName) <==>
      ToLower(Ext(path)) in StructuredExts && ToLower(baseName) in ConfigNames
  {
    var r := RuleTable[2];
    assert |r.guard| == 2 && r.guard[0] == StructuredClause;
    ConfigClause(r.guard[1], path, baseName);
    ExtClause(StructuredClause, StructuredExts, path, baseName);
    TwoClauses(r, path, baseName);
  }

  /** The second clause of the configuration row tests the three file names. */
  lemma ConfigClause(clause: seq<Atom>, path: string, baseName: string)
    requires clause == [NameIs("config.json"), NameIs("settings.json"), NameIs("mcp.json")]
    ensures AnyHolds(clause, path, baseName) <==> ToLower(baseName) in ConfigNames
  {
    NameClause(clause, ConfigNames, path, baseName);
  }

  /** A one-atom clause holds iff its atom does. */
  lemma OneAtom(clause: seq<Atom>, a: Atom, path: string, baseName: string)
    requires clause == [a]
    ensures AnyHolds(clause, path, baseName) <==> AtomHolds(a, path, baseName)
  {
    assert a in clause;
  }

  lemma Row3(path: string, baseName: string)
    ensures RowMatches(RuleTable[3], path, baseName) <==>
      ToLower(Ext(path)) in StructuredExts && IsSubstring("session", ToLower(baseName))
  {
    var r := RuleTable[3];
    assert |r.guard| == 2 && r.guard[0] == StructuredClause && r.guard[1] == [NameHas("session")];
    OneAtom(r.guard[1], NameHas("session"), path, baseName);
    ExtClause(StructuredClause, StructuredExts, path, baseName);
    TwoClauses(r, path, baseName);
  }

  lemma Row4(path: string, baseName: string)
    ensures RowMatches(RuleTable[4], path, baseName) <==> ToLower(Ext(path)) in StructuredExts
  {
    var r := RuleTable[4];
    assert |r.guard| == 1 && r.guard[0] == StructuredClause;
    SingleClause(r, path, baseName);
    ExtClause(StructuredClause, StructuredExts, path, baseName);
  }

  lemma Row5(path: string, baseName: string)
    ensures RowMatches(RuleTable[5], path, baseName) <==>
      (ToLower(Ext(path)) == ".log" || ToLower(baseName) == "log" || IsSubstring(".log", ToLower(baseName)))
  {
    var ext, name := ToLower(Ext(path)), ToLower(baseName);
    SingleClause(RuleTable[5], path, baseName);
    if ext == ".log" { assert AtomHolds(ExtIs(".log"), path, baseName); }
    if name == "log" { assert AtomHolds(NameIs("log"), path, baseName); }
    if IsSubstring(".log", name) { assert AtomHolds(NameHas(".log"), path, baseName); }
  }

  lemma Row6(path: string, baseName: string)
    ensures RowMatches(RuleTable[6], path, baseName) <==>
      (ToLower(Ext(path)) == ".tmp" || ToLower(Ext(path)) == ".temp" || ToLower(baseName) == "temp")
  {
    var ext, name := ToLower(Ext(path)), ToLower(baseName);
    SingleClause(RuleTable[6], path, baseName);
    if ext == ".tmp" { assert AtomHolds(ExtIs(".tmp"), path, baseName); }
    if ext == ".temp" { assert AtomHolds(ExtIs(".temp"), path, baseName); }
    if name == "temp" { assert AtomHolds(NameIs("temp"), path, baseName); }
  }

  lemma Row7(path: string, baseName: string)
    ensures RowMatches(RuleTable[7], path, baseName) <==>
      (IsSubstring("cache", ToLower(baseName)) || IsSubstring("Cache", path) || IsSubstring("CachedData", path))
  {
    SingleClause(RuleTable[7], path, baseName);
    if IsSubstring("cache", ToLower(baseName)) { assert AtomHolds(NameHas("cache"), path, baseName); }
    if IsSubstring("Cache", path) { assert AtomHolds(PathHas("Cache"), path, baseName); }
    if IsSubstring("CachedData", path) { assert AtomHolds(PathHas("CachedData"), path, baseName); }
  }

  lemma Row8(path: string, baseName: string)
    ensures RowMatches(RuleTable[8], path, baseName) <==> IsSubstring("Crashpad", path)
  {
    SingleClause(RuleTable[8], path, baseName);
    if IsSubstring("Crashpad", path) { assert AtomHolds(PathHas("Crashpad"), path, baseName); }
  }

  lemma Row9(path: string, baseName: string)
    ensures RowMatches(RuleTable[9], path, baseName) <==> IsSubstring("History", path)
  {
    SingleClause(RuleTable[9], path, baseName);
    if IsSubstring("History", path) { assert AtomHolds(PathHas("History"), path, baseName); }
  }

  lemma Row10(path: string, baseName: string)
    ensures RowMatches(RuleTable[10], path, baseName) <==> ToLower(Ext(path)) in ImageExts
  {
    SingleClause(RuleTable[10], path, baseName);
    ExtClause(RuleTable[10].guard[0], ImageExts, path, baseName);
  }

  lemma Row11(path: string, baseName: string)
    ensures RowMatches(RuleTable[11], path, baseName) <==>
      (ToLower(Ext(path)) in ArchiveExts || IsSubstring("backup", ToLower(baseName)))
  {
    var ext := ToLower(Ext(path));
    SingleClause(RuleTable[11], path, baseName);
    if ext in ArchiveExts { assert AtomHolds(ExtIs(ext), path, baseName); }
    if IsSubstring("backup", ToLower(baseName)) { assert AtomHolds(NameHas("backup"), path, baseName); }
  }

  /** The table from the log row down: the second half of the switch. */
  lemma LowerRows(path: string, baseName: string)
    ensures FirstMatch(RuleTable, 5, path, baseName) ==
      var ext, name := ToLower(Ext(path)), ToLower(baseName);
      if ext == ".log" || name == "log" || IsSubstring(".log", name) then TypeLog
      else if ext == ".tmp" || ext == ".temp" || name == "temp" then TypeTemp
      else if IsSubstring("cache", name) || IsSubstring("Cache", path) || IsSubstring("CachedData", path) then TypeCache
      else if IsSubstring("Crashpad", path) then TypeTemp
      else if IsSubstring("History", path) then TypeBackup
      else if ext in ImageExts then TypeImage
      else if ext in ArchiveExts || IsSubstring("backup", name) then TypeBackup
      else TypeUnknown
  {
    var t, p, b := RuleTable, path, baseName;
    var ext, name := ToLower(Ext(path)), ToLower(baseName);
    Row5(p, b); Row6(p, b); Row7(p, b); Row8(p, b); Row9(p, b); Row10(p, b); Row11(p, b);
    // Unfold the table from the bottom row upwards.
    assert |t| == 12 && FirstMatch(t, 12, p, b) == TypeUnknown;
    var r11 := FirstMatch(t, 11, p, b);
    assert r11 == if ext in ArchiveExts || IsSubstring("backup", name) then TypeBackup else TypeUnknown;
    var r10 := FirstMatch(t, 10, p, b);
    assert r10 == if ext in ImageExts then TypeImage else r11;
    var r9 := FirstMatch(t, 9, p, b);
    assert r9 == if IsSubstring("History", p) then TypeBackup else r10;
    var r8 := FirstMatch(t, 8, p, b);
    assert r8 == if IsSubstring("Crashpad", p) then TypeTemp else r9;
    var r7 := FirstMatch(t, 7, p, b);
    assert r7 == if IsSubstring("cache", name) || IsSubstring("Cache", p) || IsSubstring("CachedData", p) then TypeCache else r8;
    var r6 := FirstMatch(t, 6, p, b);
    assert r6 == if ext == ".tmp" || ext == ".temp" || name == "temp" then TypeTemp else r7;
    assert FirstMatch(t, 5, p, b) == if ext == ".log" || name == "log" || IsSubstring(".log", name) then TypeLog else r6;
  }

  /** Evaluating the rule table top to bottom gives exactly the classifier's
      answer, for every path and name. */
  lemma ClassifyIsFirstMatch(path: string, baseName: string)
    ensures Classify(path, baseName) == FirstMatch(RuleTable, 0, path, baseName)
  {
    var t, p, b := RuleTable, path, baseName;
    var ext, name := ToLower(Ext(path)), ToLower(baseName);
    Row0(p, b); Row1(p, b); Row2(p, b); Row3(p, b); Row4(p, b);
    LowerRows(p, b);
    var r5 := FirstMatch(t, 5, p, b);
    var r4 := FirstMatch(t, 4, p, b);
    assert r4 == if ext in StructuredExts then TypeConfig else r5;
    var r3 := FirstMatch(t, 3, p, b);
    assert r3 == if ext in StructuredExts && IsSubstring("session", name) then TypeDatabase else r4;
    var r2 := FirstMatch(t, 2, p, b);
    assert r2 == if ext in StructuredExts && name in ConfigNames then TypeConfig else r3;
    var r1 := FirstMatch(t, 1, p, b);
    assert r1 == if ext == ".chat" then TypeDatabase else r2;
    assert FirstMatch(t, 0, p, b) == if ext in DatabaseExts then TypeDatabase else r1;
  }

  /** Database-like and transcript extensions are Database wherever the file sits. */
  lemma DatabaseExtensionsWin(path: string, baseName: string)
    requires ToLower(Ext(path)) in DatabaseExts + {".chat"}
    ensures Classify(path, baseName) == TypeDatabase
  {
  }

  /** Structured-data files: the three configuration names are Config, any other
      name containing "session" is Database, the rest Config. */
  lemma StructuredFiles(path: string, baseName: string)
    requires ToLower(Ext(path)) in StructuredExts
    ensures Classify(path, baseName) ==
      if ToLower(baseName) in ConfigNames then TypeConfig
      else if IsSubstring("session", ToLower(baseName)) then TypeDatabase
      else TypeConfig
  {
  }

  /** The extension scan, started anywhere after the last separator or dot at
      `k`, ends at `k`. */
  lemma {:induction false} ExtScan(path: string, i: nat, k: nat)
    requires k < i <= |path|
    requires forall j :: k < j < |path| ==> path[j] != '/' && path[j] != '.'
    ensures ExtBefore(path, i) ==
      (if path[k] == '.' then path[k..] else if path[k] == '/' then "" else ExtBefore(path, k))
    decreases i
  {
    if i - 1 > k {
      ExtScan(path, i - 1, k);
    }
  }

  /** A string lacking one character of `sub` does not contain `sub`. */
  lemma MissingChar(sub: string, s: string, m: nat)
    requires m < |sub|
    requires forall j :: 0 <= j < |s| ==> s[j] != sub[m]
    ensures !IsSubstring(sub, s)
  {
    forall i | 0 <= i <= |s| - |sub|
      ensures !OccursAt(s, sub, i)
    {
      assert s[i + m] == s[i..i + |sub|][m];
    }
  }

  /** A `.log` extension makes a Log whatever directory the file is in. */
  lemma LogExtension(path: string, baseName: string)
    requires ToLower(Ext(path)) == ".log"
    ensures Classify(path, baseName) == TypeLog
  {
  }

  /** Precedence: a log under a `Cache` directory is a Log. */
  lemma LogBeatsCacheDirectory()
    ensures Classify("/k/Cache/main.log", "main.log") == TypeLog
  {
    var p := "/k/Cache/main.log";
    assert Ext(p) == ".log" by { ExtScan(p, |p|, 13); }
    assert ToLower(".log") == ".log";
    LogExtension(p, "main.log");
  }

  /** The raw-path tests on `/k/User/History/a.png`. */
  lemma HistoryPathTests()
    ensures IsSubstring("History", "/k/User/History/a.png")
    ensures !IsSubstring("Cache", "/k/User/History/a.png")
    ensures !IsSubstring("CachedData", "/k/User/History/a.png")
    ensures !IsSubstring("Crashpad", "/k/User/History/a.png")
  {
    assert OccursAt("/k/User/History/a.png", "History", 8);
    MissingChar("Cache", "/k/User/History/a.png", 0);
    MissingChar("CachedData", "/k/User/History/a.png", 0);
    MissingChar("Crashpad", "/k/User/History/a.png", 0);
  }

  /** The name tests on `a.png`. */
  lemma PngNameTests()
    ensures ToLower("a.png") == "a.png"
    ensures !IsSubstring("cache", "a.png") && !IsSubstring(".log", "a.png")
  {
    MissingChar("cache", "a.png", 0);
    MissingChar(".log", "a.png", 1);
  }

  lemma PngExtension()
    ensures ToLower(Ext("/k/User/History/a.png")) == ".png"
  {
    var p := "/k/User/History/a.png";
    ExtScan(p, |p|, 17);
    assert p[17] == '.' && p[17..] == ".png";
    assert ToLower(".png") == ".png";
  }

  /** Precedence: an image under `History` is a Backup. */
  lemma HistoryBeatsImage()
    ensures Classify("/k/User/History/a.png", "a.png") == TypeBackup
  {
    PngExtension();
    HistoryPathTests();
    PngNameTests();
  }

  /** Extensions are compared case-insensitively. */
  lemma UpperCaseExtension()
    ensures Classify("/k/DATA.DB", "DATA.DB") == TypeDatabase
  {
    var p := "/k/DATA.DB";
    ExtScan(p, |p|, 7);
    assert Ext(p) == ".DB";
    assert ToLower(".DB") == ".db";
  }

  /** The raw-path tests on `/k/cache/f0`. */
  lemma LowerCachePathTests()
    ensures !IsSubstring("Cache", "/k/cache/f0") && !IsSubstring("CachedData", "/k/cache/f0")
    ensures !IsSubstring("Crashpad", "/k/cache/f0") && !IsSubstring("History", "/k/cache/f0")
  {
    MissingChar("Cache", "/k/cache/f0", 0);
    MissingChar("CachedData", "/k/cache/f0", 0);
    MissingChar("Crashpad", "/k/cache/f0", 0);
    MissingChar("History", "/k/cache/f0", 0);
  }

  /** The name tests on `f0`. */
  lemma PlainNameTests()
    ensures ToLower("f0") == "f0"
    ensures !IsSubstring(".log", "f0") && !IsSubstring("cache", "f0") && !IsSubstring("backup", "f0")
  {
    MissingChar(".log", "f0", 0);
    MissingChar("cache", "f0", 0);
    MissingChar("backup", "f0", 0);
  }

  /** Files without an extension. */
  lemma NoExtension()
    ensures Ext("/k/Cache/f0") == "" && Ext("/k/cache/f0") == ""
  {
    var p2, p3 := "/k/Cache/f0", "/k/cache/f0";
    ExtScan(p2, |p2|, 8);
    ExtScan(p3, |p3|, 8);
  }

  /** The directory tests on the raw path are case-sensitive: `Cache/` counts,
      `cache/` does not. */
  lemma CacheDirectoryIsCaseSensitive()
    ensures Classify("/k/Cache/f0", "f0") == TypeCache
    ensures Classify("/k/cache/f0", "f0") == TypeUnknown
  {
    NoExtension();
    assert ToLower("") == "";
    PlainNameTests();
    assert OccursAt("/k/Cache/f0", "Cache", 3);
    LowerCachePathTests();
  }

  // ---------------------------------------------------------------------------
  // DetectFileTypes
  // ---------------------------------------------------------------------------

  /** A walk entry the classifier sees: accessible and not a directory. */
  predicate Classified(e: WalkEntry) {
    e.accessible && !e.isDir
  }

  /** The map built by the walk callback after visiting `walk` in order. */
  function TypeMap(walk: seq<WalkEntry>): map<string, FileType>
    decreases |walk|
  {
    if walk == [] then map[]
    else
      var m := TypeMap(walk[..|walk| - 1]);
      var e := walk[|walk| - 1];
      if Classified(e) then m[e.path := Classify(e.path, e.name)] else m
  }

  /** `DetectFileTypes`: fills the path-to-category map inside the walk. */
  method DetectFileTypes(walk: seq<WalkEntry>) returns (fileTypes: map<string, FileType>)
    ensures fileTypes == TypeMap(walk)
  {
    fileTypes := map[];
    var i := 0;
    while i < |walk|
      invariant 0 <= i <= |walk|
      invariant fileTypes == TypeMap(walk[..i])
    {
      var e := walk[i];
      assert walk[..i + 1][..i] == walk[..i];
      if e.accessible && !e.isDir {
        fileTypes := fileTypes[e.path := Classify(e.path, e.name)];
      }
      i := i + 1;
    }
    assert walk[..i] == walk;
  }

  /** A path gets a category iff some accessible non-directory entry has it;
      directories and entries reported with an error get none. */
  lemma {:induction false} TypeMapDomain(walk: seq<WalkEntry>, p: string)
    ensures p in TypeMap(walk) <==> exists i :: 0 <= i < |walk| && Classified(walk[i]) && walk[i].path == p
    decreases |walk|
  {
    if walk != [] {
      var pre := walk[..|walk| - 1];
      TypeMapDomain(pre, p);
      if p in TypeMap(pre) {
        var i :| 0 <= i < |pre| && Classified(pre[i]) && pre[i].path == p;
        assert walk[i] == pre[i];
      }
      if exists i :: 0 <= i < |walk| && Classified(walk[i]) && walk[i].path == p {
        var i :| 0 <= i < |walk| && Classified(walk[i]) && walk[i].path == p;
        if i < |walk| - 1 { assert pre[i] == walk[i]; }
      }
    }
  }

  /** The category recorded for an entry is the classifier's verdict on it,
      provided no later entry of the walk has the same path. */
  lemma {:induction false} TypeMapValue(walk: seq<WalkEntry>, i: int)
    requires 0 <= i < |walk| && Classified(walk[i])
    requires forall j :: i < j < |walk| ==> walk[j].path != walk[i].path
    ensures walk[i].path in TypeMap(walk)
    ensures TypeMap(walk)[walk[i].path] == Classify(walk[i].path, walk[i].name)
    decreases |walk|
  {
    if i < |walk| - 1 {
      var pre := walk[..|walk| - 1];
      TypeMapValue(pre, i);
    }
  }

  // ---------------------------------------------------------------------------
  // GetDirectorySize
  // ---------------------------------------------------------------------------

  /** The sum of the sizes of the accessible non-directory entries. */
  function FileSizeSum(walk: seq<WalkEntry>): nat
    decreases |walk|
  {
    if walk == [] then 0
    else FileSizeSum(walk[..|walk| - 1]) + (if Classified(walk[|walk| - 1]) then walk[|walk| - 1].size else 0)
  }

  /** `GetDirectorySize`: sums the sizes of the files the walk reports. */
  method GetDirectorySize(walk: seq<WalkEntry>) returns (totalSize: nat)
    ensures totalSize == FileSizeSum(walk)
  {
    totalSize := 0;
    var i := 0;
    while i < |walk|
      invariant 0 <= i <= |walk|
      invariant totalSize == FileSizeSum(walk[..i])
    {
      assert walk[..i + 1][..i] == walk[..i];
      if walk[i].accessible && !walk[i].isDir {
        totalSize := totalSize + walk[i].size;
      }
      i := i + 1;
    }
    assert walk[..i] == walk;
  }

  /** The size of a concatenation of walks is the sum of their sizes. */
  lemma {:induction false} FileSizeSumAppend(a: seq<WalkEntry>, b: seq<WalkEntry>)
    ensures FileSizeSum(a + b) == FileSizeSum(a) + FileSizeSum(b)
    decreases |b|
  {
    if b == [] {
      assert a + b == a;
    } else {
      assert (a + b)[..|a + b| - 1] == a + b[..|b| - 1];
      FileSizeSumAppend(a, b[..|b| - 1]);
    }
  }

  /** An empty directory, or one that holds only directories, has size 0. */
  lemma {:induction false} OnlyDirectoriesHaveNoSize(walk: seq<WalkEntry>)
    requires forall i :: 0 <= i < |walk| ==> walk[i].isDir
    ensures FileSizeSum(walk) == 0
    decreases |walk|
  {
    if walk != [] {
      OnlyDirectoriesHaveNoSize(walk[..|walk| - 1]);
    }
  }

  // ---------------------------------------------------------------------------
  // ValidateKiroPath
  // ---------------------------------------------------------------------------

  const KeyFiles: seq<string> := ["conversations.db", "config.json", "cache", "logs"]

  /** How many of `keys` are present. */
  function CountPresent(keys: seq<string>, present: set<string>): nat
    decreases |keys|
  {
    if keys == [] then 0
    else CountPresent(keys[..|keys| - 1], present) + (if keys[|keys| - 1] in present then 1 else 0)
  }

  /** `ValidateKiroPath`: `present` holds the key entries whose `os.Stat`
      succeeds under the candidate directory. */
  method ValidateKiroPath(present: set<string>) returns (valid: bool)
    ensures valid <==> exists i, j :: 0 <= i < j < |KeyFiles| && KeyFiles[i] in present && KeyFiles[j] in present
  {
    var exists_ := 0;
    var k := 0;
    while k < |KeyFiles|
      invariant 0 <= k <= |KeyFiles|
      invariant exists_ == CountPresent(KeyFiles[..k], present)
    {
      assert KeyFiles[..k + 1][..k] == KeyFiles[..k];
      if KeyFiles[k] in present {
        exists_ := exists_ + 1;
      }
      k := k + 1;
    }
    assert KeyFiles[..k] == KeyFiles;
    AtLeastTwoPresent(KeyFiles, present);
    valid := exists_ >= 2;
  }

  /** At least two of `keys` are present iff two distinct positions are. */
  lemma {:induction false} AtLeastTwoPresent(keys: seq<string>, present: set<string>)
    ensures CountPresent(keys, present) >= 2 <==>
      exists i, j :: 0 <= i < j < |keys| && keys[i] in present && keys[j] in present
    decreases |keys|
  {
    if keys != [] {
      var pre := keys[..|keys| - 1];
      var n := |keys| - 1;
      AtLeastTwoPresent(pre, present);
      AtLeastOnePresent(pre, present);
      if CountPresent(keys, present) >= 2 {
        if CountPresent(pre, present) >= 2 {
          var i, j :| 0 <= i < j < |pre| && pre[i] in present && pre[j] in present;
          assert keys[i] == pre[i] && keys[j] == pre[j];
        } else {
          var i :| 0 <= i < |pre| && pre[i] in present;
          assert keys[i] == pre[i] && keys[n] in present;
        }
      }
      if exists i, j :: 0 <= i < j < |keys| && keys[i] in present && keys[j] in present {
        var i, j :| 0 <= i < j < |keys| && keys[i] in present && keys[j] in present;
        assert pre[i] == keys[i];
        if j < n { assert pre[j] == keys[j]; }
      }
    }
  }

  /** At least one of `keys` is present iff some position is. */
  lemma {:induction false} AtLeastOnePresent(keys: seq<string>, present: set<string>)
    ensures CountPresent(keys, present) >= 1 <==> exists i :: 0 <= i < |keys| && keys[i] in present
    decreases |keys|
  {
    if keys != [] {
      var pre := keys[..|keys| - 1];
      AtLeastOnePresent(pre, present);
      if exists i :: 0 <= i < |pre| && pre[i] in present {
        var i :| 0 <= i < |pre| && pre[i] in present;
        assert keys[i] == pre[i];
      }
      if exists i :: 0 <= i < |keys| && keys[i] in present {
        var i :| 0 <= i < |keys| && keys[i] in present;
        if i < |pre| { assert pre[i] == keys[i]; }
      }
    }
  }

  // ---------------------------------------------------------------------------
  // FormatSize
  // ---------------------------------------------------------------------------

  const KB: int := 1024
  const MB: int := 1024 * KB
  const GB: int := 1024 * MB

  datatype SizeUnit = UnitB | UnitKB | UnitMB | UnitGB

  /** The text `FormatSize` produces: exact for plain bytes; for the scaled
      units only the unit is modelled (the two-decimal float is not). */
  datatype SizeText = Exact(text: string) | Scaled(unit: SizeUnit)

  /** `FormatSize`: the unit is chosen by the thresholds 1024, 1024^2, 1024^3. */
  function FormatSize(bytes: int): (r: SizeText)
    ensures bytes < KB <==> r.Exact?
    ensures bytes < KB ==> r.text == IntToString(bytes) + " B"
    ensures r == Scaled(UnitKB) <==> KB <= bytes < MB
    ensures r == Scaled(UnitMB) <==> MB <= bytes < GB
    ensures r == Scaled(UnitGB) <==> GB <= bytes
  {
    if bytes >= GB then Scaled(UnitGB)
    else if bytes >= MB then Scaled(UnitMB)
    else if bytes >= KB then Scaled(UnitKB)
    else Exact(IntToString(bytes) + " B")
  }

  lemma FormatSizeExamples()
    ensures FormatSize(0) == Exact("0 B")
    ensures FormatSize(1023) == Exact("1023 B")
    ensures FormatSize(1024) == Scaled(UnitKB)
    ensures FormatSize(1048576) == Scaled(UnitMB)
    ensures FormatSize(1073741824) == Scaled(UnitGB)
  {
  }
}
