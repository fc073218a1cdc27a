/** The cleanup engine (internal/cleaner/engine.go): rule evaluation, the
    deletion-safety policy, the preview that turns scanned files into a plan,
    and the execution of that plan against removal outcomes. */
module Cleaner {
  import opened Wrappers
  import opened Strings
  import opened Clock
  import opened Types

  // ---------------------------------------------------------------------------
  // Rules and the records the engine produces
  // ---------------------------------------------------------------------------

  /** The dynamically typed `Value` of a condition: a string, an `int64`, or
      anything else a rule file may hold. */
  datatype CondValue = StrVal(s: string) | IntVal(i: int) | OtherVal

  datatype Condition = Condition(kind: string, field: string, operator: string, value: CondValue)

  datatype CleanupRule = CleanupRule(
    name: string,
    description: string,
    priority: int,
    enabled: bool,
    conditions: seq<Condition>)

  datatype CleanupAction = CleanupAction(
    id: int,
    kind: string,
    target: FileInfo,
    rule: string,
    reason: string,
    size: nat)

  datatype CleanupPreview = CleanupPreview(
    actions: seq<CleanupAction>,
    totalSize: nat,
    safeToDelete: bool,
    warnings: seq<string>,
    recommendations: seq<string>)

  datatype CleanupError = CleanupError(code: string, message: string, filePath: string, recoverable: bool)

  datatype CleanupResult = CleanupResult(
    success: bool,
    actionsTaken: seq<CleanupAction>,
    bytesFreed: nat,
    errors: seq<CleanupError>,
    backupId: string)

  /** What happens when the engine removes one target: the file was already
      gone when it was looked up, it was removed, or removal failed. */
  datatype Removal = Missing | Removed | Failed(err: string)

  // ---------------------------------------------------------------------------
  // Substring search
  // ---------------------------------------------------------------------------

  /** `findSubstring`: tries every start position in order. */
  method FindSubstring(s: string, sub: string) returns (found: bool)
    ensures found <==> IsSubstring(sub, s)
  {
    var i := 0;
    while i <= |s| - |sub|
      invariant 0 <= i
      invariant |sub| <= |s| ==> i <= |s| - |sub| + 1
      invariant forall j :: 0 <= j < i ==> !OccursAt(s, sub, j)
      decreases |s| - |sub| + 1 - i
    {
      if s[i..i + |sub|] == sub {
        assert OccursAt(s, sub, i);
        return true;
      }
      i := i + 1;
    }
    return false;
  }

  /** `contains(s, sub)`: the length guard, the three shortcuts and then the
      scan, whose outcome `FindSubstring` computes. */
  function Contains(s: string, sub: string): bool {
    |s| >= |sub| &&
    (s == sub || |sub| == 0 || s[..|sub|] == sub || s[|s| - |sub|..] == sub || IsSubstring(sub, s))
  }

  /** The shortcuts change nothing: `contains` is exactly substring search, and
      the empty string is contained in every string. */
  lemma ContainsIsSubstring(s: string, sub: string)
    ensures Contains(s, sub) <==> IsSubstring(sub, s)
    ensures Contains(s, "")
  {
    EmptyIsSubstring(s);
    if |s| >= |sub| {
      if s == sub || s[..|sub|] == sub { assert OccursAt(s, sub, 0); }
      if s[|s| - |sub|..] == sub { assert OccursAt(s, sub, |s| - |sub|); }
    }
  }

  // ---------------------------------------------------------------------------
  // Conditions and rules
  // ---------------------------------------------------------------------------

  /** `parseDuration` of the engine: four fixed spellings, in milliseconds. */
  function ParseDuration(s: string): (r: Option<int>)
    ensures r.Some? <==> s in {"1h", "24h", "168h", "720h"}
    ensures r.Some? ==> r.value > 0 && r.value % MsPerHour == 0
  {
    if s == "1h" then Some(MsPerHour)
    else if s == "24h" then Some(24 * MsPerHour)
    else if s == "168h" then Some(168 * MsPerHour)
    else if s == "720h" then Some(720 * MsPerHour)
    else None
  }

  /** The type assertions `matchesCondition` performs succeed: the value is a
      string or an `int64` wherever the evaluated branch converts it to one. */
  predicate WellTyped(c: Condition) {
    (c.kind == "file_age" && c.operator == ">" ==> c.value.StrVal?) &&
    (c.kind == "file_type" ==> c.value.StrVal?) &&
    (c.kind == "file_size" && c.operator in {">", "<"} ==> c.value.IntVal?) &&
    (c.kind == "file_name" && c.operator in {"contains", "regex"} ==> c.value.StrVal?)
  }

  predicate RuleWellTyped(rule: CleanupRule) {
    forall c :: c in rule.conditions ==> WellTyped(c)
  }

  /** `matchesCondition` at time `now`; unknown kinds and operators never match. */
  function MatchesCondition(f: FileInfo, c: Condition, now: int): (r: bool)
    requires WellTyped(c)
    ensures r ==> c.kind in {"file_age", "file_type", "file_size", "file_name"}
    ensures r && c.kind == "file_age" ==> c.operator == ">" && ParseDuration(c.value.s).Some?
    ensures r && c.kind == "file_size" ==> c.operator in {">", "<"}
    ensures r && c.kind == "file_name" ==> c.operator in {"contains", "regex"}
  {
    if c.kind == "file_age" then
      c.operator == ">" &&
      (match ParseDuration(c.value.s)
       case None => false
       case Some(d) => now - f.modified > d)
    else if c.kind == "file_type" then
      IntToString(Ordinal(f.fileType)) == c.value.s
    else if c.kind == "file_size" then
      if c.operator == ">" then f.size > c.value.i
      else if c.operator == "<" then f.size < c.value.i
      else false
    else if c.kind == "file_name" then
      (c.operator == "contains" || c.operator == "regex") && Contains(f.name, c.value.s)
    else false
  }

  /** A rule matches a file when all of its conditions do. */
  predicate RuleHolds(f: FileInfo, rule: CleanupRule, now: int)
    requires RuleWellTyped(rule)
  {
    forall c :: c in rule.conditions ==> MatchesCondition(f, c, now)
  }

  /** The action `evaluateFile` builds for a matching rule (its ID is set later). */
  function ActionFor(f: FileInfo, rule: CleanupRule): (a: CleanupAction)
    ensures a.kind == "delete" && a.target == f && a.size == f.size
    ensures a.rule == rule.name && a.reason == rule.description
  {
    CleanupAction(0, "delete", f, rule.name, rule.description, f.size)
  }

  predicate RulesWellTyped(rules: seq<CleanupRule>) {
    forall k :: 0 <= k < |rules| ==> RuleWellTyped(rules[k])
  }

  /** The action of the first enabled rule, from position `k` on, that matches. */
  function FirstRuleAction(rules: seq<CleanupRule>, f: FileInfo, now: int, k: nat): (r: Option<CleanupAction>)
    requires RulesWellTyped(rules)
    ensures r.Some? ==> r.value.id == 0 && r.value.kind == "delete" && r.value.target == f && r.value.size == f.size
    decreases |rules| - k
  {
    if k >= |rules| then None
    else if rules[k].enabled && RuleHolds(f, rules[k], now) then Some(ActionFor(f, rules[k]))
    else FirstRuleAction(rules, f, now, k + 1)
  }

  /** `FirstRuleAction` picks the first enabled matching rule: it is `None`
      exactly when no enabled rule from `k` on matches, and otherwise it comes
      from an enabled matching rule with no enabled matching rule before it. */
  lemma {:induction false} FirstRuleActionIsFirst(rules: seq<CleanupRule>, f: FileInfo, now: int, k: nat)
    requires RulesWellTyped(rules)
    ensures FirstRuleAction(rules, f, now, k).None? <==>
      forall j :: k <= j < |rules| ==> !(rules[j].enabled && RuleHolds(f, rules[j], now))
    ensures FirstRuleAction(rules, f, now, k).Some? ==>
      exists j :: k <= j < |rules| && rules[j].enabled && RuleHolds(f, rules[j], now) &&
        FirstRuleAction(rules, f, now, k).value == ActionFor(f, rules[j]) &&
        forall i :: k <= i < j ==> !(rules[i].enabled && RuleHolds(f, rules[i], now))
    decreases |rules| - k
  {
    if k < |rules| && !(rules[k].enabled && RuleHolds(f, rules[k], now)) {
      FirstRuleActionIsFirst(rules, f, now, k + 1);
      if FirstRuleAction(rules, f, now, k + 1).Some? {
        var j :| k + 1 <= j < |rules| && rules[j].enabled && RuleHolds(f, rules[j], now) &&
          FirstRuleAction(rules, f, now, k + 1).value == ActionFor(f, rules[j]) &&
          forall i :: k + 1 <= i < j ==> !(rules[i].enabled && RuleHolds(f, rules[i], now));
        assert forall i :: k <= i < j ==> !(rules[i].enabled && RuleHolds(f, rules[i], now));
      }
    }
  }

  /** Disabled rules and rules with no conditions: a disabled rule never
      produces an action, an enabled rule without conditions matches every file. */
  lemma EmptyRuleMatchesAll(f: FileInfo, rule: CleanupRule, now: int)
    requires RuleWellTyped(rule) && rule.enabled && rule.conditions == []
    ensures FirstRuleAction([rule], f, now, 0) == Some(ActionFor(f, rule))
  {
    assert RulesWellTyped([rule]);
  }

  // ---------------------------------------------------------------------------
  // Safety policy
  // ---------------------------------------------------------------------------

  const ProtectedFiles: set<string> := {
    "config.json", "settings.json", "mcp.json", "sessions.json",
    "state.vscdb", "workspace.json", "storage.json", ".continuerc.json"
  }

  const ProtectedDirs: set<string> := {"index", ".migrations", "lancedb"}

  const Week: int := 7 * MsPerDay
  const Month: int := 30 * MsPerDay

  /** The path lies under a protected directory (`/<dir>/` occurs in it). */
  predicate InProtectedDir(path: string) {
    exists d :: d in ProtectedDirs && Contains(path, "/" + d + "/")
  }

  /** `isSafeToDelete` at time `now`. */
  function SafeToDelete(f: FileInfo, now: int): (r: bool)
    ensures f.name in ProtectedFiles ==> !r
    ensures InProtectedDir(f.path) ==> !r
    ensures r <==> (f.name !in ProtectedFiles && !InProtectedDir(f.path) &&
                    (f.fileType in {TypeTemp, TypeCache} ||
                     (f.fileType == TypeLog && now - f.modified > Week) ||
                     (f.fileType == TypeDatabase && Ext(f.name) == ".chat" && now - f.modified > Month) ||
                     (f.fileType == TypeBackup && now - f.modified > Month)))
  {
    if f.name in ProtectedFiles then false
    else if InProtectedDir(f.path) then false
    else
      match f.fileType
      case TypeTemp => true
      case TypeLog => now - f.modified > Week
      case TypeCache => true
      case TypeDatabase => Ext(f.name) == ".chat" && now - f.modified > Month
      case TypeConfig => false
      case TypeBackup => now - f.modified > Month
      case _ => false
  }

  /** Config, index, image and unknown files are never safe to delete. */
  lemma NeverSafeCategories(f: FileInfo, now: int)
    requires f.fileType in {TypeConfig, TypeIndex, TypeImage, TypeUnknown}
    ensures !SafeToDelete(f, now)
  {
  }

  /** A file under `/index/`, `/.migrations/` or `/lancedb/` is unsafe, whatever
      its name, category and age. */
  lemma ProtectedDirectoryIsUnsafe(f: FileInfo, now: int, d: string)
    requires d in ProtectedDirs && IsSubstring("/" + d + "/", f.path)
    ensures !SafeToDelete(f, now)
  {
    ContainsIsSubstring(f.path, "/" + d + "/");
  }

  // ---------------------------------------------------------------------------
  // Preview
  // ---------------------------------------------------------------------------

  const MB: nat := 1024 * 1024

  const NoFilesMessage: string := "没有发现需要清理的文件"
  const BackupFirstMessage: string := "建议在清理前创建备份"
  const BatchMessage: string := "发现大量文件，建议分批清理"

  function FreedMessage(mb: nat): (r: string)
    ensures |r| > 0 && r[0] == '清'
  {
    "清理将释放 " + NatToString(mb) + " MB 空间"
  }

  function UnsafeWarning(name: string): string {
    "文件 " + name + " 可能不安全删除"
  }

  /** The actions `Preview` plans for `targets`, in input order, each carrying
      the 1-based position of its target as its ID. */
  function PlanActions(rules: seq<CleanupRule>, targets: seq<FileInfo>, now: int): seq<CleanupAction>
    requires RulesWellTyped(rules)
    decreases |targets|
  {
    if targets == [] then []
    else PlanActions(rules, targets[..|targets| - 1], now) + PlanFor(rules, targets[|targets| - 1], |targets|, now)
  }

  function SumSizes(actions: seq<CleanupAction>): nat {
    if actions == [] then 0 else SumSizes(actions[..|actions| - 1]) + actions[|actions| - 1].size
  }

  predicate AllSafe(actions: seq<CleanupAction>, now: int) {
    forall i :: 0 <= i < |actions| ==> SafeToDelete(actions[i].target, now)
  }

  /** One warning per action whose target is not safe to delete, in order. */
  function Warnings(actions: seq<CleanupAction>, now: int): seq<string> {
    if actions == [] then []
    else
      var last := actions[|actions| - 1];
      Warnings(actions[..|actions| - 1], now) + (if SafeToDelete(last.target, now) then [] else [UnsafeWarning(last.target.name)])
  }

  /** The position of a recommendation among the lines of a non-empty plan:
      the freed-space line, then the backup advice, then the batch advice. */
  function MessageRank(m: string): int {
    if m == BackupFirstMessage then 1 else if m == BatchMessage then 2 else 0
  }

  /** `generateRecommendations` for a plan of `count` actions. */
  function Recommendations(count: nat, totalSize: nat, safe: bool): (r: seq<string>)
    ensures count == 0 <==> r == [NoFilesMessage]
    ensures FreedMessage(totalSize / MB) in r <==> count > 0 && totalSize > 100 * MB
    ensures BackupFirstMessage in r <==> count > 0 && !safe
    ensures BatchMessage in r <==> count > 100
    ensures |r| <= 3
    ensures count > 0 ==> forall m :: m in r ==>
      m == FreedMessage(totalSize / MB) || m == BackupFirstMessage || m == BatchMessage
    ensures count > 0 ==> forall i, j :: 0 <= i < j < |r| ==> MessageRank(r[i]) < MessageRank(r[j])
  {
    var freed := FreedMessage(totalSize / MB);
    assert NoFilesMessage[0] == '没' && BackupFirstMessage[0] == '建' && BatchMessage[0] == '发';
    if count == 0 then [NoFilesMessage]
    else
      (if totalSize > 100 * MB then [freed] else []) +
      (if !safe then [BackupFirstMessage] else []) +
      (if count > 100 then [BatchMessage] else [])
  }

  /** The plan over one more target. */
  lemma PlanStep(rules: seq<CleanupRule>, targets: seq<FileInfo>, i: nat, now: int)
    requires RulesWellTyped(rules) && i < |targets|
    ensures PlanActions(rules, targets[..i + 1], now) ==
      PlanActions(rules, targets[..i], now) + PlanFor(rules, targets[i], i + 1, now)
  {
    assert targets[..i + 1][..i] == targets[..i];
  }

  /** `total`, `safe` and `warnings` are the preview totals of `acts`. */
  predicate PreviewOf(acts: seq<CleanupAction>, total: nat, safe: bool, warnings: seq<string>, now: int) {
    total == SumSizes(acts) && (safe <==> AllSafe(acts, now)) && warnings == Warnings(acts, now)
  }

  lemma PreviewEmpty(acts: seq<CleanupAction>, warnings: seq<string>, now: int)
    requires acts == [] && warnings == []
    ensures PreviewOf(acts, 0, true, warnings, now)
  {
  }

  /** The preview totals over one more action. */
  lemma PreviewSnoc(acts: seq<CleanupAction>, total: nat, safe: bool, warnings: seq<string>, a: CleanupAction, now: int)
    requires PreviewOf(acts, total, safe, warnings, now)
    ensures PreviewOf(acts + [a], total + a.size, safe && SafeToDelete(a.target, now),
      warnings + (if SafeToDelete(a.target, now) then [] else [UnsafeWarning(a.target.name)]), now)
  {
    var all := acts + [a];
    assert all[..|all| - 1] == acts;
    assert forall i :: 0 <= i < |acts| ==> all[i] == acts[i];
  }

  /** The state of the target loop after `i` targets. */
  predicate Planned(rules: seq<CleanupRule>, targets: seq<FileInfo>, i: nat, now: int,
                    acts: seq<CleanupAction>, total: nat, safe: bool, warnings: seq<string>)
    requires RulesWellTyped(rules) && i <= |targets|
  {
    acts == PlanActions(rules, targets[..i], now) && PreviewOf(acts, total, safe, warnings, now)
  }

  lemma PlannedStart(rules: seq<CleanupRule>, targets: seq<FileInfo>, now: int,
                     acts: seq<CleanupAction>, total: nat, safe: bool, warnings: seq<string>)
    requires RulesWellTyped(rules)
    requires acts == [] && total == 0 && safe && warnings == []
    ensures Planned(rules, targets, 0, now, acts, total, safe, warnings)
  {
    assert targets[..0] == [];
    PreviewEmpty(acts, warnings, now);
  }

  /** One more turn of the target loop, `more` being the next target's plan. */
  lemma PlannedStep(rules: seq<CleanupRule>, targets: seq<FileInfo>, i: nat, now: int,
                    acts: seq<CleanupAction>, total: nat, safe: bool, warnings: seq<string>, more: seq<CleanupAction>)
    requires RulesWellTyped(rules) && i < |targets|
    requires Planned(rules, targets, i, now, acts, total, safe, warnings)
    requires more == PlanFor(rules, targets[i], i + 1, now)
    ensures more == [] ==> Planned(rules, targets, i + 1, now, acts, total, safe, warnings)
    ensures more != [] ==>
      var a := more[0];
      Planned(rules, targets, i + 1, now, acts + [a], total + a.size, safe && SafeToDelete(a.target, now),
        warnings + (if SafeToDelete(a.target, now) then [] else [UnsafeWarning(a.target.name)]))
  {
    PlanStep(rules, targets, i, now);
    if more != [] {
      assert more == [more[0]];
      PreviewSnoc(acts, total, safe, warnings, more[0], now);
    } else {
      assert acts + more == acts;
    }
  }

  /** The action planned for the target at 1-based position `pos`, if any. */
  function PlanFor(rules: seq<CleanupRule>, t: FileInfo, pos: int, now: int): (r: seq<CleanupAction>)
    requires RulesWellTyped(rules)
    ensures |r| <= 1
    ensures r != [] ==> r[0].id == pos && FirstRuleAction(rules, t, now, 0) == Some(r[0].(id := 0))
    ensures r != [] ==> r[0].kind == "delete" && r[0].target == t && r[0].size == t.size
    ensures r == [] <==> FirstRuleAction(rules, t, now, 0).None?
  {
    match FirstRuleAction(rules, t, now, 0)
    case None => []
    case Some(a) => [a.(id := pos)]
  }

  /** Each action belongs to the target at position `id - 1`, is that target's
      first-matching-rule action, and removes exactly its size. */
  predicate ActionsMatchTargets(rules: seq<CleanupRule>, targets: seq<FileInfo>, acts: seq<CleanupAction>, now: int)
    requires RulesWellTyped(rules)
  {
    forall i :: 0 <= i < |acts| ==>
      1 <= acts[i].id <= |targets| && acts[i].target == targets[acts[i].id - 1] &&
      FirstRuleAction(rules, targets[acts[i].id - 1], now, 0) == Some(acts[i].(id := 0)) &&
      acts[i].kind == "delete" && acts[i].size == acts[i].target.size
  }

  /** IDs strictly increase. */
  predicate IdsIncrease(acts: seq<CleanupAction>) {
    forall i, j :: 0 <= i < j < |acts| ==> acts[i].id < acts[j].id
  }

  lemma {:induction false} PlannedActionsMatch(rules: seq<CleanupRule>, targets: seq<FileInfo>, now: int)
    requires RulesWellTyped(rules)
    ensures ActionsMatchTargets(rules, targets, PlanActions(rules, targets, now), now)
    decreases |targets|
  {
    if targets != [] {
      var n := |targets|;
      var pre := targets[..n - 1];
      PlannedActionsMatch(rules, pre, now);
      var acts0 := PlanActions(rules, pre, now);
      var acts := PlanActions(rules, targets, now);
      assert acts == acts0 + PlanFor(rules, targets[n - 1], n, now);
      forall i | 0 <= i < |acts0|
        ensures acts[i] == acts0[i] && 1 <= acts0[i].id < n && targets[acts0[i].id - 1] == pre[acts0[i].id - 1]
      {
      }
    }
  }

  /** IDs lie between 1 and `n`. */
  predicate IdsWithin(acts: seq<CleanupAction>, n: int) {
    forall i :: 0 <= i < |acts| ==> 1 <= acts[i].id <= n
  }

  lemma IdsSnoc(acts: seq<CleanupAction>, a: CleanupAction, n: int)
    requires IdsIncrease(acts) && IdsWithin(acts, n - 1) && a.id == n >= 1
    ensures IdsIncrease(acts + [a]) && IdsWithin(acts + [a], n)
  {
    var all := acts + [a];
    forall i, j | 0 <= i < j < |all|
      ensures all[i].id < all[j].id
    {
      assert all[i] == acts[i];
      if j < |acts| {
        assert all[j] == acts[j];
      }
    }
    assert forall i :: 0 <= i < |acts| ==> all[i] == acts[i];
  }

  lemma IdsWiden(acts: seq<CleanupAction>, n: int)
    requires IdsWithin(acts, n - 1)
    ensures IdsWithin(acts, n)
  {
  }

  lemma {:induction false} PlannedIdsIncrease(rules: seq<CleanupRule>, targets: seq<FileInfo>, now: int)
    requires RulesWellTyped(rules)
    ensures IdsIncrease(PlanActions(rules, targets, now))
    ensures IdsWithin(PlanActions(rules, targets, now), |targets|)
    decreases |targets|
  {
    if targets != [] {
      var n := |targets|;
      var pre := targets[..n - 1];
      PlannedIdsIncrease(rules, pre, now);
      var acts0 := PlanActions(rules, pre, now);
      var more := PlanFor(rules, targets[n - 1], n, now);
      assert PlanActions(rules, targets, now) == acts0 + more;
      if more == [] {
        assert acts0 + more == acts0;
        IdsWiden(acts0, n);
      } else {
        assert more == [more[0]];
        IdsSnoc(acts0, more[0], n);
      }
    }
  }

  /** Every target that some enabled rule matches gets an action. */
  lemma {:induction false} PlannedComplete(rules: seq<CleanupRule>, targets: seq<FileInfo>, now: int, k: nat)
    requires RulesWellTyped(rules)
    requires k < |targets| && FirstRuleAction(rules, targets[k], now, 0).Some?
    ensures exists i :: 0 <= i < |PlanActions(rules, targets, now)| && PlanActions(rules, targets, now)[i].id == k + 1
    decreases |targets|
  {
    var n := |targets|;
    var pre := targets[..n - 1];
    var acts0 := PlanActions(rules, pre, now);
    var acts := PlanActions(rules, targets, now);
    assert acts == acts0 + PlanFor(rules, targets[n - 1], n, now);
    if k == n - 1 {
      assert acts[|acts0|].id == k + 1;
    } else {
      assert pre[k] == targets[k];
      PlannedComplete(rules, pre, now, k);
      var i :| 0 <= i < |acts0| && acts0[i].id == k + 1;
      assert acts[i] == acts0[i];
    }
  }

  /** There are no warnings iff every action is safe, and never more warnings
      than actions. */
  lemma {:induction false} WarningsExactlyUnsafe(actions: seq<CleanupAction>, now: int)
    ensures Warnings(actions, now) == [] <==> AllSafe(actions, now)
    ensures |Warnings(actions, now)| <= |actions|
    decreases |actions|
  {
    if actions != [] {
      var pre := actions[..|actions| - 1];
      WarningsExactlyUnsafe(pre, now);
      assert forall i :: 0 <= i < |pre| ==> pre[i] == actions[i];
    }
  }

  // ---------------------------------------------------------------------------
  // Execution
  // ---------------------------------------------------------------------------

  /** `deleteFile`: an error message, or `None` when the file was removed. */
  function DeleteFile(f: FileInfo, removal: Removal): (err: Option<string>)
    ensures err.None? <==> removal == Removed
    ensures removal == Missing ==> err == Some("文件不存在: " + f.path)
  {
    match removal
    case Missing => Some("文件不存在: " + f.path)
    case Removed => None
    case Failed(e) => Some(e)
  }

  /** `executeAction`: only "delete" actions are carried out. */
  function ExecuteAction(a: CleanupAction, removal: Removal): (err: Option<string>)
    ensures err.None? <==> a.kind == "delete" && removal == Removed
  {
    if a.kind == "delete" then DeleteFile(a.target, removal)
    else Some("不支持的操作类型: " + a.kind)
  }

  /** The removal outcome of the target an action was planned for. */
  function RemovalOf(a: CleanupAction, removals: seq<Removal>): Removal {
    if 1 <= a.id <= |removals| then removals[a.id - 1] else Missing
  }

  /** The actions that were carried out, in order. */
  function Succeeded(actions: seq<CleanupAction>, removals: seq<Removal>): (r: seq<CleanupAction>)
    ensures forall a :: a in r ==> a in actions && a.kind == "delete" && RemovalOf(a, removals) == Removed
  {
    if actions == [] then []
    else
      var last := actions[|actions| - 1];
      Succeeded(actions[..|actions| - 1], removals) +
      (if ExecuteAction(last, RemovalOf(last, removals)).None? then [last] else [])
  }

  function ActionError(a: CleanupAction, err: string): CleanupError {
    CleanupError("action_failed", "执行操作失败: " + err, a.target.path, false)
  }

  /** One non-recoverable error per action that failed, in order. */
  function Failures(actions: seq<CleanupAction>, removals: seq<Removal>): (r: seq<CleanupError>)
    ensures forall e :: e in r ==> e.code == "action_failed" && !e.recoverable
  {
    if actions == [] then []
    else
      var last := actions[|actions| - 1];
      Failures(actions[..|actions| - 1], removals) +
      match ExecuteAction(last, RemovalOf(last, removals))
      case None => []
      case Some(err) => [ActionError(last, err)]
  }

  /** Every action either succeeds or adds exactly one error; there are no
      errors iff every action's target was removed. */
  lemma {:induction false} ExecutionPartition(actions: seq<CleanupAction>, removals: seq<Removal>)
    requires forall i :: 0 <= i < |actions| ==> actions[i].kind == "delete"
    ensures |Succeeded(actions, removals)| + |Failures(actions, removals)| == |actions|
    ensures Failures(actions, removals) == [] <==>
      forall i :: 0 <= i < |actions| ==> RemovalOf(actions[i], removals) == Removed
    decreases |actions|
  {
    if actions != [] {
      var pre := actions[..|actions| - 1];
      var last := actions[|actions| - 1];
      ExecutionPartition(pre, removals);
      assert forall i :: 0 <= i < |pre| ==> pre[i] == actions[i];
      if RemovalOf(last, removals) == Removed {
        assert Succeeded(actions, removals) == Succeeded(pre, removals) + [last];
        assert Failures(actions, removals) == Failures(pre, removals) + [];
      } else {
        assert Succeeded(actions, removals) == Succeeded(pre, removals) + [];
        assert |Failures(actions, removals)| == |Failures(pre, removals)| + 1;
      }
    }
  }

  /** The bytes freed by the successful actions never exceed the plan's total. */
  lemma {:induction false} FreedAtMostPlanned(actions: seq<CleanupAction>, removals: seq<Removal>)
    ensures SumSizes(Succeeded(actions, removals)) <= SumSizes(actions)
    decreases |actions|
  {
    if actions != [] {
      var pre := actions[..|actions| - 1];
      var last := actions[|actions| - 1];
      FreedAtMostPlanned(pre, removals);
      var s0 := Succeeded(pre, removals);
      if ExecuteAction(last, RemovalOf(last, removals)).None? {
        assert (s0 + [last])[..|s0|] == s0;
      } else {
        assert Succeeded(actions, removals) == s0;
      }
    }
  }

  /** The action loop of `Execute`: every action is attempted, a failure adds
      its error and the loop goes on. */
  method PerformActions(acts: seq<CleanupAction>, removals: seq<Removal>)
    returns (success: bool, taken: seq<CleanupAction>, errors: seq<CleanupError>, freed: nat)
    ensures taken == Succeeded(acts, removals)
    ensures errors == Failures(acts, removals)
    ensures freed == SumSizes(taken)
    ensures success <==> errors == []
  {
    success, taken, errors, freed := true, [], [], 0;
    var i := 0;
    while i < |acts|
      invariant 0 <= i <= |acts|
      invariant taken == Succeeded(acts[..i], removals)
      invariant errors == Failures(acts[..i], removals)
      invariant freed == SumSizes(taken)
      invariant success <==> errors == []
    {
      var action := acts[i];
      assert acts[..i + 1][..i] == acts[..i];
      var err := ExecuteAction(action, RemovalOf(action, removals));
      if err.Some? {
        success := false;
        errors := errors + [ActionError(action, err.value)];
      } else {
        assert (taken + [action])[..|taken|] == taken;
        taken := taken + [action];
        freed := freed + action.size;
      }
      i := i + 1;
    }
    assert acts[..i] == acts;
  }

  // ---------------------------------------------------------------------------
  // The engine object
  // ---------------------------------------------------------------------------

  class CleanupEngine {
    var rules: seq<CleanupRule>

    /** `NewCleanupEngine`: no rules yet. */
    constructor ()
      ensures rules == []
    {
      rules := [];
    }

    /** `SetRules` replaces the rule list. */
    method SetRules(newRules: seq<CleanupRule>)
      modifies this
      ensures rules == newRules
    {
      rules := newRules;
    }

    /** `matchesRule`: stops at the first condition that fails. */
    method MatchesRule(f: FileInfo, rule: CleanupRule, now: int) returns (m: bool)
      requires RuleWellTyped(rule)
      ensures m <==> RuleHolds(f, rule, now)
    {
      var i := 0;
      while i < |rule.conditions|
        invariant 0 <= i <= |rule.conditions|
        invariant forall j :: 0 <= j < i ==> MatchesCondition(f, rule.conditions[j], now)
      {
        if !MatchesCondition(f, rule.conditions[i], now) {
          return false;
        }
        i := i + 1;
      }
      return true;
    }

    /** `evaluateFile`: the action of the first enabled rule that matches. */
    method EvaluateFile(f: FileInfo, now: int) returns (action: Option<CleanupAction>)
      requires RulesWellTyped(rules)
      ensures action == FirstRuleAction(rules, f, now, 0)
    {
      var k := 0;
      while k < |rules|
        invariant 0 <= k <= |rules|
        invariant FirstRuleAction(rules, f, now, 0) == FirstRuleAction(rules, f, now, k)
      {
        var rule := rules[k];
        if rule.enabled {
          var m := MatchesRule(f, rule, now);
          if m {
            return Some(ActionFor(f, rule));
          }
        }
        k := k + 1;
      }
      return None;
    }

    /** The action `Preview` plans for the target at 1-based position `pos`:
        the first enabled matching rule's, numbered `pos`. */
    method PlanOne(target: FileInfo, pos: int, now: int) returns (more: seq<CleanupAction>)
      requires RulesWellTyped(rules)
      ensures more == PlanFor(rules, target, pos, now)
    {
      var action := EvaluateFile(target, now);
      more := if action.Some? then [action.value.(id := pos)] else [];
    }

    /** `Preview`: the plan for `targets` at time `now`. */
    method Preview(targets: seq<FileInfo>, now: int) returns (p: CleanupPreview)
      requires RulesWellTyped(rules)
      ensures p.actions == PlanActions(rules, targets, now)
      ensures p.totalSize == SumSizes(p.actions)
      ensures p.safeToDelete <==> AllSafe(p.actions, now)
      ensures p.warnings == Warnings(p.actions, now)
      ensures p.recommendations == Recommendations(|p.actions|, p.totalSize, p.safeToDelete)
    {
      var actions, totalSize, safe, warnings := PlanTargets(targets, now);
      p := CleanupPreview(actions, totalSize, safe, warnings, Recommendations(|actions|, totalSize, safe));
    }

    /** The target loop of `Preview`: the planned actions, their bytes, whether
        all are safe, and one warning per unsafe target. */
    method PlanTargets(targets: seq<FileInfo>, now: int)
      returns (actions: seq<CleanupAction>, totalSize: nat, safe: bool, warnings: seq<string>)
      requires RulesWellTyped(rules)
      ensures actions == PlanActions(rules, targets, now)
      ensures totalSize == SumSizes(actions)
      ensures safe <==> AllSafe(actions, now)
      ensures warnings == Warnings(actions, now)
    {
      var none: seq<CleanupAction> := [];
      var noWarnings: seq<string> := [];
      actions, totalSize, safe, warnings := none, 0, true, noWarnings;
      PlannedStart(rules, targets, now, actions, totalSize, safe, warnings);
      var i := 0;
      while i < |targets|
        invariant 0 <= i <= |targets| && Planned(rules, targets, i, now, actions, totalSize, safe, warnings)
      {
        var more := PlanOne(targets[i], i + 1, now);
        PlannedStep(rules, targets, i, now, actions, totalSize, safe, warnings, more);
        if more != [] {
          var a := more[0];
          var safeOne := SafeToDelete(a.target, now);
          actions := actions + [a];
          totalSize := totalSize + a.size;
          safe := safe && safeOne;
          warnings := warnings + (if safeOne then [] else [UnsafeWarning(a.target.name)]);
        }
        i := i + 1;
      }
      assert targets[..i] == targets;
    }

    /** `Execute`: previews, then (unless `dryRun`) attempts every planned
        action. `removals[k]` is what removing `targets[k]` does; `backup` is
        the identifier of the backup taken before cleaning, `None` when there
        is no backup manager or creating the backup failed. */
    method Execute(targets: seq<FileInfo>, dryRun: bool, now: int, removals: seq<Removal>, backup: Option<string>)
      returns (r: CleanupResult)
      requires RulesWellTyped(rules)
      requires |removals| == |targets|
      ensures dryRun ==> r == CleanupResult(true, [], 0, [], "")
      ensures !dryRun ==>
        var acts := PlanActions(rules, targets, now);
        r.actionsTaken == Succeeded(acts, removals) &&
        r.errors == Failures(acts, removals) &&
        r.bytesFreed == SumSizes(r.actionsTaken) &&
        (r.success <==> r.errors == []) &&
        r.backupId == (if acts != [] && backup.Some? then backup.value else "")
    {
      r := CleanupResult(true, [], 0, [], "");
      var preview := Preview(targets, now);
      if dryRun {
        return;
      }
      var acts := preview.actions;
      var backupId := "";
      if |acts| > 0 && backup.Some? {
        backupId := backup.value;
      }
      var success, taken, errors, freed := PerformActions(acts, removals);
      r := CleanupResult(success, taken, freed, errors, backupId);
    }
  }
}
