/** The design-system checks of website/src/utils/designSystemValidation.ts:
    spacing values must be multiples of 4px, line heights at least 1.5, and
    the token tables are validated entry by entry. */
module DesignSystem {
  import opened Wrappers
  import opened Strings
  import opened Js

  const BaseSpacingUnit: int := 8
  const MinimumSpacingUnit: int := 4
  const MinimumLineHeight: real := 1.5

  /** `isValidSpacing`: the JavaScript remainder by 4 is zero. `NaN` (what
      `parseInt` gives for text that is not a number) is never valid. */
  function IsValidSpacing(v: Number): (r: bool)
    ensures r <==> v.Num? && v.value % MinimumSpacingUnit == 0
  {
    match v
    case NaN => false
    case Num(x) => Rem(x, MinimumSpacingUnit) == Num(0)
  }

  /** Negative multiples of 4 are valid, other negatives are not. */
  lemma NegativeSpacing()
    ensures IsValidSpacing(Num(-4)) && IsValidSpacing(Num(-8)) && !IsValidSpacing(Num(-6))
  {
  }

  /** `isValidLineHeight`. */
  predicate IsValidLineHeight(lineHeight: real) {
    lineHeight >= MinimumLineHeight
  }

  // ---------------------------------------------------------------------------
  // Token tables
  // ---------------------------------------------------------------------------

  /** A spacing token: its key, its value as written (`'16px'`) and what
      `parseInt` makes of the value without its `px`. */
  datatype SpacingToken = SpacingToken(key: string, text: string, px: Number)

  /** `spacingTokens`, in `Object.entries` order (integer keys ascending). */
  const SpacingTokens: seq<SpacingToken> := [
    SpacingToken("0", "0px", Num(0)),
    SpacingToken("1", "4px", Num(4)),
    SpacingToken("2", "8px", Num(8)),
    SpacingToken("3", "12px", Num(12)),
    SpacingToken("4", "16px", Num(16)),
    SpacingToken("5", "20px", Num(20)),
    SpacingToken("6", "24px", Num(24)),
    SpacingToken("8", "32px", Num(32)),
    SpacingToken("10", "40px", Num(40)),
    SpacingToken("12", "48px", Num(48)),
    SpacingToken("16", "64px", Num(64)),
    SpacingToken("20", "80px", Num(80)),
    SpacingToken("24", "96px", Num(96)),
    SpacingToken("32", "128px", Num(128)),
    SpacingToken("40", "160px", Num(160)),
    SpacingToken("48", "192px", Num(192))
  ]

  /** A line height as `parseFloat` reads it, and as JavaScript prints it. */
  datatype LineHeight = LineHeight(value: real, shown: string)

  /** A typography token: its key and, when its value is an object with a
      `lineHeight` property, that line height. */
  datatype TypographyToken = TypographyToken(key: string, lineHeight: Option<LineHeight>)

  /** `typographyTokens`: none of its entries is an object with a
      `lineHeight` property (the line heights sit one level down, under the
      key `lineHeight`). */
  const TypographyTokens: seq<TypographyToken> := [
    TypographyToken("fontFamily", None),
    TypographyToken("fontSize", None),
    TypographyToken("fontWeight", None),
    TypographyToken("lineHeight", None),
    TypographyToken("letterSpacing", None),
    TypographyToken("responsive", None)
  ]

  // ---------------------------------------------------------------------------
  // Validation reports
  // ---------------------------------------------------------------------------

  /** What one table entry contributes to a report. */
  datatype Verdict = Pass(key: string) | Fail(key: string, error: string) | Skip

  /** The report both table validations return. */
  datatype Report = Report(isValid: bool, errors: seq<string>, validTokens: seq<string>, invalidTokens: seq<string>)

  function SpacingVerdict(t: SpacingToken): (v: Verdict)
    ensures v.Pass? <==> IsValidSpacing(t.px)
    ensures v != Skip && v.key == t.key
    ensures v.Fail? ==> v.error == "Spacing token '" + t.key + "' has value " + t.text + ", which is not a multiple of 4px"
  {
    if IsValidSpacing(t.px) then Pass(t.key)
    else Fail(t.key, "Spacing token '" + t.key + "' has value " + t.text + ", which is not a multiple of 4px")
  }

  function TypographyVerdict(t: TypographyToken): (v: Verdict)
    ensures v == Skip <==> t.lineHeight.None?
    ensures v.Pass? <==> t.lineHeight.Some? && IsValidLineHeight(t.lineHeight.value.value)
    ensures v != Skip ==> v.key == t.key
    ensures v.Fail? ==> v.error == "Typography token '" + t.key + "' has line height " + t.lineHeight.value.shown + ", which is below the minimum of 1.5"
  {
    match t.lineHeight
    case None => Skip
    case Some(lh) =>
      if IsValidLineHeight(lh.value) then Pass(t.key)
      else Fail(t.key, "Typography token '" + t.key + "' has line height " + lh.shown + ", which is below the minimum of 1.5")
  }

  function SpacingVerdicts(tokens: seq<SpacingToken>): (vs: seq<Verdict>)
    ensures |vs| == |tokens| && forall i :: 0 <= i < |tokens| ==> vs[i] == SpacingVerdict(tokens[i])
  {
    seq(|tokens|, i requires 0 <= i < |tokens| => SpacingVerdict(tokens[i]))
  }

  function TypographyVerdicts(tokens: seq<TypographyToken>): (vs: seq<Verdict>)
    ensures |vs| == |tokens| && forall i :: 0 <= i < |tokens| ==> vs[i] == TypographyVerdict(tokens[i])
  {
    seq(|tokens|, i requires 0 <= i < |tokens| => TypographyVerdict(tokens[i]))
  }

  /** The keys that passed, in order. */
  function Passed(vs: seq<Verdict>): seq<string>
    decreases |vs|
  {
    if vs == [] then []
    else Passed(vs[..|vs| - 1]) + (if vs[|vs| - 1].Pass? then [vs[|vs| - 1].key] else [])
  }

  /** The keys that failed, in order. */
  function Failed(vs: seq<Verdict>): seq<string>
    decreases |vs|
  {
    if vs == [] then []
    else Failed(vs[..|vs| - 1]) + (if vs[|vs| - 1].Fail? then [vs[|vs| - 1].key] else [])
  }

  /** The error messages, in order. */
  function Errors(vs: seq<Verdict>): seq<string>
    decreases |vs|
  {
    if vs == [] then []
    else Errors(vs[..|vs| - 1]) + (if vs[|vs| - 1].Fail? then [vs[|vs| - 1].error] else [])
  }

  /** The keys of the entries that were checked (not skipped), in order. */
  function Checked(vs: seq<Verdict>): seq<string>
    decreases |vs|
  {
    if vs == [] then []
    else Checked(vs[..|vs| - 1]) + (if vs[|vs| - 1] != Skip then [vs[|vs| - 1].key] else [])
  }

  function ReportOf(vs: seq<Verdict>): Report {
    Report(Errors(vs) == [], Errors(vs), Passed(vs), Failed(vs))
  }

  /** Every checked key lands in exactly one of the two lists, there is one
      error per failed key, and the report is valid iff nothing failed. */
  lemma {:induction false} ReportPartition(vs: seq<Verdict>)
    ensures multiset(Passed(vs)) + multiset(Failed(vs)) == multiset(Checked(vs))
    ensures |Errors(vs)| == |Failed(vs)|
    ensures ReportOf(vs).isValid <==> Failed(vs) == []
    decreases |vs|
  {
    if vs != [] {
      ReportPartition(vs[..|vs| - 1]);
    }
  }

  /** A key is listed as valid exactly when some entry with that key passed. */
  lemma {:induction false} PassedMembership(vs: seq<Verdict>, key: string)
    ensures key in Passed(vs) <==> exists i :: 0 <= i < |vs| && vs[i] == Pass(key)
    decreases |vs|
  {
    if vs != [] {
      var n := |vs| - 1;
      var pre := vs[..n];
      PassedMembership(pre, key);
      assert Passed(vs) == Passed(pre) + (if vs[n].Pass? then [vs[n].key] else []);
      if key in Passed(vs) {
        if key in Passed(pre) {
          var i :| 0 <= i < |pre| && pre[i] == Pass(key);
          assert vs[i] == pre[i];
        } else {
          assert vs[n] == Pass(key);
        }
      }
      if exists i :: 0 <= i < |vs| && vs[i] == Pass(key) {
        var i :| 0 <= i < |vs| && vs[i] == Pass(key);
        if i < n {
          assert pre[i] == vs[i];
          assert key in Passed(pre);
        } else {
          assert i == n;
        }
      }
    }
  }

  /** A key is listed as invalid exactly when some entry with that key failed. */
  lemma {:induction false} FailedMembership(vs: seq<Verdict>, key: string)
    ensures key in Failed(vs) <==> exists i :: 0 <= i < |vs| && vs[i].Fail? && vs[i].key == key
    decreases |vs|
  {
    if vs != [] {
      var n := |vs| - 1;
      var pre := vs[..n];
      FailedMembership(pre, key);
      assert Failed(vs) == Failed(pre) + (if vs[n].Fail? then [vs[n].key] else []);
      if key in Failed(vs) {
        if key in Failed(pre) {
          var i :| 0 <= i < |pre| && pre[i].Fail? && pre[i].key == key;
          assert vs[i] == pre[i];
        } else {
          assert vs[n].Fail? && vs[n].key == key;
        }
      }
      if exists i :: 0 <= i < |vs| && vs[i].Fail? && vs[i].key == key {
        var i :| 0 <= i < |vs| && vs[i].Fail? && vs[i].key == key;
        if i < n {
          assert pre[i] == vs[i];
          assert key in Failed(pre);
        } else {
          assert i == n;
        }
      }
    }
  }

  /** The report's lists after one more entry. */
  predicate Collected(vs: seq<Verdict>, errors: seq<string>, valid: seq<string>, invalid: seq<string>) {
    errors == Errors(vs) && valid == Passed(vs) && invalid == Failed(vs)
  }

  lemma CollectedStart(vs: seq<Verdict>, errors: seq<string>, valid: seq<string>, invalid: seq<string>)
    requires vs == [] && errors == [] && valid == [] && invalid == []
    ensures Collected(vs, errors, valid, invalid)
  {
  }

  lemma CollectedStep(vs: seq<Verdict>, i: int, errors: seq<string>, valid: seq<string>, invalid: seq<string>)
    requires 0 <= i < |vs| && Collected(vs[..i], errors, valid, invalid)
    ensures var v := vs[i];
      Collected(vs[..i + 1],
        errors + (if v.Fail? then [v.error] else []),
        valid + (if v.Pass? then [v.key] else []),
        invalid + (if v.Fail? then [v.key] else []))
  {
    assert vs[..i + 1][..i] == vs[..i];
  }

  /** The common loop of both validations: each verdict pushes its key onto
      the valid or the invalid list, and a failure also pushes its error. */
  method Collect(vs: seq<Verdict>) returns (r: Report)
    ensures r == ReportOf(vs)
  {
    var errors: seq<string> := [];
    var valid: seq<string> := [];
    var invalid: seq<string> := [];
    CollectedStart(vs[..0], errors, valid, invalid);
    var i := 0;
    while i < |vs|
      invariant 0 <= i <= |vs| && Collected(vs[..i], errors, valid, invalid)
    {
      CollectedStep(vs, i, errors, valid, invalid);
      match vs[i] {
        case Pass(key) =>
          valid := valid + [key];
        case Fail(key, error) =>
          invalid := invalid + [key];
          errors := errors + [error];
        case Skip =>
          errors, valid, invalid := errors + [], valid + [], invalid + [];
      }
      i := i + 1;
    }
    assert vs[..i] == vs;
    return Report(|errors| == 0, errors, valid, invalid);
  }

  /** `validateSpacingSystem` over a token table. */
  method ValidateSpacingSystem(tokens: seq<SpacingToken>) returns (r: Report)
    ensures r == ReportOf(SpacingVerdicts(tokens))
  {
    var vs := SpacingVerdicts(tokens);
    r := Collect(vs);
  }

  /** `validateTypographySystem` over a token table. */
  method ValidateTypographySystem(tokens: seq<TypographyToken>) returns (r: Report)
    ensures r == ReportOf(TypographyVerdicts(tokens))
  {
    var vs := TypographyVerdicts(tokens);
    r := Collect(vs);
  }

  /** Every spacing token is checked: the valid and invalid keys together are
      exactly the table's keys. */
  lemma {:induction false} SpacingAllChecked(tokens: seq<SpacingToken>)
    ensures Checked(SpacingVerdicts(tokens)) == seq(|tokens|, i requires 0 <= i < |tokens| => tokens[i].key)
    decreases |tokens|
  {
    if tokens != [] {
      var n := |tokens| - 1;
      SpacingAllChecked(tokens[..n]);
      assert SpacingVerdicts(tokens)[..n] == SpacingVerdicts(tokens[..n]);
    }
  }

  /** The shipped typography table checks nothing, so it is trivially valid. */
  lemma TypographyTableVacuous()
    ensures ReportOf(TypographyVerdicts(TypographyTokens)) == Report(true, [], [], [])
  {
    var vs := TypographyVerdicts(TypographyTokens);
    assert vs == [Skip, Skip, Skip, Skip, Skip, Skip];
    SkipsReport(vs);
  }

  lemma {:induction false} SkipsReport(vs: seq<Verdict>)
    requires forall i :: 0 <= i < |vs| ==> vs[i] == Skip
    ensures Errors(vs) == [] && Passed(vs) == [] && Failed(vs) == []
    decreases |vs|
  {
    if vs != [] {
      SkipsReport(vs[..|vs| - 1]);
    }
  }

  /** Nothing failed exactly when no verdict is a failure. */
  lemma {:induction false} NoneFailed(vs: seq<Verdict>)
    ensures Failed(vs) == [] <==> forall i :: 0 <= i < |vs| ==> !vs[i].Fail?
    decreases |vs|
  {
    if vs != [] {
      var n := |vs| - 1;
      NoneFailed(vs[..n]);
      assert forall i :: 0 <= i < n ==> vs[..n][i] == vs[i];
    }
  }

  /** A spacing table validates exactly when every token is a multiple of 4px. */
  lemma SpacingReportValid(tokens: seq<SpacingToken>)
    ensures ReportOf(SpacingVerdicts(tokens)).isValid <==> forall i :: 0 <= i < |tokens| ==> IsValidSpacing(tokens[i].px)
  {
    ReportPartition(SpacingVerdicts(tokens));
    NoneFailed(SpacingVerdicts(tokens));
  }

  /** Every shipped spacing token is a multiple of 4px. */
  lemma SpacingTablePx()
    ensures forall i :: 0 <= i < |SpacingTokens| ==> SpacingTokens[i].px.Num? && SpacingTokens[i].px.value % 4 == 0
  {
  }

  /** So the shipped spacing table validates. */
  lemma SpacingTableValid()
    ensures ReportOf(SpacingVerdicts(SpacingTokens)).isValid
  {
    var tokens := SpacingTokens;
    SpacingTablePx();
    assert forall i :: 0 <= i < |tokens| ==> IsValidSpacing(tokens[i].px);
    SpacingReportValid(tokens);
  }

  /** The design-system report. */
  datatype DesignReport = DesignReport(isValid: bool, spacing: Report, typography: Report)

  /** `validateDesignSystem`. */
  method ValidateDesignSystem(spacingTokens: seq<SpacingToken>, typographyTokens: seq<TypographyToken>)
    returns (r: DesignReport)
    ensures r.spacing == ReportOf(SpacingVerdicts(spacingTokens))
    ensures r.typography == ReportOf(TypographyVerdicts(typographyTokens))
    ensures r.isValid <==> r.spacing.isValid && r.typography.isValid
  {
    var spacing := ValidateSpacingSystem(spacingTokens);
    var typography := ValidateTypographySystem(typographyTokens);
    return DesignReport(spacing.isValid && typography.isValid, spacing, typography);
  }

  // ---------------------------------------------------------------------------
  // Custom values
  // ---------------------------------------------------------------------------

  /** What `validateCustomSpacing` and `validateCustomLineHeight` return. */
  datatype CustomResult = CustomResult(isValid: bool, error: Option<string>, suggestion: Option<int>)

  /** The suggestion for an invalid spacing: rounded by the JavaScript
      remainder, down when it is below 2 and up otherwise. For a
      non-negative value that is within 2; a negative value has a
      non-positive remainder and is always rounded up, toward zero. */
  function Suggestion(value: int): (s: int)
    requires value % 4 != 0
    ensures s % 4 == 0
    ensures value >= 0 ==> -2 < s - value <= 2 && (s < value <==> value % 4 < 2)
    ensures value < 0 ==> value < s <= value + 3 && s <= 0
  {
    var remainder := Rem(value, MinimumSpacingUnit).value;
    if remainder < MinimumSpacingUnit / 2 then value - remainder else value + (MinimumSpacingUnit - remainder)
  }

  /** `validateCustomSpacing` for an integer value: a valid value passes with
      neither error nor suggestion; otherwise an error naming the context
      and the value, and a suggestion. */
  function ValidateCustomSpacing(value: int, context: string): (r: CustomResult)
    ensures r.isValid <==> value % 4 == 0
    ensures r.isValid ==> r.error.None? && r.suggestion.None?
    ensures !r.isValid ==>
      r.error == Some(context + " value " + IntToString(value) + "px is not a multiple of 4px") &&
      r.suggestion == Some(Suggestion(value))
  {
    if IsValidSpacing(Num(value)) then CustomResult(true, None, None)
    else CustomResult(false, Some(context + " value " + IntToString(value) + "px is not a multiple of 4px"), Some(Suggestion(value)))
  }

  /** For a non-negative value the suggestion is a nearest multiple of 4. */
  lemma SuggestionNearest(value: int, m: int)
    requires value >= 0 && value % 4 != 0 && m % 4 == 0
    ensures Abs(Suggestion(value) - value) <= Abs(m - value)
  {
  }

  lemma TenSuggestsTwelve()
    ensures Suggestion(10) == 12
  {
  }

  lemma ThirteenSuggestsTwelve()
    ensures Suggestion(13) == 12
  {
  }

  /** A negative value is always rounded toward zero, even past a nearer
      multiple of 4: -3 is sent to 0 rather than -4. */
  lemma MinusThreeSuggestsZero()
    ensures Suggestion(-3) == 0
  {
  }

  /** `validateCustomLineHeight`; the error text prints the value as
      JavaScript does (`shown`). */
  function ValidateCustomLineHeight(lineHeight: LineHeight, context: string): (r: CustomResult)
    ensures r.isValid <==> lineHeight.value >= 1.5
    ensures r.suggestion.None?
    ensures r.isValid <==> r.error.None?
    ensures !r.isValid ==> r.error.value == context + " value " + lineHeight.shown + " is below the minimum of 1.5"
  {
    if IsValidLineHeight(lineHeight.value) then CustomResult(true, None, None)
    else CustomResult(false, Some(context + " value " + lineHeight.shown + " is below the minimum of 1.5"), None)
  }

  // ---------------------------------------------------------------------------
  // Closest token value
  // ---------------------------------------------------------------------------

  /** `getValidSpacingValues`: the parsed token values that are valid, in order. */
  function ValidSpacingValues(tokens: seq<SpacingToken>): (r: seq<int>)
    ensures forall v :: v in r <==> exists t :: t in tokens && t.px == Num(v) && v % 4 == 0
    ensures forall i :: 0 <= i < |r| ==> r[i] % 4 == 0
    decreases |tokens|
  {
    if tokens == [] then []
    else
      var t := tokens[|tokens| - 1];
      var pre := ValidSpacingValues(tokens[..|tokens| - 1]);
      assert forall u :: u in tokens <==> u in tokens[..|tokens| - 1] || u == t;
      if IsValidSpacing(t.px) then pre + [t.px.value] else pre
  }

  /** The valid values keep the table's order and multiplicity: one more
      token adds its value at the end exactly when it is valid. */
  lemma ValidSpacingValuesSnoc(tokens: seq<SpacingToken>, t: SpacingToken)
    ensures ValidSpacingValues(tokens + [t]) ==
      ValidSpacingValues(tokens) + (if IsValidSpacing(t.px) then [t.px.value] else [])
  {
    assert (tokens + [t])[..|tokens|] == tokens;
  }

  /** The `reduce` of `findClosestValidSpacing`, tracking where the running
      value sits: it is kept unless a later value is strictly nearer, so the
      result is the first position at the least distance. */
  function ClosestIndex(values: seq<int>, target: int): (k: nat)
    requires values != []
    ensures k < |values|
    ensures forall j :: 0 <= j < |values| ==> Abs(values[k] - target) <= Abs(values[j] - target)
    ensures forall j :: 0 <= j < k ==> Abs(values[j] - target) > Abs(values[k] - target)
    ensures forall c :: FirstNearestAt(values, target, c) ==> c == k
    decreases |values|
  {
    if |values| == 1 then
      FirstNearestUnique(values, target, 0);
      0
    else
      var n := |values| - 1;
      var c := ClosestIndex(values[..n], target);
      assert values[..n][c] == values[c];
      assert forall j :: 0 <= j < n ==> values[..n][j] == values[j];
      var k := if Abs(values[n] - target) < Abs(values[c] - target) then n else c;
      FirstNearestUnique(values, target, k);
      k
  }

  /** Position `k` holds the first value of `values` nearest to `target`:
      no value is nearer, and every earlier value is strictly farther away. */
  predicate FirstNearestAt(values: seq<int>, target: int, k: int) {
    0 <= k < |values| &&
    (forall j :: 0 <= j < |values| ==> Abs(values[k] - target) <= Abs(values[j] - target)) &&
    (forall j :: 0 <= j < k ==> Abs(values[j] - target) > Abs(values[k] - target))
  }

  /** There is at most one first nearest position. */
  lemma FirstNearestUnique(values: seq<int>, target: int, k: nat)
    requires FirstNearestAt(values, target, k)
    ensures forall c :: FirstNearestAt(values, target, c) ==> c == k
  {
    forall c | FirstNearestAt(values, target, c) ensures c == k {
      // Both positions are nearest, so they are equally near; an earlier one
      // would have to be strictly farther than the later.
      assert Abs(values[c] - target) == Abs(values[k] - target);
    }
  }

  /** `findClosestValidSpacing`: `reduce` without an initial value throws
      when there are no valid values. */
  function FindClosestValidSpacing(tokens: seq<SpacingToken>, value: int): (r: Result<int>)
    ensures r.Err? <==> ValidSpacingValues(tokens) == []
    ensures r.Err? ==> r.msg == "Reduce of empty array with no initial value"
    ensures r.Ok? ==> r.value in ValidSpacingValues(tokens) && r.value % 4 == 0
    ensures r.Ok? ==> forall j :: 0 <= j < |ValidSpacingValues(tokens)| ==>
      Abs(r.value - value) <= Abs(ValidSpacingValues(tokens)[j] - value)
    ensures r.Ok? ==> forall k :: FirstNearestAt(ValidSpacingValues(tokens), value, k) ==>
      ValidSpacingValues(tokens)[k] == r.value
  {
    var values := ValidSpacingValues(tokens);
    if values == [] then Err("Reduce of empty array with no initial value")
    else
      var k := ClosestIndex(values, value);
      assert values[k] % 4 == 0;
      Ok(values[k])
  }

  /** 10 is as near to 8 as to 12, and 8 comes first in the table. */
  lemma TenIsClosestToEight()
    ensures var vs := [0, 4, 8, 12, 16]; vs[ClosestIndex(vs, 10)] == 8
  {
  }
}
