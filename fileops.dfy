/** The duration and error helpers of internal/utils/fileops.go. Durations are
    Go `time.Duration` values: whole nanoseconds. */
module FileOps {
  import opened Wrappers
  import opened Strings
  import Cleaner

  const NsPerSecond: int := 1_000_000_000
  const NsPerMinute: int := 60 * NsPerSecond
  const NsPerHour: int := 60 * NsPerMinute
  const NsPerDay: int := 24 * NsPerHour

  // ---------------------------------------------------------------------------
  // Durations
  // ---------------------------------------------------------------------------

  /** Go's integer conversion of `a / b` for `b > 0`: the quotient truncated
      toward zero (Dafny's `/` is Euclidean, which differs for negative `a`). */
  function TruncDiv(a: int, b: int): int
    requires b > 0
  {
    if a >= 0 then a / b else -((-a) / b)
  }

  /** The count and unit word `FormatDuration` prints for `d`: seconds below a
      minute, minutes below an hour, hours below a day, days otherwise, the
      count `n` truncated toward zero, so that `n` whole units fit in `d` and
      `n + 1` do not (for negative `d`, the count rounds up toward zero). */
  function DurationParts(d: int): (r: (int, string))
    ensures d < NsPerMinute ==> r.1 == "秒"
    ensures 0 <= d < NsPerMinute ==> r.0 * NsPerSecond <= d < (r.0 + 1) * NsPerSecond
    ensures d < 0 ==> (r.0 - 1) * NsPerSecond < d <= r.0 * NsPerSecond
    ensures NsPerMinute <= d < NsPerHour ==>
      r.1 == "分钟" && 1 <= r.0 < 60 && r.0 * NsPerMinute <= d < (r.0 + 1) * NsPerMinute
    ensures NsPerHour <= d < NsPerDay ==>
      r.1 == "小时" && 1 <= r.0 < 24 && r.0 * NsPerHour <= d < (r.0 + 1) * NsPerHour
    ensures NsPerDay <= d ==>
      r.1 == "天" && r.0 >= 1 && r.0 * NsPerDay <= d < (r.0 + 1) * NsPerDay
  {
    if d < NsPerMinute then (TruncDiv(d, NsPerSecond), "秒")
    else if d < NsPerHour then (TruncDiv(d, NsPerMinute), "分钟")
    else if d < NsPerDay then (TruncDiv(d, NsPerHour), "小时")
    else (TruncDiv(d, NsPerDay), "天")
  }

  /** `TimeUtil.FormatDuration`: the decimal numeral of the count, followed by
      its unit word. */
  function FormatDuration(d: int): (r: string)
    ensures HasSuffix(r, DurationParts(d).1)
    ensures var digits := r[..|r| - |DurationParts(d).1|];
      IsNumeral(digits) && NumeralValue(digits) == DurationParts(d).0
  {
    var (n, unit) := DurationParts(d);
    IntToString(n) + unit
  }

  /** Ninety seconds is one minute: the count is truncated. */
  lemma NinetySeconds()
    ensures FormatDuration(90 * NsPerSecond) == "1分钟"
  {
    assert DurationParts(90 * NsPerSecond) == (1, "分钟");
    assert IntToString(1) == "1";
  }

  /** Fifty-nine seconds and a fraction stay in seconds. */
  lemma JustUnderAMinute()
    ensures DurationParts(NsPerMinute - 1) == (59, "秒")
  {
  }

  /** The formats `TimeUtil.ParseDuration` accepts. */
  const DurationFormats: set<string> := {"1h", "24h", "168h", "720h", "7d", "30d"}

  /** `TimeUtil.ParseDuration`: a fixed table, anything else an error. */
  function ParseDuration(s: string): (r: Result<int>)
    ensures r.Ok? <==> s in DurationFormats
    ensures r.Ok? ==> r.value > 0 && r.value % NsPerHour == 0
    ensures r.Err? ==> r.msg == "不支持的持续时间格式: " + s
  {
    match s
    case "1h" => Ok(NsPerHour)
    case "24h" => Ok(24 * NsPerHour)
    case "168h" => Ok(168 * NsPerHour)
    case "720h" => Ok(720 * NsPerHour)
    case "7d" => Ok(7 * 24 * NsPerHour)
    case "30d" => Ok(30 * 24 * NsPerHour)
    case _ => Err("不支持的持续时间格式: " + s)
  }

  /** The day spellings mean the same as their hour spellings. */
  lemma DaysAreHours()
    ensures ParseDuration("7d") == ParseDuration("168h")
    ensures ParseDuration("30d") == ParseDuration("720h")
  {
  }

  /** Formatting a parsed duration prints it in its natural unit. */
  lemma SevenDaysFormat()
    ensures FormatDuration(ParseDuration("7d").value) == "7天"
  {
    assert DurationParts(7 * NsPerDay) == (7, "天");
    assert IntToString(7) == "7";
  }

  lemma ThirtyDaysFormat()
    ensures FormatDuration(ParseDuration("30d").value) == "30天"
  {
    assert DurationParts(30 * NsPerDay) == (30, "天");
    assert IntToString(30) == "30";
  }

  lemma OneDayFormat()
    ensures FormatDuration(ParseDuration("24h").value) == "1天"
  {
    assert DurationParts(NsPerDay) == (1, "天");
    assert IntToString(1) == "1";
  }

  lemma OneHourFormat()
    ensures FormatDuration(ParseDuration("1h").value) == "1小时"
  {
    assert DurationParts(NsPerHour) == (1, "小时");
    assert IntToString(1) == "1";
  }

  /** The cleaner's own duration parser accepts the hour spellings only, and
      agrees on them (it counts milliseconds, this one nanoseconds). */
  lemma AgreesWithRuleParser(s: string)
    ensures Cleaner.ParseDuration(s).Some? ==>
      ParseDuration(s).Ok? && ParseDuration(s).value == Cleaner.ParseDuration(s).value * 1_000_000
    ensures ParseDuration(s).Ok? && Cleaner.ParseDuration(s).None? <==> s == "7d" || s == "30d"
  {
  }

  // ---------------------------------------------------------------------------
  // Errors
  // ---------------------------------------------------------------------------

  /** What `os.IsPermission`, `os.IsNotExist` and `os.IsExist` recognise. */
  datatype ErrorKind = Permission | NotExist | Exist | Other

  /** A non-nil `error`: its kind and its `Error()` text. */
  datatype Error = Error(kind: ErrorKind, text: string)

  /** `ErrorUtil.IsPermissionError`. */
  function IsPermissionError(err: Option<Error>): (r: bool)
    ensures err.None? ==> !r
    ensures r <==> err.Some? && err.value.kind == Permission
  {
    match err
    case None => false
    case Some(e) => e.kind == Permission
  }

  /** `ErrorUtil.IsNotExistError`. */
  function IsNotExistError(err: Option<Error>): (r: bool)
    ensures err.None? ==> !r
    ensures r <==> err.Some? && err.value.kind == NotExist
  {
    match err
    case None => false
    case Some(e) => e.kind == NotExist
  }

  /** `ErrorUtil.IsFileExistsError`. */
  function IsFileExistsError(err: Option<Error>): (r: bool)
    ensures err.None? ==> !r
    ensures r <==> err.Some? && err.value.kind == Exist
  {
    match err
    case None => false
    case Some(e) => e.kind == Exist
  }

  /** `ErrorUtil.WrapError`: nil stays nil; otherwise a new error whose text is
      the context, a colon and the original text. It is formatted with `%v`,
      so the result no longer unwraps to the original and is of no kind. */
  function WrapError(err: Option<Error>, context: string): (r: Option<Error>)
    ensures err.None? <==> r.None?
    ensures r.Some? ==> r.value.kind == Other && r.value.text == context + ": " + err.value.text
  {
    match err
    case None => None
    case Some(e) => Some(Error(Other, context + ": " + e.text))
  }

  /** `ErrorUtil.FormatError`. */
  function FormatError(err: Option<Error>): (r: string)
    ensures err.None? ==> r == "无错误"
    ensures err.Some? ==> r == err.value.text
  {
    match err
    case None => "无错误"
    case Some(e) => e.text
  }

  /** `ErrorUtil.IsRecoverableError`: nil, permission and missing-file errors. */
  function IsRecoverableError(err: Option<Error>): (r: bool)
    ensures r <==> err.None? || err.value.kind == Permission || err.value.kind == NotExist
  {
    err.None? || IsPermissionError(err) || IsNotExistError(err)
  }

  /** The three kind tests are exclusive. */
  lemma KindsExclusive(err: Option<Error>)
    ensures !(IsPermissionError(err) && IsNotExistError(err))
    ensures !(IsPermissionError(err) && IsFileExistsError(err))
    ensures !(IsNotExistError(err) && IsFileExistsError(err))
  {
  }

  /** Wrapping keeps the message readable but makes a non-nil error
      unrecoverable, and formats as the context followed by the original. */
  lemma WrapLosesKind(e: Error, context: string)
    ensures !IsRecoverableError(WrapError(Some(e), context))
    ensures FormatError(WrapError(Some(e), context)) == context + ": " + FormatError(Some(e))
  {
  }
}
