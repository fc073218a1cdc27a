/** Shared vocabulary of the model: outcome wrappers, the string helpers of Go's
    `strings` and `path/filepath` packages that the cleaner relies on, decimal
    rendering of integers, and the millisecond clock. */
module Wrappers {

  datatype Option<+T> = None | Some(value: T)

  /** An operation that either yields a value or fails with a message. */
  datatype Result<+T> = Ok(value: T) | Err(msg: string)
}

module Strings {

  /** `strings.HasPrefix`. */
  predicate HasPrefix(s: string, p: string) {
    |p| <= |s| && s[..|p|] == p
  }

  /** `strings.HasSuffix`. */
  predicate HasSuffix(s: string, p: string) {
    |p| <= |s| && s[|s| - |p|..] == p
  }

  /** `sub` occurs in `s` starting at index `i`. */
  predicate OccursAt(s: string, sub: string, i: int) {
    0 <= i && i + |sub| <= |s| && s[i..i + |sub|] == sub
  }

  /** `strings.Contains(s, sub)`: `sub` is a contiguous substring of `s`. */
  predicate IsSubstring(sub: string, s: string) {
    exists i :: 0 <= i <= |s| - |sub| && OccursAt(s, sub, i)
  }

  lemma EmptyIsSubstring(s: string)
    ensures IsSubstring("", s)
  {
    assert OccursAt(s, "", 0);
  }

  /** ASCII lower-casing of one character. */
  function Lower(c: char): (r: char)
    ensures 'A' <= c <= 'Z' ==> 'a' <= r <= 'z'
    ensures !('A' <= c <= 'Z') ==> r == c
  {
    if 'A' <= c <= 'Z' then (c as int - 'A' as int + 'a' as int) as char else c
  }

  /** `strings.ToLower`, restricted to ASCII letters. */
  function ToLower(s: string): (r: string)
    ensures |r| == |s|
    ensures forall i :: 0 <= i < |s| ==> r[i] == Lower(s[i])
  {
    if s == [] then [] else [Lower(s[0])] + ToLower(s[1..])
  }

  /** `filepath.Ext` on a slash-separated path: the suffix starting at the last
      '.' of the final element, or "" when that element has no '.'. */
  function Ext(path: string): (r: string)
    ensures r == "" || (r[0] == '.' && HasSuffix(path, r))
  {
    ExtBefore(path, |path|)
  }

  /** Scans `path[..i]` backwards for the extension, as `filepath.Ext` does;
      `path[i..]` holds neither a separator nor a dot. */
  function ExtBefore(path: string, i: nat): (r: string)
    requires i <= |path|
    requires forall j :: i <= j < |path| ==> path[j] != '/' && path[j] != '.'
    ensures r == "" || (r[0] == '.' && HasSuffix(path, r))
    ensures r != "" ==> '/' !in r && '.' !in r[1..]
    decreases i
  {
    if i == 0 || path[i - 1] == '/' then ""
    else if path[i - 1] == '.' then path[i - 1..]
    else ExtBefore(path, i - 1)
  }

  /** `filepath.Join(dir, name)` for a clean directory and a single name. */
  function Join(dir: string, name: string): (r: string)
    ensures HasSuffix(r, name)
  {
    if dir == "" then name else dir + "/" + name
  }

  /** `s` is a non-empty run of decimal digits. */
  predicate IsDigits(s: string) {
    |s| >= 1 && forall i :: 0 <= i < |s| ==> '0' <= s[i] <= '9'
  }

  /** The number a run of decimal digits denotes, most significant first. */
  function DecimalValue(s: string): nat
    requires forall i :: 0 <= i < |s| ==> '0' <= s[i] <= '9'
    decreases |s|
  {
    if s == [] then 0
    else 10 * DecimalValue(s[..|s| - 1]) + (s[|s| - 1] as int - '0' as int)
  }

  /** An optional minus sign followed by decimal digits. */
  predicate IsNumeral(s: string) {
    if |s| >= 1 && s[0] == '-' then IsDigits(s[1..]) else IsDigits(s)
  }

  /** The integer a numeral denotes. */
  function NumeralValue(s: string): int
    requires IsNumeral(s)
  {
    if s[0] == '-' then -(DecimalValue(s[1..]) as int) else DecimalValue(s)
  }

  /** Decimal digits of a natural number, as `%d` prints it: the canonical
      numeral of `n`, without leading zeros. */
  function NatToString(n: nat): (r: string)
    ensures IsDigits(r) && DecimalValue(r) == n
    ensures r[0] == '0' ==> r == "0"
    decreases n
  {
    if n < 10 then [('0' as int + n) as char]
    else
      var front := NatToString(n / 10);
      var r := front + [('0' as int + n % 10) as char];
      assert r[..|r| - 1] == front;
      r
  }

  /** `fmt.Sprintf("%d", n)` for any integer: a numeral whose value is `n`. */
  function IntToString(n: int): (r: string)
    ensures IsNumeral(r) && NumeralValue(r) == n
    ensures (r[0] == '-') <==> n < 0
  {
    if n < 0 then "-" + NatToString(-n) else NatToString(n)
  }
}

module Clock {

  const MsPerSecond: int := 1000
  const MsPerMinute: int := 60 * MsPerSecond
  const MsPerHour: int := 60 * MsPerMinute
  const MsPerDay: int := 24 * MsPerHour

  /** Go's zero `time.Time` (January 1, year 1, UTC) in Unix milliseconds. */
  const ZeroTime: int := -62135596800000

  /** `now.AddDate(0, 0, -days)`, ignoring daylight-saving shifts. */
  function DaysBefore(now: int, days: int): (r: int)
    ensures days > 0 ==> r < now
    ensures r + days * MsPerDay == now
  {
    now - days * MsPerDay
  }
}
