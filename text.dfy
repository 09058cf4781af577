/**
 * Character and string primitives of Go's `strings`/`strconv` packages and of
 * JavaScript's String methods, as far as the modelled code uses them.
 * Strings are sequences of Unicode code points.
 */
module Text {

  /** ECMAScript WhiteSpace and LineTerminator: what `trim()` removes and `\s` matches. */
  predicate IsJsSpace(c: char) {
    c == '\t' || c == '\n' || c == '\U{000B}' || c == '\U{000C}' || c == '\r' || c == ' '
    || c == '\U{00A0}' || c == '\U{1680}' || ('\U{2000}' <= c <= '\U{200A}')
    || c == '\U{2028}' || c == '\U{2029}' || c == '\U{202F}' || c == '\U{205F}'
    || c == '\U{3000}' || c == '\U{FEFF}'
  }

  /** Go's `unicode.IsSpace`: what `strings.TrimSpace` removes. */
  predicate IsGoSpace(c: char) {
    c == '\t' || c == '\n' || c == '\U{000B}' || c == '\U{000C}' || c == '\r' || c == ' '
    || c == '\U{0085}' || c == '\U{00A0}' || c == '\U{1680}' || ('\U{2000}' <= c <= '\U{200A}')
    || c == '\U{2028}' || c == '\U{2029}' || c == '\U{202F}' || c == '\U{205F}'
    || c == '\U{3000}'
  }

  /** The runs of characters the modelled code skips: Go's and JavaScript's white space, and line feeds. */
  datatype Spaces = GoSpaces | JsSpaces | Newlines

  predicate IsSpace(sp: Spaces, c: char) {
    match sp
    case GoSpaces => IsGoSpace(c)
    case JsSpaces => IsJsSpace(c)
    case Newlines => c == '\n'
  }

  /** The first index at or after `i` whose character is not a space of kind `sp`. */
  function SkipStart(s: string, sp: Spaces, i: nat): (k: nat)
    requires i <= |s|
    ensures i <= k <= |s|
    ensures forall j :: i <= j < k ==> IsSpace(sp, s[j])
    ensures k == |s| || !IsSpace(sp, s[k])
    decreases |s| - i
  {
    if i < |s| && IsSpace(sp, s[i]) then SkipStart(s, sp, i + 1) else i
  }

  /** The skip stops exactly at the first position that is not a space of kind `sp`. */
  lemma SkipStartIs(s: string, sp: Spaces, i: nat, k: nat)
    requires i <= k <= |s|
    requires forall m :: i <= m < k ==> IsSpace(sp, s[m])
    requires k == |s| || !IsSpace(sp, s[k])
    ensures SkipStart(s, sp, i) == k
  {
  }

  /** The end of `s[lo..j]` once its trailing spaces of kind `sp` are dropped. */
  function SkipEnd(s: string, sp: Spaces, lo: nat, j: nat): (k: nat)
    requires lo <= j <= |s|
    ensures lo <= k <= j
    ensures forall m :: k <= m < j ==> IsSpace(sp, s[m])
    ensures k == lo || !IsSpace(sp, s[k - 1])
    decreases j
  {
    if j > lo && IsSpace(sp, s[j - 1]) then SkipEnd(s, sp, lo, j - 1) else j
  }

  /**
   * `s` without its leading and trailing spaces of kind `sp`: a contiguous slice
   * of `s` that is empty exactly when every character of `s` is such a space.
   */
  function Trim(s: string, sp: Spaces): (r: string)
    ensures r == s[SkipStart(s, sp, 0)..SkipEnd(s, sp, SkipStart(s, sp, 0), |s|)]
    ensures r == [] <==> forall i :: 0 <= i < |s| ==> IsSpace(sp, s[i])
    ensures r != [] ==> !IsSpace(sp, r[0]) && !IsSpace(sp, r[|r| - 1])
  {
    var a := SkipStart(s, sp, 0);
    var b := SkipEnd(s, sp, a, |s|);
    s[a..b]
  }

  /** A text that neither starts nor ends with a space of kind `sp` is its own trim. */
  lemma TrimUnpadded(s: string, sp: Spaces)
    requires s != [] && !IsSpace(sp, s[0]) && !IsSpace(sp, s[|s| - 1])
    ensures Trim(s, sp) == s
  {
    assert SkipStart(s, sp, 0) == 0;
    assert SkipEnd(s, sp, 0, |s|) == |s|;
  }

  /** Trimming a trimmed text changes nothing. */
  lemma TrimIdempotent(s: string, sp: Spaces)
    ensures Trim(Trim(s, sp), sp) == Trim(s, sp)
  {
    var r := Trim(s, sp);
    if r != [] {
      assert SkipStart(r, sp, 0) == 0;
      assert SkipEnd(r, sp, 0, |r|) == |r|;
    }
  }

  /** JavaScript's `s.trim()`. */
  function TrimJs(s: string): string {
    Trim(s, JsSpaces)
  }

  /** Go's `strings.TrimSpace(s)`. */
  function TrimGo(s: string): string {
    Trim(s, GoSpaces)
  }

  predicate IsAsciiUpper(c: char) { 'A' <= c <= 'Z' }
  predicate IsAsciiLower(c: char) { 'a' <= c <= 'z' }
  predicate IsDigit(c: char) { '0' <= c <= '9' }

  /**
   * `unicode.ToLower` restricted to ASCII letters and to the two other code points
   * whose lower case is ASCII (U+0130 and the Kelvin sign U+212A).
   */
  function GoLowerChar(c: char): (d: char)
    ensures IsAsciiUpper(c) ==> d as int == c as int + 32
    ensures !IsAsciiUpper(c) && c != '\U{0130}' && c != '\U{212A}' ==> d == c
  {
    if IsAsciiUpper(c) then (c as int + 32) as char
    else if c == '\U{0130}' then 'i'
    else if c == '\U{212A}' then 'k'
    else c
  }

  /**
   * `unicode.ToUpper` restricted to ASCII letters and to the two other code points
   * whose upper case is ASCII (dotless i U+0131 and long s U+017F).
   */
  function GoUpperChar(c: char): (d: char)
    ensures IsAsciiLower(c) ==> d as int == c as int - 32
    ensures !IsAsciiLower(c) && c != '\U{0131}' && c != '\U{017F}' ==> d == c
  {
    if IsAsciiLower(c) then (c as int - 32) as char
    else if c == '\U{0131}' then 'I'
    else if c == '\U{017F}' then 'S'
    else c
  }

  /** Go's `strings.ToLower`, with the case mapping of `GoLowerChar`. */
  function GoLower(s: string): (r: string)
    ensures |r| == |s| && forall i :: 0 <= i < |s| ==> r[i] == GoLowerChar(s[i])
  {
    seq(|s|, i requires 0 <= i < |s| => GoLowerChar(s[i]))
  }

  /** Go's `strings.ToUpper`, with the case mapping of `GoUpperChar`. */
  function GoUpper(s: string): (r: string)
    ensures |r| == |s| && forall i :: 0 <= i < |s| ==> r[i] == GoUpperChar(s[i])
  {
    seq(|s|, i requires 0 <= i < |s| => GoUpperChar(s[i]))
  }

  /** ASCII case-insensitive equality, as a JavaScript regular expression with the `i` flag compares. */
  predicate AsciiEqualIgnoreCase(a: string, b: string) {
    |a| == |b| && forall i :: 0 <= i < |a| ==> AsciiFold(a[i]) == AsciiFold(b[i])
  }

  function AsciiFold(c: char): char {
    if IsAsciiUpper(c) then (c as int + 32) as char else c
  }

  /** Every occurrence of `x` replaced by `y`: `strings.ReplaceAll` on one-character strings. */
  function ReplaceChar(s: string, x: char, y: char): (r: string)
    ensures |r| == |s|
    ensures forall i :: 0 <= i < |s| ==> r[i] == (if s[i] == x then y else s[i])
  {
    seq(|s|, i requires 0 <= i < |s| => if s[i] == x then y else s[i])
  }

  predicate StartsWith(s: string, p: string) {
    |p| <= |s| && s[..|p|] == p
  }

  predicate EndsWith(s: string, p: string) {
    |p| <= |s| && s[|s| - |p|..] == p
  }

  /** `strings.Contains` / `String.prototype.includes`. */
  predicate Contains(s: string, sub: string)
    decreases |s|
  {
    StartsWith(s, sub) || (|s| > 0 && Contains(s[1..], sub))
  }

  /** `strings.TrimSuffix`. */
  function TrimSuffix(s: string, suffix: string): (r: string)
    ensures EndsWith(s, suffix) ==> r + suffix == s
    ensures !EndsWith(s, suffix) ==> r == s
  {
    if EndsWith(s, suffix) then s[..|s| - |suffix|] else s
  }

  /** The index of the first occurrence of `c` in `s`. */
  function IndexOf(s: string, c: char): (k: nat)
    requires c in s
    ensures k < |s| && s[k] == c && c !in s[..k]
  {
    if s[0] == c then 0 else 1 + IndexOf(s[1..], c)
  }

  /** The index of the last occurrence of `c` in `s`, or -1. */
  function LastIndexOf(s: string, c: char): (k: int)
    ensures -1 <= k < |s|
    ensures k >= 0 ==> s[k] == c
    ensures forall j :: k < j < |s| ==> s[j] != c
  {
    if |s| == 0 then -1
    else if s[|s| - 1] == c then |s| - 1
    else LastIndexOf(s[..|s| - 1], c)
  }

  /** JavaScript's `s.split(sep)` and Go's `strings.Split(s, sep)` for a one-character separator. */
  function Split(s: string, sep: char): (parts: seq<string>)
    ensures |parts| >= 1
    ensures forall i :: 0 <= i < |parts| ==> sep !in parts[i]
    decreases |s|
  {
    if sep in s then
      var k := IndexOf(s, sep);
      [s[..k]] + Split(s[k + 1..], sep)
    else
      [s]
  }

  /** JavaScript's `parts.join(sep)` / Go's `strings.Join` for a one-character separator. */
  function Join(parts: seq<string>, sep: char): string {
    if |parts| == 0 then ""
    else if |parts| == 1 then parts[0]
    else parts[0] + [sep] + Join(parts[1..], sep)
  }

  /** Splitting and joining again on the same separator gives back the original text. */
  lemma {:induction false} JoinSplit(s: string, sep: char)
    ensures Join(Split(s, sep), sep) == s
    decreases |s|
  {
    if sep in s {
      var k := IndexOf(s, sep);
      var rest := s[k + 1..];
      JoinSplit(rest, sep);
      assert Split(s, sep) == [s[..k]] + Split(rest, sep);
      assert s == s[..k] + [sep] + rest;
    }
  }

  /** Splitting stops at the first separator. */
  lemma SplitAtFirst(a: string, sep: char, b: string)
    requires sep !in a
    ensures Split(a + [sep] + b, sep) == [a] + Split(b, sep)
  {
    var s := a + [sep] + b;
    assert s[|a|] == sep;
    var k := IndexOf(s, sep);
    assert s[..k] == a;
    assert s[k + 1..] == b;
  }

  /** Joining separator-free pieces and splitting again gives back the pieces. */
  lemma {:induction false} SplitJoin(parts: seq<string>, sep: char)
    requires |parts| >= 1
    requires forall i :: 0 <= i < |parts| ==> sep !in parts[i]
    ensures Split(Join(parts, sep), sep) == parts
    decreases |parts|
  {
    if |parts| > 1 {
      SplitJoin(parts[1..], sep);
      SplitAtFirst(parts[0], sep, Join(parts[1..], sep));
      assert parts == [parts[0]] + parts[1..];
    } else {
      assert sep !in parts[0];
    }
  }

  function DigitValue(c: char): nat
    requires IsDigit(c)
  {
    c as int - '0' as int
  }

  function DigitChar(d: nat): (c: char)
    requires d < 10
    ensures IsDigit(c) && DigitValue(c) == d
  {
    ('0' as int + d) as char
  }

  predicate AllDigits(s: string) {
    forall i :: 0 <= i < |s| ==> IsDigit(s[i])
  }

  /** The value of a string of decimal digits (JavaScript `parseInt` / Go `strconv.Atoi` on digits only). */
  function DecimalValue(s: string): nat
    requires AllDigits(s)
  {
    if s == [] then 0 else DecimalValue(s[..|s| - 1]) * 10 + DigitValue(s[|s| - 1])
  }

  /** Decimal rendering of a natural number without leading zeros (`strconv.Itoa`, `String(n)`). */
  function NatToString(n: nat): (s: string)
    ensures |s| >= 1 && AllDigits(s)
    ensures DecimalValue(s) == n
    ensures s[0] == '0' ==> n == 0
    decreases n
  {
    if n < 10 then [DigitChar(n)]
    else
      var front := NatToString(n / 10);
      assert (front + [DigitChar(n % 10)])[..|front|] == front;
      front + [DigitChar(n % 10)]
  }

  /** Decimal rendering of an integer, with a leading minus sign when negative. */
  function IntToString(n: int): (s: string)
    ensures n >= 0 ==> s == NatToString(n)
    ensures n < 0 ==> s == "-" + NatToString(-n)
  {
    if n < 0 then "-" + NatToString(-n) else NatToString(n)
  }

  /** `s.padStart(n, [ch])`: pads on the left up to length `n`. */
  function PadStart(s: string, n: nat, ch: char): (r: string)
    ensures |s| >= n ==> r == s
    ensures |s| < n ==>
      (|r| == n && r[n - |s|..] == s && forall i :: 0 <= i < n - |s| ==> r[i] == ch)
  {
    if |s| >= n then s else seq(n - |s|, _ => ch) + s
  }

  /** `s.padEnd(n, [ch])`: pads on the right up to length `n`. */
  function PadEnd(s: string, n: nat, ch: char): (r: string)
    ensures |s| >= n ==> r == s
    ensures |s| < n ==>
      (|r| == n && r[..|s|] == s && forall i :: |s| <= i < n ==> r[i] == ch)
  {
    if |s| >= n then s else s + seq(n - |s|, _ => ch)
  }

  /**
   * JavaScript's `s.length`: the number of UTF-16 code units, two for every code
   * point outside the Basic Multilingual Plane.
   */
  function JsLength(s: string): (n: nat)
    ensures |s| <= n <= 2 * |s|
  {
    if s == [] then 0
    else JsLength(s[..|s| - 1]) + (if s[|s| - 1] as int > 0xFFFF then 2 else 1)
  }
}
