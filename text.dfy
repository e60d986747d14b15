/** The JavaScript string operations the core relies on, over `string` (a sequence of characters). */
module Text {
  import opened Wrappers
  import opened Hex

  predicate StartsWith(s: string, prefix: string) {
    |prefix| <= |s| && s[..|prefix|] == prefix
  }

  /** `s.replace(/^0x/, '')`: one leading lower-case "0x" is removed, if there is one. */
  function StripHexPrefix(s: string): (r: string)
    ensures StartsWith(s, "0x") ==> s == "0x" + r
    ensures !StartsWith(s, "0x") ==> r == s
  {
    if StartsWith(s, "0x") then s[2..] else s
  }

  /** ASCII case folding, which is what a regular expression with the `i` flag applies to ASCII letters. */
  function LowerAscii(c: char): char {
    if 'A' <= c <= 'Z' then (c as int + 32) as char else c
  }

  predicate EqualsIgnoreCase(a: string, b: string) {
    |a| == |b| && forall i :: 0 <= i < |a| ==> LowerAscii(a[i]) == LowerAscii(b[i])
  }

  /** `x || fallback` for a string read from `process.env`: missing or empty gives the fallback. */
  function EnvOr(env: map<string, string>, name: string, fallback: string): string {
    if name in env && env[name] != "" then env[name] else fallback
  }

  // ---------------------------------------------------------------- lines

  /** `s.split('\n')` */
  function SplitLines(s: string): (lines: seq<string>)
    ensures |lines| >= 1
    decreases |s|
  {
    if |s| == 0 then [""]
    else
      var rest := SplitLines(s[1..]);
      if s[0] == '\n' then [""] + rest
      else [[s[0]] + rest[0]] + rest[1..]
  }

  /** `lines.join('\n')` */
  function JoinLines(lines: seq<string>): string
    requires |lines| >= 1
  {
    if |lines| == 1 then lines[0] else lines[0] + "\n" + JoinLines(lines[1..])
  }

  /** Joining four lines puts one "\n" between neighbours. */
  lemma JoinFourLines(a: string, b: string, c: string, d: string)
    ensures JoinLines([a, b, c, d]) == a + "\n" + b + "\n" + c + "\n" + d
  {
    var lines := [a, b, c, d];
    assert lines[1..] == [b, c, d] && lines[2..] == [c, d] && lines[3..] == [d];
    assert JoinLines([c, d]) == c + "\n" + d;
    assert JoinLines([b, c, d]) == b + "\n" + (c + "\n" + d);
  }

  lemma {:induction false} SplitLinesSingle(a: string)
    requires '\n' !in a
    ensures SplitLines(a) == [a]
  {
    if |a| > 0 {
      SplitLinesSingle(a[1..]);
      assert [a[0]] + a[1..] == a;
    }
  }

  /** A line without a line break followed by "\n" splits off as exactly that line. */
  lemma {:induction false} SplitLinesCons(a: string, b: string)
    requires '\n' !in a
    ensures SplitLines(a + "\n" + b) == [a] + SplitLines(b)
  {
    var s := a + "\n" + b;
    if |a| == 0 {
      assert s == "\n" + b && s[1..] == b;
    } else {
      assert s[1..] == a[1..] + "\n" + b;
      SplitLinesCons(a[1..], b);
      assert [a[0]] + a[1..] == a;
    }
  }

  /** Splitting what `join` produced gives the lines back, when no line holds a line break. */
  lemma {:induction false} SplitJoinLines(lines: seq<string>)
    requires |lines| >= 1
    requires forall i :: 0 <= i < |lines| ==> '\n' !in lines[i]
    ensures SplitLines(JoinLines(lines)) == lines
  {
    if |lines| == 1 {
      SplitLinesSingle(lines[0]);
    } else {
      SplitJoinLines(lines[1..]);
      SplitLinesCons(lines[0], JoinLines(lines[1..]));
    }
  }

  // ---------------------------------------------------------------- lengths

  /**
   * `s.length`: the number of UTF-16 code units, so a character outside the Basic
   * Multilingual Plane (a surrogate pair) counts twice.
   */
  function Utf16Length(s: string): (n: nat)
    ensures |s| <= n <= 2 * |s|
    ensures (forall i :: 0 <= i < |s| ==> s[i] as int < 0x10000) ==> n == |s|
  {
    if |s| == 0 then 0
    else Utf16Length(s[..|s| - 1]) + (if s[|s| - 1] as int >= 0x10000 then 2 else 1)
  }

  /** U+FE0E and U+FE0F, the text and emoji presentation selectors. */
  predicate IsPresentationSelector(c: char) {
    c == '\U{FE0E}' || c == '\U{FE0F}'
  }

  /**
   * The length validator.js's `isLength` compares: the UTF-16 length, less one per
   * surrogate pair and one per presentation selector; that is, one per character
   * that is not a presentation selector.
   */
  function ValidatorLength(s: string): (n: nat)
    ensures n <= |s|
    ensures (forall i :: 0 <= i < |s| ==> !IsPresentationSelector(s[i])) ==> n == |s|
  {
    if |s| == 0 then 0
    else ValidatorLength(s[..|s| - 1]) + (if IsPresentationSelector(s[|s| - 1]) then 0 else 1)
  }

  // ---------------------------------------------------------------- numbers

  predicate IsDigit(c: char) {
    '0' <= c <= '9'
  }

  predicate IsDecimalString(s: string) {
    forall i :: 0 <= i < |s| ==> IsDigit(s[i])
  }

  function DigitChar(d: int): (c: char)
    requires 0 <= d < 10
    ensures IsDigit(c)
  {
    ('0' as int + d) as char
  }

  /** `String(n)` for a non-negative integer: its decimal digits, without leading zeros. */
  function DecimalString(n: nat): (s: string)
    ensures |s| >= 1 && IsDecimalString(s)
    ensures |s| > 1 ==> s[0] != '0'
  {
    if n < 10 then [DigitChar(n)] else DecimalString(n / 10) + [DigitChar(n % 10)]
  }

  function DecimalValue(s: string): nat
    requires IsDecimalString(s)
  {
    if |s| == 0 then 0
    else DecimalValue(s[..|s| - 1]) * 10 + (s[|s| - 1] as int - '0' as int)
  }

  function HexValue(s: string): nat
    requires IsHexString(s)
  {
    if |s| == 0 then 0
    else HexValue(s[..|s| - 1]) * 16 + HexCharValue(s[|s| - 1])
  }

  /** The longest prefix of `s` made of decimal digits. */
  function DecimalRun(s: string): (run: string)
    ensures IsDecimalString(run) && StartsWith(s, run)
    ensures |run| < |s| ==> !IsDigit(s[|run|])
  {
    if |s| == 0 || !IsDigit(s[0]) then "" else [s[0]] + DecimalRun(s[1..])
  }

  /** The longest prefix of `s` made of hex digits. */
  function HexRun(s: string): (run: string)
    ensures IsHexString(run) && StartsWith(s, run)
    ensures |run| < |s| ==> !IsHexChar(s[|run|])
  {
    if |s| == 0 || !IsHexChar(s[0]) then "" else [s[0]] + HexRun(s[1..])
  }

  /** StrWhiteSpaceChar of ECMA-262: white space and line terminators. */
  predicate IsJsWhitespace(c: char) {
    var n := c as int;
    n == 0x09 || n == 0x0A || n == 0x0B || n == 0x0C || n == 0x0D || n == 0x20 || n == 0xA0
    || n == 0x1680 || (0x2000 <= n <= 0x200A) || n == 0x2028 || n == 0x2029 || n == 0x202F
    || n == 0x205F || n == 0x3000 || n == 0xFEFF
  }

  function TrimStart(s: string): (t: string)
    ensures |t| <= |s|
    ensures |t| > 0 ==> !IsJsWhitespace(t[0])
  {
    if |s| > 0 && IsJsWhitespace(s[0]) then TrimStart(s[1..]) else s
  }

  /**
   * `parseInt(s)` with no radix: leading white space is skipped, one sign is read, a
   * "0x"/"0X" prefix selects base 16, and the longest run of digits is read. `None` is NaN.
   */
  function ParseInt(s: string): Option<int> {
    var t := TrimStart(s);
    var negative := |t| > 0 && t[0] == '-';
    var unsigned := if |t| > 0 && (t[0] == '-' || t[0] == '+') then t[1..] else t;
    if |unsigned| >= 2 && unsigned[0] == '0' && (unsigned[1] == 'x' || unsigned[1] == 'X') then
      var run := HexRun(unsigned[2..]);
      var magnitude: int := if run == "" then 0 else HexValue(run);
      if run == "" then None else Some(if negative then -magnitude else magnitude)
    else
      var run := DecimalRun(unsigned);
      var magnitude: int := if run == "" then 0 else DecimalValue(run);
      if run == "" then None else Some(if negative then -magnitude else magnitude)
  }

  lemma {:induction false} DecimalValueOfString(n: nat)
    ensures DecimalValue(DecimalString(n)) == n
  {
    if n >= 10 {
      var s := DecimalString(n);
      assert s[..|s| - 1] == DecimalString(n / 10);
      DecimalValueOfString(n / 10);
    }
  }

  lemma {:induction false} DecimalRunOfDigits(s: string)
    requires IsDecimalString(s)
    ensures DecimalRun(s) == s
  {
    if |s| > 0 {
      DecimalRunOfDigits(s[1..]);
      assert [s[0]] + s[1..] == s;
    }
  }

  /** `parseInt(String(n)) === n` for every non-negative integer n. */
  lemma ParseIntOfDecimal(n: nat)
    ensures ParseInt(DecimalString(n)) == Some(n)
  {
    var s := DecimalString(n);
    assert TrimStart(s) == s;
    DecimalRunOfDigits(s);
    DecimalValueOfString(n);
  }

  /**
   * `s.substring(start, end)`: both bounds are clamped to the string, and swapped when
   * the start is past the end.
   */
  function JsSubstring(s: string, start: nat, end: nat): (r: string)
    ensures |r| <= |s|
    ensures start <= end ==> |r| <= end - start
  {
    var a := if start < |s| then start else |s|;
    var b := if end < |s| then end else |s|;
    if a <= b then s[a..b] else s[b..a]
  }
}
