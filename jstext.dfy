/**
 * The few pieces of JavaScript's string and number semantics the presentation relies on:
 * `String.prototype.trim`, `split` and `join` with a one-character separator, the global
 * `parseInt` without a radix, and the decimal rendering of an integer in a template literal.
 */
module JsText {

  /** WhiteSpace and LineTerminator code points of ECMAScript: what `trim` and `parseInt` skip. */
  predicate IsSpace(c: char) {
    c == ' ' || c == '\t' || c == '\n' || c == '\r' || c == '\U{B}' || c == '\U{C}'
    || c == '\U{A0}' || c == '\U{1680}' || ('\U{2000}' <= c <= '\U{200A}')
    || c == '\U{2028}' || c == '\U{2029}' || c == '\U{202F}' || c == '\U{205F}'
    || c == '\U{3000}' || c == '\U{FEFF}'
  }

  // ---------------------------------------------------------------------------
  // trim
  // ---------------------------------------------------------------------------

  /** Number of white-space characters at the front of `s`. */
  function LeadingSpaces(s: string): (k: nat)
    ensures k <= |s|
  {
    if s == [] || !IsSpace(s[0]) then 0 else 1 + LeadingSpaces(s[1..])
  }

  /** The leading white space is a run of white space that is not followed by more. */
  lemma {:induction false} LeadingSpacesSpec(s: string)
    ensures forall i :: 0 <= i < LeadingSpaces(s) ==> IsSpace(s[i])
    ensures LeadingSpaces(s) < |s| ==> !IsSpace(s[LeadingSpaces(s)])
  {
    if s != [] && IsSpace(s[0]) {
      LeadingSpacesSpec(s[1..]);
    }
  }

  /** Number of white-space characters at the back of `s`. */
  function TrailingSpaces(s: string): (k: nat)
    ensures k <= |s|
    ensures forall i :: |s| - k <= i < |s| ==> IsSpace(s[i])
    ensures k < |s| ==> !IsSpace(s[|s| - 1 - k])
  {
    if s == [] || !IsSpace(s[|s| - 1]) then 0 else 1 + TrailingSpaces(s[..|s| - 1])
  }

  function TrimStart(s: string): string {
    s[LeadingSpaces(s)..]
  }

  function TrimEnd(s: string): string {
    s[..|s| - TrailingSpaces(s)]
  }

  /** `s.trim()`: white space removed at both ends. */
  function Trim(s: string): string {
    TrimEnd(TrimStart(s))
  }

  /**
   * `trim` is characterised by what it keeps: padding a string that neither starts nor ends
   * with white space by white space on either side, and trimming, gives it back.
   */
  lemma TrimPadded(pre: string, core: string, post: string)
    requires forall i :: 0 <= i < |pre| ==> IsSpace(pre[i])
    requires forall i :: 0 <= i < |post| ==> IsSpace(post[i])
    requires core != [] ==> !IsSpace(core[0]) && !IsSpace(core[|core| - 1])
    ensures Trim(pre + core + post) == core
  {
    var s := pre + core + post;
    var k := LeadingSpaces(s);
    LeadingSpacesSpec(s);
    if core == [] {
      assert forall i :: 0 <= i < |s| ==> IsSpace(s[i]);
      assert k == |s|;
    } else {
      assert !IsSpace(s[|pre|]);
      assert k == |pre|;
      var t := s[k..];
      assert t == core + post;
      var m := TrailingSpaces(t);
      assert !IsSpace(t[|core| - 1]);
      assert m == |post|;
      assert t[..|t| - m] == core;
    }
  }

  // ---------------------------------------------------------------------------
  // split and join
  // ---------------------------------------------------------------------------

  /** Position of the first occurrence of `c` in `s`. */
  function IndexOf(s: string, c: char): (i: nat)
    requires c in s
    ensures i < |s| && s[i] == c && c !in s[..i]
  {
    if s[0] == c then 0 else 1 + IndexOf(s[1..], c)
  }

  /** `parts.join(sep)`. */
  function Join(parts: seq<string>, sep: char): string {
    if parts == [] then []
    else if |parts| == 1 then parts[0]
    else parts[0] + [sep] + Join(parts[1..], sep)
  }

  /**
   * `s.split(sep)` for a one-character separator: the pieces between occurrences of `sep`,
   * always at least one (the empty string splits into one empty piece). Joining the pieces
   * gives `s` back, and no piece contains the separator.
   */
  function Split(s: string, sep: char): (parts: seq<string>)
    ensures |parts| >= 1
    ensures forall i :: 0 <= i < |parts| ==> sep !in parts[i]
    ensures Join(parts, sep) == s
    decreases |s|
  {
    if sep in s then
      var i := IndexOf(s, sep);
      var rest := Split(s[i + 1..], sep);
      assert s == s[..i] + [sep] + s[i + 1..];
      [s[..i]] + rest
    else
      [s]
  }

  /**
   * What `const [head, ...tail] = s.split(sep)` yields: the text before the first separator,
   * and pieces that joined again are exactly the text after it.
   */
  lemma {:induction false} SplitAtFirst(s: string, sep: char)
    ensures var parts := Split(s, sep);
      if sep in s then
        parts[0] == s[..IndexOf(s, sep)] && |parts| > 1
        && Join(parts[1..], sep) == s[IndexOf(s, sep) + 1..]
      else
        parts == [s]
  {
    if sep in s {
      var i := IndexOf(s, sep);
      assert Split(s, sep) == [s[..i]] + Split(s[i + 1..], sep);
      assert Split(s, sep)[1..] == Split(s[i + 1..], sep);
    }
  }

  // ---------------------------------------------------------------------------
  // Numbers: parseInt and decimal rendering
  // ---------------------------------------------------------------------------

  /** The result of `parseInt`: an integer or NaN. */
  datatype Num = Int(value: int) | NaN

  predicate IsDecimalDigit(c: char) {
    '0' <= c <= '9'
  }

  /** Value of `c` as a digit of base 36, or 36 when `c` is no such digit. */
  function DigitValue(c: char): nat {
    if '0' <= c <= '9' then c as nat - '0' as nat
    else if 'a' <= c <= 'z' then c as nat - 'a' as nat + 10
    else if 'A' <= c <= 'Z' then c as nat - 'A' as nat + 10
    else 36
  }

  predicate IsDigitOf(c: char, radix: nat) {
    DigitValue(c) < radix
  }

  /** Length of the longest prefix of `s` made of digits of `radix`. */
  function DigitPrefix(s: string, radix: nat): (k: nat)
    ensures k <= |s|
  {
    if s == [] || !IsDigitOf(s[0], radix) then 0 else 1 + DigitPrefix(s[1..], radix)
  }

  /** The digit prefix is a run of digits that is not followed by another digit. */
  lemma {:induction false} DigitPrefixSpec(s: string, radix: nat)
    ensures forall i :: 0 <= i < DigitPrefix(s, radix) ==> IsDigitOf(s[i], radix)
    ensures DigitPrefix(s, radix) < |s| ==> !IsDigitOf(s[DigitPrefix(s, radix)], radix)
  {
    if s != [] && IsDigitOf(s[0], radix) {
      DigitPrefixSpec(s[1..], radix);
    }
  }

  /** A string made only of digits is its own digit prefix. */
  lemma {:induction false} DigitPrefixFull(z: string, radix: nat)
    requires forall i :: 0 <= i < |z| ==> IsDigitOf(z[i], radix)
    ensures DigitPrefix(z, radix) == |z|
  {
    if z != [] {
      assert forall i :: 0 <= i < |z[1..]| ==> z[1..][i] == z[i + 1];
      DigitPrefixFull(z[1..], radix);
    }
  }

  /** The number the digits `z` denote in base `radix`, most significant first. */
  function DigitsValue(z: string, radix: nat): nat {
    if z == [] then 0
    else DigitsValue(z[..|z| - 1], radix) * radix + DigitValue(z[|z| - 1])
  }

  /** The longest run of digits of `radix` at the front of `v`, with its sign; NaN when there is none. */
  function DigitRun(v: string, radix: nat, negative: bool): Num {
    var k := DigitPrefix(v, radix);
    if k == 0 then NaN
    else Int(if negative then -(DigitsValue(v[..k], radix) as int) else DigitsValue(v[..k], radix))
  }

  /**
   * `parseInt(s)` with no radix: leading white space is skipped, one sign is read, a `0x`
   * or `0X` prefix selects base 16, and the longest run of digits that follows is the
   * value; no digit at all gives NaN.
   */
  function ParseInt(s: string): Num {
    var t := TrimStart(s);
    var negative := |t| > 0 && t[0] == '-';
    var u := if |t| > 0 && (t[0] == '-' || t[0] == '+') then t[1..] else t;
    if |u| >= 2 && u[0] == '0' && (u[1] == 'x' || u[1] == 'X') then DigitRun(u[2..], 16, negative)
    else DigitRun(u, 10, negative)
  }

  function DecimalChar(d: nat): char
    requires d < 10
  {
    ('0' as int + d) as char
  }

  /** Decimal digits of `n`, most significant first, without leading zeros. */
  function NatDigits(n: nat): (r: string)
    ensures |r| >= 1
    ensures forall i :: 0 <= i < |r| ==> IsDecimalDigit(r[i])
    ensures DigitsValue(r, 10) == n
  {
    if n < 10 then
      assert DigitsValue([DecimalChar(n)], 10) == DigitsValue([], 10) * 10 + n;
      [DecimalChar(n)]
    else
      var r := NatDigits(n / 10) + [DecimalChar(n % 10)];
      assert r[..|r| - 1] == NatDigits(n / 10);
      r
  }

  /** `${n}` for an integer `n`. */
  function IntToString(n: int): (r: string)
    ensures |r| >= 1 && IsDecimalDigit(r[|r| - 1])
  {
    if n < 0 then "-" + NatDigits(-n) else NatDigits(n)
  }

  /** Past the white space and the sign, a string without a `0x` prefix is read in base 10. */
  lemma ParseUnsigned(s: string, u: string, negative: bool)
    requires u != [] && u[0] != '-' && u[0] != '+' && !IsSpace(u[0])
    requires !(|u| >= 2 && u[0] == '0' && (u[1] == 'x' || u[1] == 'X'))
    requires s == (if negative then "-" + u else u)
    ensures ParseInt(s) == DigitRun(u, 10, negative)
  {
    assert !IsSpace(s[0]);
    assert LeadingSpaces(s) == 0;
    assert TrimStart(s) == s;
    if negative {
      assert s[1..] == u;
    }
  }

  /** Every digit string reads back as its own value. */
  lemma ParseDigits(z: string)
    requires |z| >= 1 && forall i :: 0 <= i < |z| ==> IsDecimalDigit(z[i])
    ensures ParseInt(z) == Int(DigitsValue(z, 10))
  {
    ParseUnsigned(z, z, false);
    DigitPrefixFull(z, 10);
    assert z[..DigitPrefix(z, 10)] == z;
  }

  /** `parseInt` reads back every integer rendered in decimal. */
  lemma ParseIntRoundTrip(n: int)
    ensures ParseInt(IntToString(n)) == Int(n)
  {
    var z := NatDigits(if n < 0 then -n else n);
    ParseUnsigned(IntToString(n), z, n < 0);
    DigitPrefixFull(z, 10);
    assert z[..DigitPrefix(z, 10)] == z;
  }

  /** Decimal rendering is one-to-one. */
  lemma IntToStringInjective(m: int, n: int)
    requires IntToString(m) == IntToString(n)
    ensures m == n
  {
    ParseIntRoundTrip(m);
    ParseIntRoundTrip(n);
  }

  /** A string whose first character is neither white space, a sign nor a decimal digit is NaN. */
  lemma ParseIntNoDigits(s: string)
    requires s != [] && !IsSpace(s[0]) && s[0] != '-' && s[0] != '+' && !IsDecimalDigit(s[0])
    ensures ParseInt(s) == NaN
  {
    assert TrimStart(s) == s;
    assert DigitPrefix(s, 10) == 0;
  }

  /** A string of white space alone is NaN. */
  lemma ParseIntBlank(s: string)
    requires forall i :: 0 <= i < |s| ==> IsSpace(s[i])
    ensures ParseInt(s) == NaN
  {
    LeadingSpacesSpec(s);
    assert LeadingSpaces(s) == |s|;
  }
}
