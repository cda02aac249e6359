/** String primitives of JavaScript that the pages and the scoring engine rely on, on
    `seq<char>`: ASCII `toLowerCase`, `includes`, the whitespace `trim` removes, decimal
    rendering of numbers and `parseInt` without a radix. */
module Text {

  import opened Basics

  predicate IsUpper(c: char) { 'A' <= c <= 'Z' }

  function LowerChar(c: char): char {
    if IsUpper(c) then (c as int + 32) as char else c
  }

  /** `s.toLowerCase()` on the ASCII letters; every other character is kept. */
  function Lower(s: string): (t: string)
    ensures |t| == |s|
    ensures forall i :: 0 <= i < |s| ==> t[i] == LowerChar(s[i])
    ensures forall i :: 0 <= i < |s| ==> !IsUpper(t[i])
  {
    if s == [] then [] else [LowerChar(s[0])] + Lower(s[1..])
  }

  lemma LowerIdempotent(s: string)
    ensures Lower(Lower(s)) == Lower(s)
  {
    assert forall i :: 0 <= i < |s| ==> LowerChar(LowerChar(s[i])) == LowerChar(s[i]);
  }

  predicate StartsWith(s: string, p: string) {
    |p| <= |s| && s[..|p|] == p
  }

  /** `s.includes(p)`: `p` occurs in `s` at some position; the empty string occurs everywhere. */
  function Contains(s: string, p: string): bool
    decreases |s|
  {
    StartsWith(s, p) || (|s| > 0 && Contains(s[1..], p))
  }

  /** `p` occurs in `s` starting at index `i`. */
  predicate OccursAt(s: string, p: string, i: nat) {
    i + |p| <= |s| && s[i..i + |p|] == p
  }

  /** `Contains` agrees with the positional reading of "`p` is a substring of `s`". */
  lemma {:induction false} ContainsIff(s: string, p: string)
    ensures Contains(s, p) <==> exists i: nat :: OccursAt(s, p, i)
    decreases |s|
  {
    if |s| > 0 {
      ContainsIff(s[1..], p);
      if exists i: nat :: OccursAt(s, p, i) {
        var i: nat :| OccursAt(s, p, i);
        if i > 0 {
          assert OccursAt(s[1..], p, i - 1);
        } else {
          assert StartsWith(s, p);
        }
      }
      if Contains(s[1..], p) && !StartsWith(s, p) {
        var i: nat :| OccursAt(s[1..], p, i);
        assert OccursAt(s, p, i + 1);
      }
      if StartsWith(s, p) {
        assert OccursAt(s, p, 0);
      }
    } else {
      if exists i: nat :: OccursAt(s, p, i) {
        var i: nat :| OccursAt(s, p, i);
        assert StartsWith(s, p);
      }
      if StartsWith(s, p) {
        assert OccursAt(s, p, 0);
      }
    }
  }

  lemma ContainsInfix(a: string, p: string, b: string)
    ensures Contains(a + p + b, p)
  {
    var s := a + p + b;
    assert OccursAt(s, p, |a|);
    ContainsIff(s, p);
  }

  lemma ContainsEmpty(s: string)
    ensures Contains(s, "")
  {
    assert StartsWith(s, "");
  }

  /** The characters `String.prototype.trim` removes: the ECMAScript WhiteSpace and
      LineTerminator code points. */
  predicate IsJsSpace(c: char) {
    c == '\t' || c == '\n' || c == '\r' || c == ' ' || c == '\U{B}' || c == '\U{C}'
    || c == '\U{A0}' || c == '\U{1680}' || ('\U{2000}' <= c <= '\U{200A}')
    || c == '\U{2028}' || c == '\U{2029}' || c == '\U{202F}' || c == '\U{205F}'
    || c == '\U{3000}' || c == '\U{FEFF}'
  }

  /** `!s.trim()`: nothing is left once the surrounding whitespace is removed. */
  predicate IsBlank(s: string) {
    forall i :: 0 <= i < |s| ==> IsJsSpace(s[i])
  }

  predicate IsDecimalDigit(c: char) { '0' <= c <= '9' }

  predicate IsHexDigit(c: char) {
    IsDecimalDigit(c) || ('a' <= c <= 'f') || ('A' <= c <= 'F')
  }

  function DigitValue(c: char): (d: nat)
    requires IsHexDigit(c)
    ensures d < 16
    ensures IsDecimalDigit(c) ==> d < 10
  {
    if IsDecimalDigit(c) then c as int - '0' as int
    else if 'a' <= c <= 'f' then c as int - 'a' as int + 10
    else c as int - 'A' as int + 10
  }

  predicate IsDigitIn(c: char, radix: nat)
    ensures IsDigitIn(c, radix) ==> IsHexDigit(c)
  {
    if radix == 16 then IsHexDigit(c) else IsDecimalDigit(c)
  }

  /** The value of a digit string read most significant digit first. */
  function DigitsValue(s: string, radix: nat): nat
    requires radix == 10 || radix == 16
    requires forall i :: 0 <= i < |s| ==> IsDigitIn(s[i], radix)
  {
    if s == [] then 0
    else
      assert IsDigitIn(s[|s| - 1], radix);
      DigitsValue(s[..|s| - 1], radix) * radix + DigitValue(s[|s| - 1])
  }

  /** The length of the longest run of radix digits at the start of `s`. */
  function DigitPrefix(s: string, radix: nat): (n: nat)
    ensures n <= |s|
    ensures forall i :: 0 <= i < n ==> IsDigitIn(s[i], radix)
    ensures n < |s| ==> !IsDigitIn(s[n], radix)
  {
    if s != [] && IsDigitIn(s[0], radix) then 1 + DigitPrefix(s[1..], radix) else 0
  }

  function DigitChar(d: nat): (c: char)
    requires d < 10
    ensures IsDecimalDigit(c) && DigitValue(c) == d
  {
    ('0' as int + d) as char
  }

  /** The decimal numeral of `n`, without leading zeros. */
  function NatText(n: nat): (s: string)
    ensures |s| > 0
    ensures forall i :: 0 <= i < |s| ==> IsDecimalDigit(s[i])
    ensures s[0] == '0' ==> n == 0 && |s| == 1
    decreases n
  {
    if n < 10 then [DigitChar(n)] else NatText(n / 10) + [DigitChar(n % 10)]
  }

  /** `String(n)` for an integer `n`. */
  function IntText(n: int): string {
    if n < 0 then "-" + NatText(-n) else NatText(n)
  }

  /** Up to `k` fractional digits of `f`, stopping as soon as the expansion ends. */
  function FractionDigits(f: real, k: nat): string
    requires 0.0 < f < 1.0
    decreases k
  {
    var g := f * 10.0;
    var d := g.Floor;
    var rest := g - d as real;
    if k <= 1 || rest == 0.0 then [DigitChar(d)] else [DigitChar(d)] + FractionDigits(rest, k - 1)
  }

  /** `String(x)` for the readings the scoring engine prints: an integer is written
      exactly, other values with at most 20 fractional digits. */
  function NumText(x: real): string {
    var a := if x < 0.0 then -x else x;
    var whole := a.Floor;
    var sign := if x < 0.0 then "-" else "";
    if a == whole as real then sign + NatText(whole)
    else sign + NatText(whole) + "." + FractionDigits(a - whole as real, 20)
  }
  /** A whole number is written without a fraction. */
  lemma NumTextOfWhole(n: nat)
    ensures NumText(n as real) == NatText(n)
  {
    assert (n as real).Floor == n;
  }


  /** The outcome of `parseInt`: an integer or `NaN`. */
  datatype ParsedInt = Int(value: int) | NaN

  /** `parseInt(s)` with no radix argument (ECMAScript section 19.2.5): leading
      whitespace is skipped, one sign is read, a `0x`/`0X` prefix switches to base 16,
      and the longest run of digits is converted; no digits at all gives `NaN`. */
  function ParseInt(s: string): ParsedInt {
    var t := s[SpacePrefix(s)..];
    if |t| > 0 && t[0] == '-' then Negate(ParseUnsigned(t[1..]))
    else if |t| > 0 && t[0] == '+' then ParseUnsigned(t[1..])
    else ParseUnsigned(t)
  }

  function Negate(r: ParsedInt): ParsedInt {
    match r
    case NaN => NaN
    case Int(v) => Int(-v)
  }

  function ParseUnsigned(u: string): ParsedInt {
    if |u| >= 2 && u[0] == '0' && (u[1] == 'x' || u[1] == 'X') then ParseDigits(u[2..], 16)
    else ParseDigits(u, 10)
  }

  function ParseDigits(body: string, radix: nat): ParsedInt
    requires radix == 10 || radix == 16
  {
    var n := DigitPrefix(body, radix);
    if n == 0 then NaN else Int(DigitsValue(body[..n], radix))
  }

  function SpacePrefix(s: string): (n: nat)
    ensures n <= |s|
    ensures forall i :: 0 <= i < n ==> IsJsSpace(s[i])
    ensures n < |s| ==> !IsJsSpace(s[n])
  {
    if s != [] && IsJsSpace(s[0]) then 1 + SpacePrefix(s[1..]) else 0
  }

  lemma {:induction false} NatTextValue(n: nat)
    ensures DigitsValue(NatText(n), 10) == n
    decreases n
  {
    if n >= 10 {
      var s := NatText(n);
      NatTextValue(n / 10);
      assert s[..|s| - 1] == NatText(n / 10);
    }
  }

  lemma DigitPrefixAll(s: string, radix: nat)
    requires forall i :: 0 <= i < |s| ==> IsDigitIn(s[i], radix)
    ensures DigitPrefix(s, radix) == |s|
  {
  }

  lemma ParseNatText(m: nat)
    ensures ParseUnsigned(NatText(m)) == Int(m)
  {
    var digits := NatText(m);
    NatTextValue(m);
    DigitPrefixAll(digits, 10);
    assert digits[..|digits|] == digits;
  }

  /** `parseInt(String(n)) === n`: parsing the numeral of an integer gives it back. */
  lemma ParseIntText(n: int)
    ensures ParseInt(IntText(n)) == Int(n)
  {
    var m := if n < 0 then -n else n;
    ParseNatText(m);
    var s := IntText(n);
    assert SpacePrefix(s) == 0;
    assert s[0..] == s;
    if n < 0 {
      assert s[1..] == NatText(m);
    }
  }
}
