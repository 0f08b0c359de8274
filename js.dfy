/**
 * The few pieces of JavaScript semantics the application's logic relies on:
 * nullable values, truthiness of `||` on strings, `String.prototype.trim`,
 * `parseInt`, `Number.prototype.toString` on integers, `includes`,
 * `split(sep)[0]`, UTF-16 `length` and the truncating remainder `%`.
 */
module Js {

  /** `null`/`undefined` versus a present value. */
  datatype Option<+T> = None | Some(value: T)

  /**
   * `a || b` where `a` is a possibly absent string: an absent value and the
   * empty string are falsy, every other string is truthy.
   */
  function OrElse(a: Option<string>, b: string): string {
    if a.Some? && a.value != "" then a.value else b
  }

  /** True when `a` would be truthy in JavaScript. */
  predicate Truthy(a: Option<string>) {
    a.Some? && a.value != ""
  }

  // ---------------------------------------------------------------------
  // Whitespace and trim

  /**
   * The characters ECMAScript's `trim` and `parseInt` skip: WhiteSpace
   * (tab, vertical tab, form feed, space, no-break space, byte order mark
   * and the Zs category) and LineTerminator (LF, CR, LS, PS).
   */
  predicate IsWhitespace(c: char) {
    c == '\t' || c == '\n' || c == '\U{B}' || c == '\U{C}' || c == '\r' || c == ' '
    || c == '\U{A0}' || c == '\U{1680}' || ('\U{2000}' <= c <= '\U{200A}')
    || c == '\U{2028}' || c == '\U{2029}' || c == '\U{202F}' || c == '\U{205F}'
    || c == '\U{3000}' || c == '\U{FEFF}'
  }

  /**
   * Drops the leading whitespace: what `parseInt` does first. Its shape is
   * stated by `TrimStartShape`, kept apart so that every use of `parseInt`
   * does not carry it.
   */
  function TrimStart(s: string): string {
    if s != [] && IsWhitespace(s[0]) then TrimStart(s[1..]) else s
  }

  /**
   * `TrimStart` keeps a suffix of its input, everything it drops is
   * whitespace, and what it keeps does not start with whitespace.
   */
  lemma {:induction false} TrimStartShape(s: string)
    ensures |TrimStart(s)| <= |s| && TrimStart(s) == s[|s| - |TrimStart(s)|..]
    ensures forall i :: 0 <= i < |s| - |TrimStart(s)| ==> IsWhitespace(s[i])
    ensures TrimStart(s) == [] || !IsWhitespace(TrimStart(s)[0])
  {
    if s != [] && IsWhitespace(s[0]) {
      var r := TrimStart(s[1..]);
      TrimStartShape(s[1..]);
      assert s[1..][|s| - 1 - |r|..] == s[|s| - |r|..];
      assert forall i :: 1 <= i < |s| - |r| ==> s[i] == s[1..][i - 1];
    }
  }

  /** Drops the trailing whitespace. */
  function TrimEnd(s: string): (r: string)
    ensures |r| <= |s| && r == s[..|r|]
    ensures forall i :: |r| <= i < |s| ==> IsWhitespace(s[i])
    ensures r == [] || !IsWhitespace(r[|r| - 1])
  {
    if s != [] && IsWhitespace(s[|s| - 1]) then TrimEnd(s[..|s| - 1]) else s
  }

  /** `s.trim()`. */
  function Trim(s: string): string {
    TrimEnd(TrimStart(s))
  }

  /** A string with whitespace at neither end is its own trim. */
  lemma TrimOfTrimmed(s: string)
    requires s == [] || (!IsWhitespace(s[0]) && !IsWhitespace(s[|s| - 1]))
    ensures Trim(s) == s
  {
    assert TrimStart(s) == s;
  }

  /**
   * The shape of `trim`'s result: it starts and ends with a character that
   * is not whitespace, and it is empty exactly when the input is all
   * whitespace.
   */
  lemma {:induction false} TrimShape(s: string)
    ensures Trim(s) == [] || (!IsWhitespace(Trim(s)[0]) && !IsWhitespace(Trim(s)[|Trim(s)| - 1]))
    ensures Trim(s) == [] <==> forall i :: 0 <= i < |s| ==> IsWhitespace(s[i])
  {
    TrimStartShape(s);
    var t := TrimStart(s);
    var r := TrimEnd(t);
    var k := |s| - |t|;
    assert t == s[k..];
    if r != [] {
      assert r[0] == t[0] == s[k];
      assert !IsWhitespace(s[k]);
    }
  }

  /** Trimming twice is trimming once. */
  lemma TrimIdempotent(s: string)
    ensures Trim(Trim(s)) == Trim(s)
  {
    TrimShape(s);
    TrimOfTrimmed(Trim(s));
  }

  // ---------------------------------------------------------------------
  // Integers: toString and parseInt

  /** The value of `c` as a digit in base 36, or 36 when it is not one. */
  function DigitValue(c: char): (d: nat)
    ensures d <= 36
  {
    if '0' <= c <= '9' then c as int - '0' as int
    else if 'a' <= c <= 'z' then c as int - 'a' as int + 10
    else if 'A' <= c <= 'Z' then c as int - 'A' as int + 10
    else 36
  }

  predicate IsDigit(c: char, radix: nat) {
    DigitValue(c) < radix
  }

  /** The longest prefix of `s` made of digits in `radix` (see `DigitPrefixShape`). */
  function DigitPrefix(s: string, radix: nat): string {
    if s != [] && IsDigit(s[0], radix) then [s[0]] + DigitPrefix(s[1..], radix) else []
  }

  /** `DigitPrefix` is a prefix made of digits that stops only at a non-digit or at the end. */
  lemma {:induction false} DigitPrefixShape(s: string, radix: nat)
    ensures |DigitPrefix(s, radix)| <= |s| && DigitPrefix(s, radix) == s[..|DigitPrefix(s, radix)|]
    ensures AllDigits(DigitPrefix(s, radix), radix)
    ensures |DigitPrefix(s, radix)| < |s| ==> !IsDigit(s[|DigitPrefix(s, radix)|], radix)
  {
    if s != [] && IsDigit(s[0], radix) {
      DigitPrefixShape(s[1..], radix);
    }
  }

  /** Every character of `z` is a digit in `radix`. */
  predicate AllDigits(z: string, radix: nat) {
    forall i :: 0 <= i < |z| ==> IsDigit(z[i], radix)
  }

  /** The number a string of digits denotes, most significant digit first. */
  function DigitsValue(z: string, radix: nat): nat
    requires AllDigits(z, radix)
  {
    if z == [] then 0
    else DigitsValue(z[..|z| - 1], radix) * radix + DigitValue(z[|z| - 1])
  }

  /**
   * The outcome of `parseInt`: `NaN`, or an integer. `parseInt("-0")` is
   * the float -0, which is folded into 0 here: every caller in the
   * application applies `|| 0`, which maps both zeros to 0.
   */
  datatype ParsedInt = NaN | Num(value: int)

  /**
   * The unsigned part of `parseInt`: a `0x`/`0X` prefix selects base 16,
   * otherwise base 10, and the longest run of digits that follows is read;
   * no digits at all gives `None` (the `NaN` case).
   */
  function ParseUnsigned(u: string): (r: Option<nat>)
    ensures r.Some? ==> exists i :: 0 <= i < |u| && IsDigit(u[i], 16)
  {
    var hex := |u| >= 2 && u[0] == '0' && (u[1] == 'x' || u[1] == 'X');
    var radix := if hex then 16 else 10;
    var body := if hex then u[2..] else u;
    DigitPrefixShape(body, radix);
    var z := DigitPrefix(body, radix);
    if z == [] then None
    else
      assert IsDigit(z[0], 16) && z[0] == u[|u| - |body|];
      Some(DigitsValue(z, radix))
  }

  /**
   * `parseInt(s)` without a radix argument: leading whitespace is skipped,
   * one sign is taken, and the rest is read by `ParseUnsigned`.
   */
  function ParseInt(s: string): (r: ParsedInt)
    ensures r.Num? ==> exists i :: 0 <= i < |s| && IsDigit(s[i], 16)
  {
    TrimStartShape(s);
    var t := TrimStart(s);
    var negative := t != [] && t[0] == '-';
    var u := if t != [] && (t[0] == '-' || t[0] == '+') then t[1..] else t;
    match ParseUnsigned(u)
    case None => NaN
    case Some(v) =>
      assert u == s[|s| - |u|..];
      Num(if negative then -(v as int) else v)
  }

  /** `parseInt(s) || 0`: NaN (and zero) become 0. */
  function ParseIntOrZero(s: string): int {
    match ParseInt(s)
    case NaN => 0
    case Num(v) => v
  }

  function DigitChar(d: nat): (c: char)
    requires d < 10
    ensures IsDigit(c, 10) && DigitValue(c) == d
  {
    ('0' as int + d) as char
  }

  /** The decimal numeral of `n`, without leading zeros. */
  function NatToString(n: nat): (s: string)
    ensures s != []
    ensures forall i :: 0 <= i < |s| ==> IsDigit(s[i], 10)
    decreases n
  {
    if n < 10 then [DigitChar(n)] else NatToString(n / 10) + [DigitChar(n % 10)]
  }

  /** `n.toString()` for an integer `n`. */
  function IntToString(n: int): (s: string)
    ensures s != []
  {
    if n < 0 then "-" + NatToString(-n) else NatToString(n)
  }

  /** Reading back a decimal numeral gives the number. */
  lemma {:induction false} NatToStringValue(n: nat)
    ensures DigitsValue(NatToString(n), 10) == n
    decreases n
  {
    var s := NatToString(n);
    if n >= 10 {
      NatToStringValue(n / 10);
      assert s[..|s| - 1] == NatToString(n / 10);
    }
  }

  /** A string made only of digits is its own longest digit prefix. */
  lemma {:induction false} DigitPrefixOfDigits(s: string, radix: nat)
    requires forall i :: 0 <= i < |s| ==> IsDigit(s[i], radix)
    ensures DigitPrefix(s, radix) == s
  {
    if s != [] {
      DigitPrefixOfDigits(s[1..], radix);
    }
  }

  /** A decimal numeral is read back in base 10 to its value. */
  lemma ParseUnsignedOfNatToString(n: nat)
    ensures ParseUnsigned(NatToString(n)) == Some(n)
  {
    var s := NatToString(n);
    assert |s| >= 2 ==> IsDigit(s[1], 10);
    DigitPrefixOfDigits(s, 10);
    NatToStringValue(n);
  }

  /**
   * `parseInt(n.toString()) || 0 == n`: a number shown in a text field and
   * saved back unchanged keeps its value.
   */
  lemma ParseIntOfToString(n: int)
    ensures ParseIntOrZero(IntToString(n)) == n
  {
    var m := if n < 0 then -n else n;
    var s := IntToString(n);
    assert IsDigit(NatToString(m)[0], 10);
    assert !IsWhitespace(s[0]);
    assert TrimStart(s) == s;
    ParseUnsignedOfNatToString(m);
    if n < 0 {
      assert s[1..] == NatToString(m);
    }
  }

  // ---------------------------------------------------------------------
  // Other string operations

  /** `s.includes(part)`. */
  predicate Includes(s: string, part: string) {
    part <= s || (s != [] && Includes(s[1..], part))
  }

  /** `s.split(sep)[0]`: the text before the first `sep`, or all of `s`. */
  function BeforeFirst(s: string, sep: char): (r: string)
    ensures |r| <= |s| && r == s[..|r|]
    ensures sep !in r
    ensures |r| < |s| ==> s[|r|] == sep
  {
    if s == [] || s[0] == sep then [] else [s[0]] + BeforeFirst(s[1..], sep)
  }

  /** `s.length`: strings are counted in UTF-16 code units. */
  function Utf16Length(s: string): (n: nat)
    ensures |s| <= n <= 2 * |s|
  {
    if s == [] then 0
    else (if s[0] as int > 0xFFFF then 2 else 1) + Utf16Length(s[1..])
  }

  /** A string of characters from the Basic Multilingual Plane has one code unit per character. */
  lemma {:induction false} Utf16LengthOfBmp(s: string)
    requires forall i :: 0 <= i < |s| ==> s[i] as int <= 0xFFFF
    ensures Utf16Length(s) == |s|
  {
    if s != [] {
      assert forall i :: 0 <= i < |s[1..]| ==> s[1..][i] == s[i + 1];
      Utf16LengthOfBmp(s[1..]);
    }
  }

  /** JavaScript's `a % b`: the remainder takes the sign of the dividend. */
  function JsRem(a: int, b: int): (r: int)
    requires b != 0
    ensures a >= 0 && b > 0 ==> r == a % b
  {
    var m := (if a < 0 then -a else a) % (if b < 0 then -b else b);
    if a < 0 then -m else m
  }
}
