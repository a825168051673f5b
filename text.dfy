/** The JavaScript string and number-parsing built-ins the core relies on:
    `split`, `trim`, `toLowerCase`, `endsWith`, `includes`, `replace` with a
    one-character pattern, `parseInt` and `parseFloat`. */
module Text {
  import opened Util

  /** The white space `String.prototype.trim` removes (the ASCII and the two
      commonest non-ASCII separators). */
  predicate IsSpace(c: char) {
    c == ' ' || c == '\t' || c == '\n' || c == '\r' || c == '\U{000B}' || c == '\U{000C}'
    || c == '\U{00A0}' || c == '\U{FEFF}'
  }

  function TrimStart(s: string): (r: string)
    ensures |r| <= |s| && r == s[|s| - |r|..]
    ensures |r| > 0 ==> !IsSpace(r[0])
  {
    if |s| > 0 && IsSpace(s[0]) then TrimStart(s[1..]) else s
  }

  function TrimEnd(s: string): (r: string)
    ensures |r| <= |s| && r == s[..|r|]
    ensures |r| > 0 ==> !IsSpace(r[|r| - 1])
  {
    if |s| > 0 && IsSpace(s[|s| - 1]) then TrimEnd(s[..|s| - 1]) else s
  }

  function Trim(s: string): string {
    TrimEnd(TrimStart(s))
  }

  /** `s.trim() === ''` exactly when every character is white space. */
  lemma {:induction false} TrimEmptyIffBlank(s: string)
    ensures Trim(s) == "" <==> forall i :: 0 <= i < |s| ==> IsSpace(s[i])
  {
    if |s| > 0 && IsSpace(s[0]) {
      TrimEmptyIffBlank(s[1..]);
      assert forall i :: 1 <= i < |s| ==> s[i] == s[1..][i - 1];
    } else if |s| > 0 {
      TrimEndKeepsNonSpace(s);
    }
  }

  lemma {:induction false} TrimEndKeepsNonSpace(s: string)
    requires |s| > 0 && !IsSpace(s[0])
    ensures TrimEnd(s) != ""
  {
    if IsSpace(s[|s| - 1]) {
      TrimEndKeepsNonSpace(s[..|s| - 1]);
    }
  }

  function LowerChar(c: char): char {
    if 'A' <= c <= 'Z' then (c as int + 32) as char else c
  }

  /** `toLowerCase` on the ASCII letters. */
  function ToLower(s: string): (r: string)
    ensures |r| == |s|
    ensures forall i :: 0 <= i < |s| ==> r[i] == LowerChar(s[i])
  {
    seq(|s|, i requires 0 <= i < |s| => LowerChar(s[i]))
  }

  predicate EndsWith(s: string, suffix: string) {
    |suffix| <= |s| && s[|s| - |suffix|..] == suffix
  }

  /** `haystack.includes(needle)`. */
  predicate Contains(haystack: string, needle: string) {
    needle <= haystack || (|haystack| > 0 && Contains(haystack[1..], needle))
  }

  /** `s.split(sep)` for a one-character separator: never empty, and the
      pieces hold no separator. */
  function Split(s: string, sep: char): (r: seq<string>)
    ensures |r| >= 1
    ensures forall i :: 0 <= i < |r| ==> sep !in r[i]
  {
    if |s| == 0 then [""]
    else
      var rest := Split(s[1..], sep);
      if s[0] == sep then [""] + rest
      else [[s[0]] + rest[0]] + rest[1..]
  }

  /** `pieces.join(sep)`. */
  function Join(pieces: seq<string>, sep: string): string {
    if |pieces| == 0 then ""
    else if |pieces| == 1 then pieces[0]
    else pieces[0] + sep + Join(pieces[1..], sep)
  }

  /** Splitting and joining with the same separator gives the string back. */
  lemma {:induction false} JoinSplit(s: string, sep: char)
    ensures Join(Split(s, sep), [sep]) == s
  {
    if |s| > 0 {
      var rest := Split(s[1..], sep);
      JoinSplit(s[1..], sep);
      if s[0] == sep {
        assert Split(s, sep) == [""] + rest;
        assert ([""] + rest)[1..] == rest;
      } else {
        var r := [[s[0]] + rest[0]] + rest[1..];
        assert Split(s, sep) == r;
        if |rest| == 1 {
        } else {
          assert r[1..] == rest[1..];
          assert Join(rest, [sep]) == rest[0] + [sep] + Join(rest[1..], [sep]);
          assert Join(r, [sep]) == [s[0]] + rest[0] + [sep] + Join(rest[1..], [sep]);
        }
        assert s == [s[0]] + s[1..];
      }
    }
  }

  /** `s.replace(from, to)` with one-character strings: only the first match. */
  function ReplaceFirst(s: string, from: char, to: char): (r: string)
    ensures |r| == |s|
  {
    if |s| == 0 then ""
    else if s[0] == from then [to] + s[1..]
    else [s[0]] + ReplaceFirst(s[1..], from, to)
  }

  // ------------------------------------------------------------- numbers

  predicate IsDigit(c: char) {
    '0' <= c <= '9'
  }

  /** The longest prefix of decimal digits. */
  function DigitPrefix(s: string): (r: string)
    ensures r <= s
    ensures forall i :: 0 <= i < |r| ==> IsDigit(r[i])
    ensures |r| < |s| ==> !IsDigit(s[|r|])
  {
    if |s| > 0 && IsDigit(s[0]) then [s[0]] + DigitPrefix(s[1..]) else ""
  }

  function DigitValue(c: char): nat
    requires IsDigit(c)
  {
    c as int - '0' as int
  }

  function DigitsValue(ds: string): nat
    requires forall i :: 0 <= i < |ds| ==> IsDigit(ds[i])
  {
    if |ds| == 0 then 0
    else DigitsValue(ds[..|ds| - 1]) * 10 + DigitValue(ds[|ds| - 1])
  }

  function Pow10(n: nat): (r: nat)
    ensures r >= 1
  {
    if n == 0 then 1 else 10 * Pow10(n - 1)
  }

  /** Leading white space skipped and an optional sign split off. */
  function SignAndRest(s: string): (bool, string) {
    var t := TrimStart(s);
    if |t| > 0 && t[0] == '-' then (true, t[1..])
    else if |t| > 0 && t[0] == '+' then (false, t[1..])
    else (false, t)
  }

  predicate IsHexDigit(c: char) {
    IsDigit(c) || 'a' <= c <= 'f' || 'A' <= c <= 'F'
  }

  /** The longest prefix of hexadecimal digits. */
  function HexDigitPrefix(s: string): (r: string)
    ensures r <= s
    ensures forall i :: 0 <= i < |r| ==> IsHexDigit(r[i])
    ensures |r| < |s| ==> !IsHexDigit(s[|r|])
  {
    if |s| > 0 && IsHexDigit(s[0]) then [s[0]] + HexDigitPrefix(s[1..]) else ""
  }

  function HexDigitValue(c: char): (v: nat)
    requires IsHexDigit(c)
    ensures v < 16
  {
    if IsDigit(c) then DigitValue(c)
    else if 'a' <= c <= 'f' then c as int - 'a' as int + 10
    else c as int - 'A' as int + 10
  }

  function HexDigitsValue(ds: string): nat
    requires forall i :: 0 <= i < |ds| ==> IsHexDigit(ds[i])
  {
    if |ds| == 0 then 0
    else HexDigitsValue(ds[..|ds| - 1]) * 16 + HexDigitValue(ds[|ds| - 1])
  }

  /** `0x` or `0X`, which `parseInt` without a radix reads as base 16. */
  predicate HasHexPrefix(u: string) {
    |u| >= 2 && u[0] == '0' && (u[1] == 'x' || u[1] == 'X')
  }

  /** The magnitude `parseInt` reads after the sign: base 16 after a `0x` or
      `0X` prefix, base 10 otherwise; `None` when no digit follows. */
  function ParseMagnitude(u: string): (r: Option<nat>)
    ensures r.Some? <==> if HasHexPrefix(u) then |HexDigitPrefix(u[2..])| > 0 else |DigitPrefix(u)| > 0
    ensures r.Some? && !HasHexPrefix(u) ==> r.value == DigitsValue(DigitPrefix(u))
    ensures r.Some? && HasHexPrefix(u) ==> r.value == HexDigitsValue(HexDigitPrefix(u[2..]))
  {
    if HasHexPrefix(u) then
      var ds := HexDigitPrefix(u[2..]);
      if |ds| == 0 then None else Some(HexDigitsValue(ds))
    else
      var ds := DigitPrefix(u);
      if |ds| == 0 then None else Some(DigitsValue(ds))
  }

  /** `parseInt(s)` without a radix: `None` stands for `NaN`. */
  function ParseInt(s: string): (r: Option<int>)
    ensures r.Some? <==> ParseMagnitude(SignAndRest(s).1).Some?
    ensures r.Some? && !SignAndRest(s).0 ==> r.value == ParseMagnitude(SignAndRest(s).1).value
    ensures r.Some? && SignAndRest(s).0 ==> r.value == -(ParseMagnitude(SignAndRest(s).1).value as int)
  {
    var (neg, u) := SignAndRest(s);
    match ParseMagnitude(u)
    case None => None
    case Some(v) => Some(if neg then -(v as int) else v)
  }

  /** `0x1F` reads as 31. */
  lemma ParseIntHexUpper()
    ensures ParseInt("0x1F") == Some(31)
  {
    assert TrimStart("0x1F") == "0x1F";
    assert SignAndRest("0x1F") == (false, "0x1F");
    assert "0x1F"[2..] == "1F";
    assert HexDigitPrefix("1F") == "1F";
    assert "1F"[..1] == "1";
    assert HexDigitsValue("1F") == 31;
  }

  /** `-0x5` reads as -5. */
  lemma ParseIntHexNegative()
    ensures ParseInt("-0x5") == Some(-5)
  {
    assert TrimStart("-0x5") == "-0x5";
    assert SignAndRest("-0x5") == (true, "0x5");
    assert "0x5"[2..] == "5";
    assert HexDigitPrefix("5") == "5";
    assert HexDigitsValue("5") == 5;
  }

  /** A prefix with no hex digit after it is `NaN`. */
  lemma ParseIntPrefixWithoutDigits()
    ensures ParseInt("0xg") == None
  {
    assert TrimStart("0xg") == "0xg";
    assert SignAndRest("0xg") == (false, "0xg");
    assert HasHexPrefix("0xg");
    assert "0xg"[2..] == "g";
    assert HexDigitPrefix("g") == "";
  }

  /** A `0` before any letter other than `x` or `X` reads as decimal 0. */
  lemma ParseIntZeroBeforeLetter()
    ensures ParseInt("0y5") == Some(0)
  {
    assert TrimStart("0y5") == "0y5";
    assert SignAndRest("0y5") == (false, "0y5");
    assert !HasHexPrefix("0y5");
    assert "0y5"[1..] == "y5";
    assert DigitPrefix("y5") == "";
    assert DigitPrefix("0y5") == "0";
    assert "0"[..0] == "";
    assert DigitsValue("0") == 0;
  }

  /** The strings `parseFloat` reads a number from: after optional white space
      and sign, digits before the decimal point or after it. */
  predicate IsNumeric(s: string) {
    var u := SignAndRest(s).1;
    var whole := DigitPrefix(u);
    |whole| > 0 || (|whole| < |u| && u[|whole|] == '.' && |DigitPrefix(u[|whole| + 1..])| > 0)
  }

  /** `parseFloat(s)` on decimal notation: `None` stands for `NaN`. */
  function ParseFloat(s: string): (r: Option<real>)
    ensures r.Some? <==> IsNumeric(s)
  {
    var (neg, u) := SignAndRest(s);
    var whole := DigitPrefix(u);
    var rest := u[|whole|..];
    var frac := if |rest| > 0 && rest[0] == '.' then DigitPrefix(rest[1..]) else "";
    if |whole| == 0 && |frac| == 0 then None
    else
      var magnitude := DigitsValue(whole) as real + DigitsValue(frac) as real / Pow10(|frac|) as real;
      Some(if neg then -magnitude else magnitude)
  }

  function DigitChar(d: nat): char
    requires d < 10
  {
    ('0' as int + d) as char
  }

  /** The decimal spelling of a natural number, as string interpolation prints it. */
  function NatToString(n: nat): (r: string)
    ensures |r| > 0
    ensures forall i :: 0 <= i < |r| ==> IsDigit(r[i])
    decreases n
  {
    if n < 10 then [DigitChar(n)] else NatToString(n / 10) + [DigitChar(n % 10)]
  }

  /** Printing a natural number and parsing the digits back gives the number. */
  lemma {:induction false} DigitsValueOfNatToString(n: nat)
    ensures DigitsValue(NatToString(n)) == n
    decreases n
  {
    if n >= 10 {
      DigitsValueOfNatToString(n / 10);
      var s := NatToString(n / 10) + [DigitChar(n % 10)];
      assert s[..|s| - 1] == NatToString(n / 10);
    }
  }

  function IntToString(n: int): string {
    if n < 0 then "-" + NatToString(-n) else NatToString(n)
  }
}
