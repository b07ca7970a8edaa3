/** JavaScript's global `parseInt(string)` with no radix argument, as the range resolver uses it
    (ECMAScript's parseInt: strip leading white space, an optional sign, an optional `0x`/`0X`
    prefix, then the longest run of digits of the radix). Results above 2^53 are exact here,
    where JavaScript would round them. */
module JsParseInt {
  import opened Text

  /** A JavaScript number as parseInt can produce it: NaN or an integer. (-0 is written 0:
      nothing in the server tells the two apart.) */
  datatype Num = NaN | Int(value: int)

  /** ECMAScript's WhiteSpace and LineTerminator code points. */
  predicate IsJsWhiteSpace(c: char) {
    var u := c as int;
    u == 0x09 || u == 0x0A || u == 0x0B || u == 0x0C || u == 0x0D || u == 0x20
    || u == 0xA0 || u == 0x1680 || (0x2000 <= u <= 0x200A) || u == 0x2028 || u == 0x2029
    || u == 0x202F || u == 0x205F || u == 0x3000 || u == 0xFEFF
  }

  /** `s` with its leading white space removed. */
  function TrimStart(s: string): (t: string)
    ensures |t| <= |s| && t == s[|s| - |t|..]
    ensures t == [] || !IsJsWhiteSpace(t[0])
    ensures s != [] && !IsJsWhiteSpace(s[0]) ==> t == s
    decreases |s|
  {
    if s != [] && IsJsWhiteSpace(s[0]) then TrimStart(s[1..]) else s
  }

  /** The value of `c` as a digit in any radix up to 36; 36 for a character that is no digit. */
  function DigitValue(c: char): (d: nat)
    ensures d <= 36
    ensures d < 10 <==> IsDigit(c)
  {
    if '0' <= c <= '9' then c as int - '0' as int
    else if 'a' <= c <= 'z' then c as int - 'a' as int + 10
    else if 'A' <= c <= 'Z' then c as int - 'A' as int + 10
    else 36
  }

  /** The longest prefix of `s` made of digits of the radix. */
  function DigitRun(s: string, radix: nat): (z: string)
    ensures |z| <= |s| && z == s[..|z|]
    ensures forall i :: 0 <= i < |z| ==> DigitValue(z[i]) < radix
    ensures |z| < |s| ==> DigitValue(s[|z|]) >= radix
    decreases |s|
  {
    if s == [] || DigitValue(s[0]) >= radix then [] else [s[0]] + DigitRun(s[1..], radix)
  }

  /** The value of a numeral, most significant digit first. */
  function ValueOf(z: string, radix: nat): nat
    decreases |z|
  {
    if z == [] then 0 else ValueOf(z[..|z| - 1], radix) * radix + DigitValue(z[|z| - 1])
  }

  predicate IsHexPrefixed(u: string) {
    |u| >= 2 && u[0] == '0' && (u[1] == 'x' || u[1] == 'X')
  }

  /** The unsigned part of parseInt: a hexadecimal numeral after `0x`/`0X`, else a decimal one. */
  function ParseMagnitude(u: string): (n: Num)
    ensures n.Int? ==> n.value >= 0
  {
    var radix := if IsHexPrefixed(u) then 16 else 10;
    var z := DigitRun(if IsHexPrefixed(u) then u[2..] else u, radix);
    if z == [] then NaN else Int(ValueOf(z, radix))
  }

  /** `parseInt(s)` */
  function ParseInt(s: string): (n: Num)
    ensures n.Int? && n.value < 0 ==> |TrimStart(s)| > 0 && TrimStart(s)[0] == '-'
  {
    var t := TrimStart(s);
    if |t| > 0 && t[0] == '-' then
      match ParseMagnitude(t[1..])
      case NaN => NaN
      case Int(v) => Int(-v)
    else if |t| > 0 && t[0] == '+' then ParseMagnitude(t[1..])
    else ParseMagnitude(t)
  }

  /** The numeral `String(n)` has the value `n`. */
  lemma {:induction false} ValueOfNatToString(n: nat)
    ensures ValueOf(NatToString(n), 10) == n
    decreases n
  {
    var s := NatToString(n);
    if n < 10 {
      assert s[..0] == [];
    } else {
      ValueOfNatToString(n / 10);
      assert s[..|s| - 1] == NatToString(n / 10);
    }
  }

  /** A run of digits followed by a non-digit is read exactly. */
  lemma {:induction false} DigitRunStopsAt(z: string, rest: string, radix: nat)
    requires forall i :: 0 <= i < |z| ==> DigitValue(z[i]) < radix
    requires rest == [] || DigitValue(rest[0]) >= radix
    ensures DigitRun(z + rest, radix) == z
    decreases |z|
  {
    if z == [] {
      assert z + rest == rest;
    } else {
      assert (z + rest)[1..] == z[1..] + rest;
      DigitRunStopsAt(z[1..], rest, radix);
      assert [z[0]] + z[1..] == z;
    }
  }

  /** parseInt reads back what `String(n)` wrote, and ignores whatever follows the numeral
      once that does not start with a digit (nor, after "0", with an `x`). */
  lemma ParseIntOfNumeral(n: nat, rest: string)
    requires rest == [] || !IsDigit(rest[0])
    requires n == 0 && rest != [] ==> rest[0] != 'x' && rest[0] != 'X'
    ensures ParseInt(NatToString(n) + rest) == Int(n)
  {
    var z := NatToString(n);
    var s := z + rest;
    assert s[0] == z[0];
    assert TrimStart(s) == s;
    assert ParseInt(s) == ParseMagnitude(s);
    assert !IsHexPrefixed(s);
    DigitRunStopsAt(z, rest, 10);
    ValueOfNatToString(n);
    assert DigitRun(s, 10) == z;
    assert ParseMagnitude(s) == Int(ValueOf(z, 10));
  }

  /** parseInt(String(n)) == n */
  lemma ParseIntRoundTrip(n: nat)
    ensures ParseInt(NatToString(n)) == Int(n)
  {
    ParseIntOfNumeral(n, []);
    assert NatToString(n) + [] == NatToString(n);
  }

  /** A string without a minus sign never parses to a negative number. */
  lemma ParseIntWithoutMinus(s: string)
    requires '-' !in s
    ensures ParseInt(s).Int? ==> ParseInt(s).value >= 0
  {
    var t := TrimStart(s);
    if |t| > 0 {
      assert t[0] == s[|s| - |t|];
    }
  }

  lemma MagnitudeWithoutDigits(u: string)
    requires forall i :: 0 <= i < |u| ==> !IsDigit(u[i])
    ensures ParseMagnitude(u) == NaN
  {
    assert !IsHexPrefixed(u);
    assert u == [] || DigitValue(u[0]) >= 10;
  }

  /** A string without a decimal digit is not a number. */
  lemma ParseIntWithoutDigits(s: string)
    requires forall i :: 0 <= i < |s| ==> !IsDigit(s[i])
    ensures ParseInt(s) == NaN
  {
    var t := TrimStart(s);
    assert forall i :: 0 <= i < |t| ==> t[i] == s[|s| - |t| + i];
    if |t| > 0 && (t[0] == '-' || t[0] == '+') {
      MagnitudeWithoutDigits(t[1..]);
    } else {
      MagnitudeWithoutDigits(t);
    }
  }

  /** Leading white space is skipped. */
  lemma ParseIntSkipsWhiteSpace(c: char, s: string)
    requires IsJsWhiteSpace(c)
    ensures ParseInt([c] + s) == ParseInt(s)
  {
    TrimStartSkips(c, s);
  }

  lemma TrimStartSkips(c: char, s: string)
    requires IsJsWhiteSpace(c)
    ensures TrimStart([c] + s) == TrimStart(s)
  {
    assert ([c] + s)[1..] == s;
  }
}
