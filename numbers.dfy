/** The page's integer conversions: `parseInt(s)` with no radix argument, as
    the ECMAScript standard defines it (section 19.2.5 of ECMA-262), and the
    decimal form `String(z)` gives an integer of magnitude at most 2^53.
    `None` stands for `NaN`. */
module Numbers {
  import opened Optional
  import opened Strings

  /** The value of `c` as a digit in any radix up to 16. */
  function DigitValue(c: char): (d: Option<nat>)
    ensures d.Some? ==> d.value < 16
  {
    if '0' <= c <= '9' then Some(c as int - '0' as int)
    else if 'a' <= c <= 'f' then Some(c as int - 'a' as int + 10)
    else if 'A' <= c <= 'F' then Some(c as int - 'A' as int + 10)
    else None
  }

  predicate IsDigit(c: char, radix: nat)
  {
    DigitValue(c).Some? && DigitValue(c).value < radix
  }

  predicate AllDigits(s: string, radix: nat)
  {
    forall i :: 0 <= i < |s| ==> IsDigit(s[i], radix)
  }

  /** The length of the longest prefix of `s` made of radix-`radix` digits. */
  function DigitRunLength(s: string, radix: nat): (k: nat)
    ensures k <= |s| && AllDigits(s[..k], radix)
    ensures k < |s| ==> !IsDigit(s[k], radix)
  {
    if |s| > 0 && IsDigit(s[0], radix) then
      var k := 1 + DigitRunLength(s[1..], radix);
      assert s[..k] == [s[0]] + s[1..][..k - 1];
      k
    else 0
  }

  /** The number a digit string denotes, most significant digit first. */
  function DigitsValue(ds: string, radix: nat): nat
    requires AllDigits(ds, radix)
  {
    if |ds| == 0 then 0
    else DigitsValue(ds[..|ds| - 1], radix) * radix + DigitValue(ds[|ds| - 1]).value
  }

  /** `parseInt(s)`: skip leading white space, take one optional sign, then
      read the magnitude. */
  function ParseInt(s: string): Option<int>
  {
    var t := TrimStart(s);
    if |t| > 0 && t[0] == '-' then
      match ParseMagnitude(t[1..])
      case Some(m) => Some(-(m as int))
      case None => None
    else if |t| > 0 && t[0] == '+' then ParseMagnitude(t[1..])
    else ParseMagnitude(t)
  }

  /** The unsigned part of `parseInt`: a `0x`/`0X` prefix switches to radix
      16; the longest run of digits that follows is the value, anything after
      it is ignored, and no digit at all gives `NaN`. */
  function ParseMagnitude(u: string): Option<nat>
  {
    var hex := |u| >= 2 && u[0] == '0' && (u[1] == 'x' || u[1] == 'X');
    var radix := if hex then 16 else 10;
    var w := if hex then u[2..] else u;
    var k := DigitRunLength(w, radix);
    if k == 0 then None else Some(DigitsValue(w[..k], radix))
  }

  /** A magnitude is read only from text starting with a decimal digit, and
      always from such text unless it starts `0x` or `0X`. */
  lemma ParseMagnitudeStart(u: string)
    ensures ParseMagnitude(u).Some? ==> |u| > 0 && IsDigit(u[0], 10)
    ensures |u| > 0 && IsDigit(u[0], 10) && !(|u| >= 2 && u[0] == '0' && (u[1] == 'x' || u[1] == 'X')) ==>
      ParseMagnitude(u).Some?
  {
  }

  /** `parseInt` gives a number only when, past the leading white space,
      the text starts with a digit or with a sign and a digit; a negative
      number needs a `-`. */
  lemma ParseIntStart(s: string)
    ensures var t := TrimStart(s);
      ParseInt(s).Some? ==> |t| > 0 && (IsDigit(t[0], 10) || ((t[0] == '-' || t[0] == '+') && |t| > 1 && IsDigit(t[1], 10)))
    ensures ParseInt(s).Some? && ParseInt(s).value < 0 ==> TrimStart(s)[0] == '-'
  {
    var t := TrimStart(s);
    if |t| > 0 && (t[0] == '-' || t[0] == '+') {
      ParseMagnitudeStart(t[1..]);
    } else {
      ParseMagnitudeStart(t);
    }
  }

  function DecimalChar(d: nat): (c: char)
    requires d < 10
    ensures IsDigit(c, 10) && DigitValue(c) == Some(d)
  {
    ('0' as int + d) as char
  }

  /** The decimal numeral of `n`, without leading zeros. */
  function NatToString(n: nat): (s: string)
    ensures |s| >= 1 && AllDigits(s, 10)
    ensures s[0] == '0' ==> n == 0 && |s| == 1
    ensures DigitsValue(s, 10) == n
  {
    if n < 10 then [DecimalChar(n)]
    else
      var s := NatToString(n / 10) + [DecimalChar(n % 10)];
      assert s[..|s| - 1] == NatToString(n / 10);
      s
  }

  /** `String(z)` for an integer `z` of magnitude at most 2^53. */
  function IntToString(z: int): string
  {
    if z < 0 then "-" + NatToString(-z) else NatToString(z)
  }

  /** An integer's numeral is non-empty: digits denoting `z` when `z` is not
      negative, and `-` followed by digits denoting `-z` when it is. */
  lemma IntToStringDigits(z: int)
    ensures var s := IntToString(z);
      && |s| >= 1
      && (z < 0 ==> s[0] == '-' && AllDigits(s[1..], 10) && DigitsValue(s[1..], 10) == -z)
      && (z >= 0 ==> AllDigits(s, 10) && DigitsValue(s, 10) == z)
  {
    if z < 0 {
      assert IntToString(z)[1..] == NatToString(-z);
    }
  }

  /** A run of digits followed by a non-digit (or nothing) is read whole. */
  lemma {:induction false} DigitRunOfNumeral(ds: string, rest: string, radix: nat)
    requires AllDigits(ds, radix)
    requires rest == [] || !IsDigit(rest[0], radix)
    ensures DigitRunLength(ds + rest, radix) == |ds|
    ensures (ds + rest)[..|ds|] == ds
  {
    if ds == [] {
      assert ds + rest == rest;
    } else {
      assert (ds + rest)[1..] == ds[1..] + rest;
      assert (ds + rest)[0] == ds[0];
      DigitRunOfNumeral(ds[1..], rest, radix);
    }
  }

  /** `parseInt` reads back the numeral `String(z)` followed by anything that
      does not extend it: a non-digit, and not an `x` turning `0` into a hex
      prefix. In particular `parseInt(String(z)) == z`. */
  lemma ParseIntOfNumeral(z: int, rest: string)
    requires rest == [] || (!IsDigit(rest[0], 10) && rest[0] != 'x' && rest[0] != 'X')
    ensures ParseInt(IntToString(z) + rest) == Some(z)
  {
    if z < 0 {
      NegativeNumeral(z, rest);
    } else {
      UnsignedNumeral(z, rest);
    }
  }

  lemma UnsignedNumeral(m: nat, rest: string)
    requires rest == [] || (!IsDigit(rest[0], 10) && rest[0] != 'x' && rest[0] != 'X')
    ensures ParseInt(IntToString(m) + rest) == Some(m)
  {
    MagnitudeOfNumeral(m, rest);
    ParseIntOfDigits(NatToString(m) + rest, m);
  }

  lemma NegativeNumeral(z: int, rest: string)
    requires z < 0
    requires rest == [] || (!IsDigit(rest[0], 10) && rest[0] != 'x' && rest[0] != 'X')
    ensures ParseInt(IntToString(z) + rest) == Some(z)
  {
    NegativeText(z, rest);
    NegativeRead(z, rest);
  }

  lemma NegativeText(z: int, rest: string)
    requires z < 0
    ensures IntToString(z) + rest == ['-'] + (NatToString(-z) + rest)
  {
    assert IntToString(z) == ['-'] + NatToString(-z);
  }

  lemma NegativeRead(z: int, rest: string)
    requires z < 0
    requires rest == [] || (!IsDigit(rest[0], 10) && rest[0] != 'x' && rest[0] != 'X')
    ensures ParseInt(['-'] + (NatToString(-z) + rest)) == Some(z)
  {
    var u := NatToString(-z) + rest;
    MagnitudeOfNumeral(-z, rest);
    NegatedDigits(u, z);
  }

  lemma NegatedDigits(u: string, z: int)
    requires z < 0 && |u| > 0 && IsDigit(u[0], 10) && ParseMagnitude(u) == Some(-z)
    ensures ParseInt(['-'] + u) == Some(z)
  {
    ParseIntOfDigits(u, -z);
  }

  /** Text that starts with a digit is read by `parseInt` as its magnitude,
      with or without a minus sign in front. */
  lemma ParseIntOfDigits(u: string, m: nat)
    requires |u| > 0 && IsDigit(u[0], 10) && ParseMagnitude(u) == Some(m)
    ensures ParseInt(u) == Some(m)
    ensures ParseInt(['-'] + u) == Some(-(m as int))
  {
    DecimalDigitNotSpace(u[0]);
    assert TrimStart(u) == u;
    var s := ['-'] + u;
    assert TrimStart(s) == s;
    assert s[1..] == u;
  }

  /** A decimal digit is one of `0`-`9`, none of which is white space. */
  lemma DecimalDigitNotSpace(c: char)
    requires IsDigit(c, 10)
    ensures '0' <= c <= '9' && !IsSpace(c)
  {
  }

  /** The unsigned reading of a numeral `NatToString(m)` followed by a
      character that does not extend it is `m`. */
  lemma MagnitudeOfNumeral(m: nat, rest: string)
    requires rest == [] || (!IsDigit(rest[0], 10) && rest[0] != 'x' && rest[0] != 'X')
    ensures ParseMagnitude(NatToString(m) + rest) == Some(m)
    ensures IsDigit((NatToString(m) + rest)[0], 10)
  {
    var n := NatToString(m);
    var u := n + rest;
    assert u[0] == n[0];
    if |u| >= 2 && u[0] == '0' {
      assert u[1] == rest[0];
    }
    DigitRunOfNumeral(n, rest, 10);
  }

  /** The serialised zoom parses back to itself. */
  lemma ParseIntRoundTrip(z: int)
    ensures ParseInt(IntToString(z)) == Some(z)
  {
    ParseIntOfNumeral(z, "");
    assert IntToString(z) + "" == IntToString(z);
  }
}
