/** The quantity typed into a cart line's number input: `parseInt` of the
    input's text, with `|| 1` turning NaN and zero into one. */
module QuantityInput {
  import opened Text

  /** What `parseInt` produces: a whole number, or NaN when no digit follows
      the optional sign and prefix. */
  datatype Parsed = NaN | Int(value: int)

  /** The value of a digit character in bases up to 16; 36 for any other
      character, which is a digit in no base used here. */
  function DigitValue(c: char): (v: nat)
    ensures v <= 15 || v == 36
  {
    if '0' <= c <= '9' then c as int - '0' as int
    else if 'a' <= c <= 'f' then c as int - 'a' as int + 10
    else if 'A' <= c <= 'F' then c as int - 'A' as int + 10
    else 36
  }

  predicate IsDigit(c: char, radix: nat)
  {
    DigitValue(c) < radix
  }

  /** The longest prefix of `s` made of digits of the given base. */
  function DigitPrefix(s: string, radix: nat): (d: string)
    ensures |d| <= |s| && d == s[..|d|]
    ensures forall i :: 0 <= i < |d| ==> IsDigit(d[i], radix)
    ensures |d| == |s| || !IsDigit(s[|d|], radix)
  {
    if s != [] && IsDigit(s[0], radix) then [s[0]] + DigitPrefix(s[1..], radix) else []
  }

  /** The number a string of digits denotes, most significant digit first. */
  function DigitsValue(d: string, radix: nat): nat
  {
    if d == [] then 0 else DigitsValue(d[..|d| - 1], radix) * radix + DigitValue(d[|d| - 1])
  }

  /** `parseInt(s)` with no radix argument: leading whitespace is skipped, one
      sign is read, then the magnitude. */
  function ParseInt(s: string): (p: Parsed)
    ensures AllSpace(s) ==> p == NaN
  {
    SkipSpacesSuffix(s);
    ParseSigned(SkipSpaces(s))
  }

  /** An optional `-` or `+` followed by the magnitude; `-` negates it. */
  function ParseSigned(t: string): Parsed
  {
    if t != [] && t[0] == '-' then
      match Magnitude(t[1..])
      case NaN => NaN
      case Int(m) => Int(-m)
    else if t != [] && t[0] == '+' then Magnitude(t[1..])
    else Magnitude(t)
  }

  /** A `0x` or `0X` prefix selects base 16, otherwise base 10; the longest
      run of digits that follows is the number, and without any the result is
      NaN. What comes after the digits is ignored. */
  function Magnitude(u: string): (p: Parsed)
    ensures p.Int? ==> p.value >= 0
  {
    var hex := |u| >= 2 && u[0] == '0' && (u[1] == 'x' || u[1] == 'X');
    var radix := if hex then 16 else 10;
    var digits := DigitPrefix(if hex then u[2..] else u, radix);
    if digits == [] then NaN else Int(DigitsValue(digits, radix))
  }

  /** `parsed || 1`: NaN and zero are falsy and give one; any other number,
      negative ones included, is kept. */
  function OrOne(parsed: Parsed): (q: int)
    ensures q != 0
    ensures q == 1 <==> parsed == NaN || parsed == Int(0) || parsed == Int(1)
    ensures parsed.Int? && parsed.value != 0 ==> q == parsed.value
  {
    match parsed
    case NaN => 1
    case Int(v) => if v == 0 then 1 else v
  }

  /** The quantity the cart page asks for when an input's text changes. */
  function QuantityRequested(text: string): (q: int)
    ensures q != 0
  {
    OrOne(ParseInt(text))
  }

  // ----- decimal text -------------------------------------------------------

  function DigitChar(d: nat): char
    requires d < 10
  {
    ('0' as int + d) as char
  }

  /** The decimal numeral of `n`, without leading zeros. */
  function Decimal(n: nat): (s: string)
    ensures s != []
  {
    if n < 10 then [DigitChar(n)] else Decimal(n / 10) + [DigitChar(n % 10)]
  }

  /** The numeral of a whole number, with a minus sign when it is negative. */
  function IntText(n: int): string
  {
    if n < 0 then "-" + Decimal(-n) else Decimal(n)
  }

  /** A decimal numeral is all digits, starts with zero only for zero, and
      denotes the number it was made from. */
  lemma {:induction false} DecimalDigits(n: nat)
    ensures forall i :: 0 <= i < |Decimal(n)| ==> IsDigit(Decimal(n)[i], 10)
    ensures Decimal(n)[0] == '0' ==> n == 0 && |Decimal(n)| == 1
    ensures DigitsValue(Decimal(n), 10) == n
  {
    var s := Decimal(n);
    if n >= 10 {
      DecimalDigits(n / 10);
      var front := Decimal(n / 10);
      assert s == front + [DigitChar(n % 10)];
      assert s[..|s| - 1] == front;
      assert s[0] == front[0];
      forall i | 0 <= i < |s| ensures IsDigit(s[i], 10) {
        if i < |front| {
          assert s[i] == front[i];
        }
      }
    }
  }

  /** The longest digit prefix of digits followed by a non-digit is the digits. */
  lemma {:induction false} DigitPrefixOfDigits(d: string, tail: string, radix: nat)
    requires forall i :: 0 <= i < |d| ==> IsDigit(d[i], radix)
    requires tail == [] || !IsDigit(tail[0], radix)
    ensures DigitPrefix(d + tail, radix) == d
  {
    if d == [] {
      assert d + tail == tail;
    } else {
      assert (d + tail)[0] == d[0];
      assert (d + tail)[1..] == d[1..] + tail;
      assert forall i :: 0 <= i < |d[1..]| ==> IsDigit(d[1..][i], radix) by {
        forall i | 0 <= i < |d[1..]| ensures IsDigit(d[1..][i], radix) {
          assert d[1..][i] == d[i + 1];
        }
      }
      DigitPrefixOfDigits(d[1..], tail, radix);
      assert d == [d[0]] + d[1..];
    }
  }

  /** `parseInt` reads back the numeral of any whole number, whatever follows
      it that is not a digit ("3" gives 3, "-2" gives -2, "2.5" gives 2,
      "5x" gives 5), except that "0" followed by x or X is a hex prefix. */
  lemma {:induction false} ParseIntText(n: int, tail: string)
    requires tail == [] || (!IsDigit(tail[0], 10) && (n == 0 ==> tail[0] != 'x' && tail[0] != 'X'))
    ensures ParseInt(IntText(n) + tail) == Int(n)
  {
    var m: nat := if n < 0 then -n else n;
    MagnitudeOfDecimal(m, tail);
    var u := Decimal(m) + tail;
    var s := IntText(n) + tail;
    if n < 0 {
      assert s == "-" + u;
      assert s[0] == '-' && s[1..] == u;
    } else {
      assert s == u;
      assert s[0] == Decimal(m)[0];
    }
    assert SkipSpaces(s) == s;
  }

  lemma {:induction false} MagnitudeOfDecimal(m: nat, tail: string)
    requires tail == [] || (!IsDigit(tail[0], 10) && (m == 0 ==> tail[0] != 'x' && tail[0] != 'X'))
    ensures var u := Decimal(m) + tail;
      Magnitude(u) == Int(m) && IsDigit(u[0], 10) && u[0] != '-' && u[0] != '+'
  {
    var d := Decimal(m);
    DecimalDigits(m);
    DigitPrefixOfDigits(d, tail, 10);
    var u := d + tail;
    assert u[0] == d[0];
    assert |u| >= 2 && u[0] == '0' ==> u[1] == tail[0];
  }

  /** Any non-empty run of decimal digits, leading zeros included, is read
      whole and denotes its value, unless it is a lone `0` followed by the x
      of a hex prefix. */
  lemma {:induction false} MagnitudeOfDigits(d: string, tail: string)
    requires d != [] && forall i :: 0 <= i < |d| ==> IsDigit(d[i], 10)
    requires tail == [] || !IsDigit(tail[0], 10)
    requires d == "0" ==> tail == [] || (tail[0] != 'x' && tail[0] != 'X')
    ensures Magnitude(d + tail) == Int(DigitsValue(d, 10))
  {
    DigitPrefixOfDigits(d, tail, 10);
    var u := d + tail;
    assert u[0] == d[0];
    if |u| >= 2 && u[0] == '0' {
      if |d| >= 2 {
        assert u[1] == d[1];
      } else {
        assert d == "0" && u[1] == tail[0];
      }
    }
  }

  /** After `0x` or `0X`, the longest run of hex digits is the number; with
      no hex digit there the result is NaN. */
  lemma {:induction false} MagnitudeOfHex(x: char, d: string, tail: string)
    requires x == 'x' || x == 'X'
    requires forall i :: 0 <= i < |d| ==> IsDigit(d[i], 16)
    requires tail == [] || !IsDigit(tail[0], 16)
    ensures Magnitude(['0', x] + d + tail) == if d == [] then NaN else Int(DigitsValue(d, 16))
  {
    var u := ['0', x] + d + tail;
    assert u[0] == '0' && u[1] == x;
    assert u[2..] == d + tail;
    DigitPrefixOfDigits(d, tail, 16);
  }

  /** Zeros in front of a run of digits do not change its value. */
  lemma {:induction false} DigitsValueLeadingZeros(z: string, d: string, radix: nat)
    requires forall i :: 0 <= i < |z| ==> z[i] == '0'
    ensures DigitsValue(z + d, radix) == DigitsValue(d, radix)
    decreases |d|
  {
    if d == [] {
      assert z + d == z;
      DigitsValueZeros(z, radix);
    } else {
      var front := d[..|d| - 1];
      assert (z + d)[..|z + d| - 1] == z + front;
      assert (z + d)[|z + d| - 1] == d[|d| - 1];
      DigitsValueLeadingZeros(z, front, radix);
    }
  }

  lemma {:induction false} DigitsValueZeros(z: string, radix: nat)
    requires forall i :: 0 <= i < |z| ==> z[i] == '0'
    ensures DigitsValue(z, radix) == 0
  {
    if z != [] {
      var front := z[..|z| - 1];
      assert forall i :: 0 <= i < |front| ==> front[i] == '0' by {
        forall i | 0 <= i < |front| ensures front[i] == '0' {
          assert front[i] == z[i];
        }
      }
      DigitsValueZeros(front, radix);
    }
  }

  /** A sign before a run of decimal digits, leading zeros included: `-`
      negates the value and `+` keeps it. A run worth zero after `-` gives
      JavaScript's -0, which `|| 1` treats like 0, so it is modelled as 0. */
  lemma {:induction false} ParseIntSigned(d: string, tail: string)
    requires d != [] && forall i :: 0 <= i < |d| ==> IsDigit(d[i], 10)
    requires tail == [] || !IsDigit(tail[0], 10)
    requires d == "0" ==> tail == [] || (tail[0] != 'x' && tail[0] != 'X')
    ensures ParseInt("-" + d + tail) == Int(-(DigitsValue(d, 10) as int))
    ensures ParseInt("+" + d + tail) == Int(DigitsValue(d, 10))
  {
    MagnitudeOfDigits(d, tail);
    var u := d + tail;
    var minus := "-" + d + tail;
    var plus := "+" + d + tail;
    assert minus == "-" + u && minus[0] == '-' && minus[1..] == u;
    assert plus == "+" + u && plus[0] == '+' && plus[1..] == u;
    assert SkipSpaces(minus) == minus;
    assert SkipSpaces(plus) == plus;
  }

  /** A sign with no digit after it gives NaN, so "-", "+" and "-.5" ask for
      quantity 1. */
  lemma {:induction false} ParseIntSignWithoutDigits(sign: char, tail: string)
    requires sign == '-' || sign == '+'
    requires tail == [] || !IsDigit(tail[0], 10)
    ensures ParseInt([sign] + tail) == NaN && QuantityRequested([sign] + tail) == 1
  {
    var t := [sign] + tail;
    assert t[0] == sign && t[1..] == tail;
    assert SkipSpaces(t) == t;
    assert |tail| >= 2 ==> tail[0] != '0';
  }

  /** A negative number above -1 parses to -0: "-0.5" asks for quantity 1,
      which keeps the line. */
  lemma QuantityOfNegativeFraction()
    ensures ParseInt("-0.5") == Int(0) && QuantityRequested("-0.5") == 1
  {
    var t := "-0.5";
    assert t == "-" + "0" + ".5";
    ParseIntSigned("0", ".5");
  }

  /** The text "-0" asks for quantity 1 as well. */
  lemma QuantityOfNegativeZero()
    ensures ParseInt("-0") == Int(0) && QuantityRequested("-0") == 1
  {
    var t := "-0";
    assert t == "-" + "0" + "";
    assert "0"[..0] == [];
    ParseIntSigned("0", "");
  }

  /** Leading zeros after a minus sign are ignored: "-007" asks for -7. */
  lemma QuantityOfNegativePadded()
    ensures QuantityRequested("-007") == -7
  {
    var t := "-007";
    assert t == "-" + "007" + "";
    DigitsValueLeadingZeros("00", "7", 10);
    assert "00" + "7" == "007";
    assert "7"[..0] == [];
    ParseIntSigned("007", "");
  }

  /** Text that starts with a digit is parsed without a sign. */
  lemma ParseIntUnsigned(u: string)
    requires u != [] && IsDigit(u[0], 10)
    ensures ParseInt(u) == Magnitude(u)
  {
    assert SkipSpaces(u) == u;
  }

  /** A number input holding "007" asks for quantity 7. */
  lemma QuantityOfPadded()
    ensures QuantityRequested("007") == 7
  {
    var d := "007";
    assert d == "00" + "7";
    DigitsValueLeadingZeros("00", "7", 10);
    assert "7"[..0] == [];
    MagnitudeOfDigits(d, "");
    assert d + "" == d;
    ParseIntUnsigned(d);
  }

  /** `parseInt` reads "0x1F" in base 16, so that text would ask for
      quantity 31. The cart's number input never holds it: a browser turns
      text that is not a valid number into "". This states what `parseInt`
      itself does. */
  lemma QuantityOfHex()
    ensures QuantityRequested("0x1F") == 31
  {
    var h := "0x1F";
    assert h == ['0', 'x'] + "1F" + "";
    MagnitudeOfHex('x', "1F", "");
    assert "1F"[..1] == "1" && "1"[..0] == [];
    ParseIntUnsigned(h);
  }

  /** Whitespace before the number makes no difference. */
  lemma {:induction false} ParseIntAfterSpaces(w: string, s: string)
    requires AllSpace(w)
    ensures ParseInt(w + s) == ParseInt(s)
  {
    SkipSpacesAfterSpaces(w, s);
  }

  /** Text with no digit where the number should start gives NaN, so the
      requested quantity is one: an emptied input sets the quantity to one. */
  lemma {:induction false} QuantityOfNonNumber(text: string)
    requires text == [] || (!IsDigit(text[0], 10) && !IsSpace(text[0]) && text[0] != '-' && text[0] != '+')
    ensures ParseInt(text) == NaN && QuantityRequested(text) == 1
  {
    assert SkipSpaces(text) == text;
  }

  /** The requested quantity is the typed number unless that number is zero. */
  lemma {:induction false} QuantityOfNumber(n: int, tail: string)
    requires tail == [] || (!IsDigit(tail[0], 10) && (n == 0 ==> tail[0] != 'x' && tail[0] != 'X'))
    ensures QuantityRequested(IntText(n) + tail) == if n == 0 then 1 else n
  {
    ParseIntText(n, tail);
  }
}
