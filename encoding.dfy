/**
 * The signed-integer and address encoders of lib/config.ts.
 *
 * `toI257` splits an integer into magnitude and sign, the shape of Cairo's
 * i257. `toAddress` prints an integer in base 16 after a `0x` prefix and
 * lower-cases the whole string.
 */
module Encoding {
  import opened Wrappers

  /** Cairo's signed 257-bit integer: a magnitude and a sign flag. */
  datatype I257 = I257(abs: int, is_negative: bool)

  /** The integer an i257 stands for. */
  function SignedValue(v: I257): int
  {
    if v.is_negative then -v.abs else v.abs
  }

  /** The one encoding per integer: non-negative magnitude, and zero is never negative. */
  predicate IsCanonical(v: I257)
  {
    v.abs >= 0 && !(v.abs == 0 && v.is_negative)
  }

  /** `toI257` */
  function ToI257(x: int): (r: I257)
    ensures r.abs >= 0
    ensures SignedValue(r) == x
    ensures r.is_negative <==> x < 0
  {
    if x < 0 then I257(-x, true) else I257(x, false)
  }

  /** `toI257` and `SignedValue` are inverse bijections between integers and canonical encodings. */
  lemma I257RoundTrip(x: int, v: I257)
    ensures IsCanonical(ToI257(x))
    ensures ToI257(x).abs == (if x < 0 then -x else x)
    ensures IsCanonical(v) ==> ToI257(SignedValue(v)) == v
  {
  }

  /** The lower-case base-16 digit of a value below 16. */
  function HexChar(d: int): (c: char)
    requires 0 <= d < 16
    ensures IsLowerHexDigit(c) && DigitValue(c) == d
  {
    if d < 10 then '0' + d as char else 'a' + (d - 10) as char
  }

  predicate IsLowerHexDigit(c: char)
  {
    '0' <= c <= '9' || 'a' <= c <= 'f'
  }

  function DigitValue(c: char): int
    requires IsLowerHexDigit(c)
  {
    if c <= '9' then (c - '0') as int else (c - 'a') as int + 10
  }

  /** `n.toString(16)` for `n >= 0`: lower-case digits, most significant first, no leading zero. */
  function HexDigits(n: nat): (s: string)
    ensures |s| >= 1
    ensures forall i :: 0 <= i < |s| ==> IsLowerHexDigit(s[i])
    ensures s[0] == '0' ==> n == 0
    decreases n
  {
    if n < 16 then [HexChar(n)] else HexDigits(n / 16) + [HexChar(n % 16)]
  }

  /** Reads a string of base-16 digits, most significant first. */
  function ParseHexDigits(s: string): nat
    requires forall i :: 0 <= i < |s| ==> IsLowerHexDigit(s[i])
  {
    if s == [] then 0 else ParseHexDigits(s[..|s| - 1]) * 16 + DigitValue(s[|s| - 1])
  }

  /** ASCII lower-casing, as `String.prototype.toLowerCase` does on these characters. */
  function LowerChar(c: char): char
  {
    if 'A' <= c <= 'Z' then c - 'A' + 'a' else c
  }

  function ToLowerCase(s: string): (r: string)
    ensures |r| == |s|
  {
    seq(|s|, i requires 0 <= i < |s| => LowerChar(s[i]))
  }

  /** `BigInt.prototype.toString(16)`: a minus sign before the magnitude of a negative value. */
  function ToBase16(v: int): string
  {
    if v < 0 then "-" + HexDigits(-v) else HexDigits(v)
  }

  /** `toAddress` */
  function ToAddress(v: int): (r: string)
    ensures |r| >= 3 && r[..2] == "0x"
    ensures v >= 0 ==> r[2..] == HexDigits(v) && (r[2] == '0' ==> v == 0)
  {
    ToLowerIsIdentity(ToBase16(v));
    ToLowerCase("0x" + ToBase16(v))
  }

  lemma ToLowerIsIdentity(digits: string)
    requires forall i :: 0 <= i < |digits| ==> IsLowerHexDigit(digits[i]) || digits[i] == '-'
    ensures ToLowerCase("0x" + digits) == "0x" + digits
  {
  }

  /** Reads back an address printed by `toAddress`; `None` on anything else. */
  function ParseAddress(s: string): Option<int>
  {
    if |s| < 3 || s[..2] != "0x" then None
    else
      var body := s[2..];
      if body[0] == '-' then
        if |body| >= 2 && (forall i :: 1 <= i < |body| ==> IsLowerHexDigit(body[i]))
        then var m: int := ParseHexDigits(body[1..]); Some(-m) else None
      else if forall i :: 0 <= i < |body| ==> IsLowerHexDigit(body[i])
      then Some(ParseHexDigits(body)) else None
  }

  lemma {:induction false} ParseHexDigitsOfHexDigits(n: nat)
    ensures ParseHexDigits(HexDigits(n)) == n
    decreases n
  {
    if n >= 16 {
      ParseHexDigitsOfHexDigits(n / 16);
      var s := HexDigits(n);
      assert s[..|s| - 1] == HexDigits(n / 16);
    }
  }

  /** A digit string with no leading zero is the one `HexDigits` prints for its value. */
  lemma {:induction false} HexDigitsOfParseHexDigits(s: string)
    requires |s| >= 1 && forall i :: 0 <= i < |s| ==> IsLowerHexDigit(s[i])
    requires s[0] == '0' ==> |s| == 1
    ensures HexDigits(ParseHexDigits(s)) == s
    decreases |s|
  {
    if |s| == 1 {
      assert s[..0] == [];
    } else {
      var init := s[..|s| - 1];
      assert init[0] == s[0];
      HexDigitsOfParseHexDigits(init);
      ParseHexDigitsPositive(init);
      var n := ParseHexDigits(s);
      assert n / 16 == ParseHexDigits(init) && n % 16 == DigitValue(s[|s| - 1]);
    }
  }

  lemma {:induction false} ParseHexDigitsPositive(s: string)
    requires |s| >= 1 && forall i :: 0 <= i < |s| ==> IsLowerHexDigit(s[i])
    requires s[0] != '0'
    ensures ParseHexDigits(s) >= 1
    decreases |s|
  {
    if |s| > 1 {
      var init := s[..|s| - 1];
      assert init[0] == s[0];
      ParseHexDigitsPositive(init);
    }
  }

  lemma ParseNonNegativeAddress(n: nat)
    ensures ParseAddress("0x" + HexDigits(n)) == Some(n)
  {
    var s := "0x" + HexDigits(n);
    assert s[..2] == "0x" && s[2..] == HexDigits(n);
    ParseHexDigitsOfHexDigits(n);
  }

  lemma ParseNegativeAddress(n: nat)
    requires n > 0
    ensures ParseAddress("0x" + ("-" + HexDigits(n))) == Some(0 - n as int)
  {
    var h := HexDigits(n);
    var s := "0x" + ("-" + h);
    var body := s[2..];
    assert s[..2] == "0x" && body == "-" + h && body[1..] == h;
    assert forall i :: 1 <= i < |body| ==> IsLowerHexDigit(body[i]) by {
      forall i | 1 <= i < |body| ensures IsLowerHexDigit(body[i]) {
        assert body[i] == h[i - 1];
      }
    }
    ParseHexDigitsOfHexDigits(n);
  }

  /** Parsing the printed address gives the value back. */
  lemma AddressRoundTrip(v: int)
    ensures ParseAddress(ToAddress(v)) == Some(v)
  {
    ToLowerIsIdentity(ToBase16(v));
    if v < 0 {
      ParseNegativeAddress(-v);
    } else {
      ParseNonNegativeAddress(v);
    }
  }

  /** Every canonical address string, "0x" then digits with no leading zero, is printed by `toAddress`. */
  lemma AddressCanonical(s: string)
    requires |s| >= 3 && s[..2] == "0x"
    requires forall i :: 2 <= i < |s| ==> IsLowerHexDigit(s[i])
    requires s[2] == '0' ==> |s| == 3
    ensures ParseAddress(s).Some? && ToAddress(ParseAddress(s).value) == s
  {
    var body := s[2..];
    assert forall i :: 0 <= i < |body| ==> IsLowerHexDigit(body[i]) by {
      forall i | 0 <= i < |body| ensures IsLowerHexDigit(body[i]) {
        assert body[i] == s[i + 2];
      }
    }
    HexDigitsOfParseHexDigits(body);
    assert s == "0x" + body;
  }

  lemma AddressExamples()
    ensures ToAddress(0) == "0x0"
    ensures ToAddress(255) == "0xff"
    ensures ToAddress(4096) == "0x1000"
  {
  }
}
