/**
  Decimal text for unbounded integers, as Go's math/big reads and writes it
  (`big.Int.SetString(s, 10)` and `big.Int.String()`), and for the unsigned
  64-bit versions read by `strconv.ParseUint(s, 10, 64)`.
 */
module Decimal {
  import opened Wrappers

  predicate IsDigit(c: char)
  {
    '0' <= c <= '9'
  }

  predicate AllDigits(s: string)
  {
    forall i :: 0 <= i < |s| ==> IsDigit(s[i])
  }

  function DigitValue(c: char): nat
    requires IsDigit(c)
  {
    c as int - '0' as int
  }

  function DigitChar(d: nat): (c: char)
    requires d < 10
    ensures IsDigit(c) && DigitValue(c) == d
  {
    ('0' as int + d) as char
  }

  /** The value of a string of decimal digits, most significant digit first. */
  function DigitsValue(s: string): nat
    requires AllDigits(s)
  {
    if s == [] then 0 else DigitsValue(s[..|s| - 1]) * 10 + DigitValue(s[|s| - 1])
  }

  /** The digits of `n` with no leading zero. */
  function RenderNat(n: nat): (r: string)
    ensures 0 < |r| && AllDigits(r)
  {
    if n < 10 then [DigitChar(n)] else RenderNat(n / 10) + [DigitChar(n % 10)]
  }

  /** `big.Int.String()`: a leading '-' for negative values, then the digits of the magnitude. */
  function RenderInt(i: int): string
  {
    if i < 0 then "-" + RenderNat(-i) else RenderNat(i)
  }

  /** The text after an optional leading sign. */
  function Magnitude(s: string): string
  {
    if 0 < |s| && (s[0] == '+' || s[0] == '-') then s[1..] else s
  }

  /**
    What `big.Int.SetString(s, 10)` accepts: an optional '+' or '-' followed by
    at least one decimal digit and nothing else. Leading zeros are allowed;
    with an explicit base 10 neither a base prefix nor underscores are.
   */
  predicate WellFormed(s: string)
  {
    0 < |Magnitude(s)| && AllDigits(Magnitude(s))
  }

  /** `big.Int.SetString(s, 10)`: the value, or None when the call reports failure. */
  function ParseInt(s: string): Option<int>
  {
    if WellFormed(s) then
      var v: int := DigitsValue(Magnitude(s));
      Some(if s[0] == '-' then -v else v)
    else
      None
  }

  /** Digits with no redundant leading zero. */
  predicate CanonicalNat(m: string)
  {
    0 < |m| && AllDigits(m) && (m[0] == '0' ==> |m| == 1)
  }

  /** The shape `big.Int.String()` produces: canonical digits, with '-' only before a non-zero magnitude. */
  predicate Canonical(s: string)
  {
    CanonicalNat(s) || (1 < |s| && s[0] == '-' && CanonicalNat(s[1..]) && s[1] != '0')
  }

  /** `strconv.ParseUint(s, 10, 64)`: one or more digits, no sign, value below 2^64. */
  function ParseUint64(s: string): Option<nat>
  {
    if 0 < |s| && AllDigits(s) && DigitsValue(s) < 0x1_0000_0000_0000_0000 then Some(DigitsValue(s)) else None
  }

  lemma DigitCharValue(c: char)
    requires IsDigit(c)
    ensures DigitChar(DigitValue(c)) == c
  {
  }

  lemma {:induction false} RenderNatCanonical(n: nat)
    ensures CanonicalNat(RenderNat(n))
    ensures RenderNat(n)[0] == '0' <==> n == 0
  {
    if 10 <= n {
      RenderNatCanonical(n / 10);
    }
  }

  /** Reading back the rendering of a natural number gives that number. */
  lemma {:induction false} RenderNatValue(n: nat)
    ensures DigitsValue(RenderNat(n)) == n
  {
    if 10 <= n {
      var r := RenderNat(n / 10);
      var s := r + [DigitChar(n % 10)];
      assert s[..|s| - 1] == r;
      RenderNatValue(n / 10);
    }
  }

  lemma {:induction false} LeadingDigitPositive(m: string)
    requires 0 < |m| && AllDigits(m) && m[0] != '0'
    ensures 0 < DigitsValue(m)
  {
    if 1 < |m| {
      LeadingDigitPositive(m[..|m| - 1]);
    }
  }

  /** Rendering the value of canonical digits gives the same digits back. */
  lemma {:induction false} CanonicalNatRender(m: string)
    requires CanonicalNat(m)
    ensures RenderNat(DigitsValue(m)) == m
  {
    var last := m[|m| - 1];
    if |m| == 1 {
      DigitCharValue(last);
      assert m == [last];
    } else {
      var p := m[..|m| - 1];
      assert CanonicalNat(p);
      LeadingDigitPositive(p);
      CanonicalNatRender(p);
      var v := DigitsValue(m);
      assert v / 10 == DigitsValue(p) && v % 10 == DigitValue(last);
      DigitCharValue(last);
      assert m == p + [last];
    }
  }

  /** `SetString` reads back exactly what `String` writes, and `String` always writes canonical text. */
  lemma ParseRenderInt(i: int)
    ensures Canonical(RenderInt(i))
    ensures ParseInt(RenderInt(i)) == Some(i)
  {
    var n: nat := if i < 0 then -i else i;
    RenderNatCanonical(n);
    RenderNatValue(n);
    var r := RenderInt(i);
    if i < 0 {
      assert r[1..] == RenderNat(n);
      assert Magnitude(r) == RenderNat(n);
    } else {
      assert Magnitude(r) == RenderNat(n);
    }
  }

  /** Canonical text is the rendering of its own value: the rendering of an integer is unique. */
  lemma RenderParseInt(s: string)
    requires Canonical(s)
    ensures ParseInt(s).Some? && RenderInt(ParseInt(s).value) == s
  {
    if CanonicalNat(s) {
      assert Magnitude(s) == s;
      CanonicalNatRender(s);
    } else {
      var m := s[1..];
      assert Magnitude(s) == m;
      CanonicalNatRender(m);
      LeadingDigitPositive(m);
      assert s == "-" + m;
    }
  }

  /** `strconv.ParseUint` reads back the rendering of every 64-bit unsigned value. */
  lemma ParseUint64Render(n: nat)
    requires n < 0x1_0000_0000_0000_0000
    ensures ParseUint64(RenderNat(n)) == Some(n)
  {
    RenderNatValue(n);
  }
}
