/**
 * Decimal text for integers and for the floating-point values the
 * calibration store accepts: Python's `int(text)`, `float(text)`, and the
 * `str()` of an `int` or of a `float`.
 *
 * A float is modelled as an exact decimal `mantissa / 10^scale`, kept in
 * canonical form (no trailing zero digit after the point), which is what
 * Python's shortest-repr printing gives for ordinary magnitudes.
 */
module Numbers {
  import opened Wrappers
  import opened Text

  /** Python's `max(a, b)` on floats. */
  function MaxReal(a: real, b: real): real {
    if b > a then b else a
  }

  /** Python's `min(a, b)` on floats. */
  function MinReal(a: real, b: real): real {
    if b < a then b else a
  }

  predicate IsDigit(c: char) {
    '0' <= c <= '9'
  }

  predicate AllDigits(s: string) {
    forall i :: 0 <= i < |s| ==> IsDigit(s[i])
  }

  function DigitChar(d: nat): (c: char)
    requires d < 10
    ensures IsDigit(c) && c as int - '0' as int == d
  {
    ('0' as int + d) as char
  }

  /** Value of a string of decimal digits, most significant digit first. */
  function DigitsValue(s: string): nat
    requires AllDigits(s)
  {
    if s == [] then 0 else DigitsValue(s[..|s| - 1]) * 10 + (s[|s| - 1] as int - '0' as int)
  }

  lemma DigitsValueSnoc(s: string, c: char)
    requires AllDigits(s) && IsDigit(c)
    ensures AllDigits(s + [c]) && DigitsValue(s + [c]) == DigitsValue(s) * 10 + (c as int - '0' as int)
  {
    assert (s + [c])[..|s|] == s;
  }

  /** The decimal digits of `n` without leading zeros ("0" for zero). */
  function NatToDigits(n: nat): (r: string)
    ensures r != [] && AllDigits(r)
    ensures |r| > 1 ==> r[0] != '0'
    decreases n
  {
    if n < 10 then [DigitChar(n)] else NatToDigits(n / 10) + [DigitChar(n % 10)]
  }

  /** The digits spell `n`. */
  lemma {:induction false} NatToDigitsValue(n: nat)
    ensures DigitsValue(NatToDigits(n)) == n
    decreases n
  {
    if n >= 10 {
      NatToDigitsValue(n / 10);
      DigitsValueSnoc(NatToDigits(n / 10), DigitChar(n % 10));
    }
  }

  /** `str(i)` for a Python `int`. */
  function IntToString(i: int): string {
    if i < 0 then "-" + NatToDigits(-i) else NatToDigits(i)
  }

  /** `int(text)`: surrounding whitespace, an optional sign, then one or more
      decimal digits; anything else raises, modelled as `None`. */
  function ParseInt(text: string): Option<int> {
    var t := Trim(text);
    if t != [] && (t[0] == '-' || t[0] == '+') then
      var body := t[1..];
      if body != [] && AllDigits(body) then
        Some(if t[0] == '-' then -(DigitsValue(body) as int) else DigitsValue(body))
      else None
    else if t != [] && AllDigits(t) then Some(DigitsValue(t))
    else None
  }

  /** `int(x)` for a float: the integer part, rounding toward zero. */
  function Truncate(d: Decimal): int {
    if d.mantissa >= 0 then d.mantissa / Pow10(d.scale)
    else -((-d.mantissa) / Pow10(d.scale))
  }

  /** Reading back the printed form of an integer gives the integer. */
  lemma IntRoundTrip(i: int)
    ensures ParseInt(IntToString(i)) == Some(i)
  {
    var s := IntToString(i);
    var d := NatToDigits(if i < 0 then -i else i);
    NatToDigitsValue(if i < 0 then -i else i);
    assert IsDigit(d[0]) && IsDigit(d[|d| - 1]);
    if i < 0 {
      assert s == "-" + d && s[0] == '-' && s[1..] == d && s[|s| - 1] == d[|d| - 1];
    } else {
      assert s == d;
    }
    TrimNoop(s);
  }

  function Pow10(k: nat): (r: nat)
    ensures r >= 1
  {
    if k == 0 then 1 else 10 * Pow10(k - 1)
  }

  /** An exact decimal number `mantissa / 10^scale`. */
  datatype Decimal = Decimal(mantissa: int, scale: nat) {
    function Value(): real {
      mantissa as real / Pow10(scale) as real
    }

    /** No redundant trailing zero after the point. */
    predicate Canonical() {
      scale == 0 || mantissa % 10 != 0
    }
  }

  /** Drops trailing zero digits after the point. */
  function Normalize(d: Decimal): (r: Decimal)
    ensures r.Canonical() && r.scale <= d.scale
    decreases d.scale
  {
    if d.scale > 0 && d.mantissa % 10 == 0 then Normalize(Decimal(d.mantissa / 10, d.scale - 1)) else d
  }

  /** Normalising keeps the number the decimal stands for. */
  lemma {:induction false} NormalizeValue(d: Decimal)
    ensures Normalize(d).Value() == d.Value()
    decreases d.scale
  {
    if d.scale > 0 && d.mantissa % 10 == 0 {
      var q := d.mantissa / 10;
      var p := Pow10(d.scale - 1) as real;
      assert d.mantissa as real == 10.0 * q as real;
      assert Pow10(d.scale) as real == 10.0 * p;
      assert d.Value() == Decimal(q, d.scale - 1).Value();
      NormalizeValue(Decimal(q, d.scale - 1));
    }
  }

  /** `n` zero characters. */
  function Zeros(n: nat): (r: string)
    ensures |r| == n && AllDigits(r) && forall i :: 0 <= i < n ==> r[i] == '0'
  {
    if n == 0 then "" else "0" + Zeros(n - 1)
  }

  /** Leading zeros do not change the value of a digit string. */
  lemma {:induction false} LeadingZeros(n: nat, s: string)
    requires AllDigits(s)
    ensures AllDigits(Zeros(n) + s) && DigitsValue(Zeros(n) + s) == DigitsValue(s)
    decreases |s|
  {
    if s != [] {
      var init := s[..|s| - 1];
      LeadingZeros(n, init);
      assert Zeros(n) + s == (Zeros(n) + init) + [s[|s| - 1]];
      DigitsValueSnoc(Zeros(n) + init, s[|s| - 1]);
      DigitsValueSnoc(init, s[|s| - 1]);
      assert init + [s[|s| - 1]] == s;
    } else {
      ZerosValue(n);
      assert Zeros(n) + s == Zeros(n);
    }
  }

  lemma {:induction false} ZerosValue(n: nat)
    ensures DigitsValue(Zeros(n)) == 0
  {
    AllZerosValue(Zeros(n));
  }

  lemma {:induction false} AllZerosValue(s: string)
    requires forall i :: 0 <= i < |s| ==> s[i] == '0'
    ensures AllDigits(s) && DigitsValue(s) == 0
  {
    if s != [] {
      AllZerosValue(s[..|s| - 1]);
    }
  }

  /** `str(x)` for a Python float holding the decimal `d`: a sign, the
      integer part, a point, and the fraction digits (at least one). */
  function RenderDecimal(d: Decimal): string {
    SignPrefix(d.mantissa) + RenderMagnitude(Abs(d.mantissa), d.scale)
  }

  function Abs(m: int): nat {
    if m < 0 then -m else m
  }

  function SignPrefix(m: int): string {
    if m < 0 then "-" else ""
  }

  /** The digits of `a` with a point placed `scale` digits from the right. */
  function RenderMagnitude(a: nat, scale: nat): string {
    var padded := Padded(a, scale);
    var cut := |padded| - scale;
    padded[..cut] + "." + (if scale == 0 then "0" else padded[cut..])
  }

  /** The digits of `a`, zero-padded so that at least one digit is left
      before the point. */
  function Padded(a: nat, scale: nat): (r: string)
    ensures |r| > scale
  {
    var digits := NatToDigits(a);
    Zeros(if |digits| < scale + 1 then scale + 1 - |digits| else 0) + digits
  }

  /** Position of the first `c` in `s`. */
  function IndexOf(s: string, c: char): (r: Option<nat>)
    ensures r.Some? ==> r.value < |s|
  {
    if s == [] then None
    else if s[0] == c then Some(0)
    else match IndexOf(s[1..], c)
      case None => None
      case Some(k) => Some(k + 1)
  }

  /** `IndexOf` finds the first occurrence, and `None` only when there is none. */
  lemma {:induction false} IndexOfFirst(s: string, c: char)
    ensures IndexOf(s, c).None? ==> forall i :: 0 <= i < |s| ==> s[i] != c
    ensures IndexOf(s, c).Some? ==>
      s[IndexOf(s, c).value] == c && forall i :: 0 <= i < IndexOf(s, c).value ==> s[i] != c
  {
    if s != [] && s[0] != c {
      IndexOfFirst(s[1..], c);
      assert forall i :: 1 <= i < |s| ==> s[i] == s[1..][i - 1];
    }
  }

  /** The first `c` at `k` is what `IndexOf` finds. */
  lemma {:induction false} IndexOfAt(s: string, c: char, k: nat)
    requires k < |s| && s[k] == c && forall i :: 0 <= i < k ==> s[i] != c
    ensures IndexOf(s, c) == Some(k)
  {
    if k > 0 {
      IndexOfAt(s[1..], c, k - 1);
    }
  }

  /** Digits with at most one point and at least one digit, read as an
      unsigned decimal with one fraction digit per digit after the point. */
  function ParseUnsigned(body: string): (r: Option<Decimal>)
    ensures r.Some? ==> r.value.mantissa >= 0
  {
    var dot := IndexOf(body, '.');
    var whole := if dot.Some? then body[..dot.value] else body;
    var fraction := if dot.Some? then body[dot.value + 1..] else "";
    if AllDigits(whole) && AllDigits(fraction) && |whole| + |fraction| > 0 then
      assert AllDigits(whole + fraction);
      Some(Decimal(DigitsValue(whole + fraction), |fraction|))
    else None
  }

  /** `float(text)` for plain decimal literals: surrounding whitespace, an
      optional sign, digits with at most one point and at least one digit.
      Exponents, `inf`, `nan` and digit-group underscores are not accepted. */
  function ParseDecimal(text: string): Option<Decimal> {
    ParseStripped(Trim(text))
  }

  /** `float` of text without surrounding whitespace. */
  function ParseStripped(t: string): Option<Decimal> {
    var negative := t != [] && t[0] == '-';
    var body := if t != [] && (t[0] == '-' || t[0] == '+') then t[1..] else t;
    match ParseUnsigned(body)
    case None => None
    case Some(u) => Some(Normalize(Decimal(if negative then -u.mantissa else u.mantissa, u.scale)))
  }

  /** A digit string, a point and more digits parse as one digit string
      whose last `|fraction|` digits are after the point. */
  lemma ParseUnsignedOf(whole: string, fraction: string)
    requires AllDigits(whole) && AllDigits(fraction) && whole != []
    ensures AllDigits(whole + fraction)
    ensures ParseUnsigned(whole + "." + fraction) == Some(Decimal(DigitsValue(whole + fraction), |fraction|))
  {
    var body := whole + "." + fraction;
    assert IndexOf(body, '.') == Some(|whole|) by {
      assert body[|whole|] == '.';
      assert forall i :: 0 <= i < |whole| ==> body[i] == whole[i] && IsDigit(body[i]);
      IndexOfAt(body, '.', |whole|);
    }
    assert body[..|whole|] == whole;
    assert body[|whole| + 1..] == fraction;
  }

  /** The digits of `a`, zero-padded to at least `scale + 1` digits, spell `a`. */
  lemma PaddedValue(a: nat, scale: nat)
    ensures var padded := Padded(a, scale);
            |padded| > scale && AllDigits(padded) && DigitsValue(padded) == a
  {
    var digits := NatToDigits(a);
    NatToDigitsValue(a);
    LeadingZeros(if |digits| < scale + 1 then scale + 1 - |digits| else 0, digits);
  }

  /** With `scale > 0` fraction digits, the printed magnitude is a digit
      string, a point and `scale` more digits, which together spell the
      magnitude. */
  lemma FractionParts(a: nat, scale: nat) returns (whole: string, fraction: string)
    requires scale > 0
    ensures RenderMagnitude(a, scale) == whole + "." + fraction
    ensures AllDigits(whole) && AllDigits(fraction) && whole != [] && |fraction| == scale
    ensures AllDigits(whole + fraction) && DigitsValue(whole + fraction) == a
  {
    var padded := Padded(a, scale);
    PaddedValue(a, scale);
    whole, fraction := CutDigits(padded, scale);
  }

  /** Digits cut `scale` from the right: two digit strings, the first non-empty. */
  lemma CutDigits(padded: string, scale: nat) returns (whole: string, fraction: string)
    requires |padded| > scale && AllDigits(padded)
    ensures whole == padded[..|padded| - scale] && fraction == padded[|padded| - scale..]
    ensures AllDigits(whole) && AllDigits(fraction) && whole != [] && |fraction| == scale
    ensures whole + fraction == padded
  {
    whole, fraction := padded[..|padded| - scale], padded[|padded| - scale..];
    assert whole + fraction == padded;
  }

  /** A magnitude printed without fraction digits reads back with one spare zero digit. */
  lemma WholeRoundTrip(a: nat)
    ensures ParseUnsigned(RenderMagnitude(a, 0)) == Some(Decimal(a * 10, 1))
  {
    var padded := Padded(a, 0);
    assert AllDigits(padded) && DigitsValue(padded + "0") == a * 10 by {
      PaddedValue(a, 0);
      DigitsValueSnoc(padded, '0');
    }
    assert RenderMagnitude(a, 0) == padded + "." + "0";
    ParseUnsignedOf(padded, "0");
  }

  /** A magnitude printed with `scale > 0` fraction digits reads back as itself. */
  lemma FractionRoundTrip(a: nat, scale: nat)
    requires scale > 0
    ensures ParseUnsigned(RenderMagnitude(a, scale)) == Some(Decimal(a, scale))
  {
    var whole, fraction := FractionParts(a, scale);
    ParseUnsignedOf(whole, fraction);
  }

  /** The printed magnitude starts and ends with a digit. */
  lemma MagnitudeShape(a: nat, scale: nat)
    ensures var r := RenderMagnitude(a, scale); |r| >= 3 && IsDigit(r[0]) && IsDigit(r[|r| - 1])
  {
    PaddedValue(a, scale);
    var whole, fraction := CutDigits(Padded(a, scale), scale);
    var f := if scale == 0 then "0" else fraction;
    var r := whole + "." + f;
    assert RenderMagnitude(a, scale) == r;
    assert r[0] == whole[0] && r[|r| - 1] == f[|f| - 1];
  }

  /** A sign followed by an unsigned literal reads as the signed, normalised value. */
  lemma ParseSigned(negative: bool, body: string, u: Decimal)
    requires |body| > 0 && IsDigit(body[0]) && IsDigit(body[|body| - 1])
    requires ParseUnsigned(body) == Some(u)
    ensures ParseDecimal((if negative then "-" else "") + body)
         == Some(Normalize(Decimal(if negative then -u.mantissa else u.mantissa, u.scale)))
  {
    var s := (if negative then "-" else "") + body;
    TrimNoop(s);
    if negative {
      StrippedNegative(body, u);
    } else {
      assert s == body;
      StrippedUnsigned(body, u);
    }
  }

  lemma StrippedNegative(body: string, u: Decimal)
    requires ParseUnsigned(body) == Some(u)
    ensures ParseStripped("-" + body) == Some(Normalize(Decimal(-u.mantissa, u.scale)))
  {
    assert ("-" + body)[1..] == body;
  }

  lemma StrippedUnsigned(body: string, u: Decimal)
    requires |body| > 0 && IsDigit(body[0])
    requires ParseUnsigned(body) == Some(u)
    ensures ParseStripped(body) == Some(Normalize(u))
  {
  }

  /** Reading back the printed form of a canonical decimal gives the decimal. */
  lemma DecimalRoundTrip(d: Decimal)
    requires d.Canonical()
    ensures ParseDecimal(RenderDecimal(d)) == Some(d)
  {
    var a := Abs(d.mantissa);
    var body := RenderMagnitude(a, d.scale);
    var u := if d.scale == 0 then Decimal(a * 10, 1) else Decimal(a, d.scale);
    if d.scale == 0 { WholeRoundTrip(a); } else { FractionRoundTrip(a, d.scale); }
    MagnitudeShape(a, d.scale);
    SignedRoundTrip(d, body, u);
  }

  /** A sign and a magnitude that reads back as the magnitude of `d` (with a
      spare zero digit when `d` has no fraction digits) read back as `d`. */
  lemma SignedRoundTrip(d: Decimal, body: string, u: Decimal)
    requires d.Canonical()
    requires |body| > 0 && IsDigit(body[0]) && IsDigit(body[|body| - 1])
    requires ParseUnsigned(body) == Some(u)
    requires u == if d.scale == 0 then Decimal(Abs(d.mantissa) * 10, 1) else Decimal(Abs(d.mantissa), d.scale)
    ensures ParseDecimal(SignPrefix(d.mantissa) + body) == Some(d)
  {
    ParseSigned(d.mantissa < 0, body, u);
    var signed := Decimal(if d.mantissa < 0 then -u.mantissa else u.mantissa, u.scale);
    if d.scale == 0 {
      assert signed == Decimal(d.mantissa * 10, 1);
      NormalizeSpareZero(d.mantissa);
    } else {
      assert signed == d;
    }
  }

  /** One spare zero digit after the point is dropped again. */
  lemma NormalizeSpareZero(m: int)
    ensures Normalize(Decimal(m * 10, 1)) == Decimal(m, 0)
  {
    assert (m * 10) % 10 == 0 && (m * 10) / 10 == m;
  }
}
