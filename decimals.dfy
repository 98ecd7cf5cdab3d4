/**
 * How JavaScript prints a number that is an exact decimal fraction: a value
 * held as the whole number `n` of units of `10^-places` prints as its whole
 * part, then, only when there is a fractional part, a point and the fraction
 * digits without trailing zeros (`35` tenths print as `3.5`, `2000` thousandths
 * as `2`, `1250` thousandths as `1.25`).
 */
module Decimals {
  import opened Wrappers
  import opened Strings

  function Pow10(p: nat): (r: nat)
    ensures r >= 1
  {
    if p == 0 then 1 else 10 * Pow10(p - 1)
  }

  /** `n` with its last `p` decimal digits dropped: `n / 10^p`. */
  function Quot(n: nat, p: nat): nat {
    if p == 0 then n else Quot(n / 10, p - 1)
  }

  /** The last `p` decimal digits of `n` as a number: `n % 10^p`. */
  function Rem(n: nat, p: nat): nat {
    if p == 0 then 0 else 10 * Rem(n / 10, p - 1) + n % 10
  }

  lemma {:induction false} QuotRem(n: nat, p: nat)
    ensures n == Quot(n, p) * Pow10(p) + Rem(n, p) && Rem(n, p) < Pow10(p)
  {
    if p > 0 {
      QuotRem(n / 10, p - 1);
      var q, P, r := Quot(n / 10, p - 1), Pow10(p - 1), Rem(n / 10, p - 1);
      var m := q * P;
      assert n / 10 == m + r && r < P;
      assert Quot(n, p) == q && Pow10(p) == 10 * P && Rem(n, p) == 10 * r + n % 10;
      TenTimes(q, P, Pow10(p));
    }
  }

  /** The last `p` decimal digits of `n`, zero-padded on the left. */
  function Padded(n: nat, p: nat): (s: string)
    ensures |s| == p && AllDigits(s)
  {
    if p == 0 then [] else Padded(n / 10, p - 1) + [DigitChar(n % 10)]
  }

  /** `s` with its trailing `0` characters removed. */
  function TrimZeros(s: string): (t: string)
    ensures |t| <= |s| && t == s[..|t|]
    ensures t == [] || t[|t| - 1] != '0'
    ensures forall i :: |t| <= i < |s| ==> s[i] == '0'
  {
    if s == [] || s[|s| - 1] != '0' then s else TrimZeros(s[..|s| - 1])
  }

  /** The printed form of `n / 10^places`. */
  function DecimalText(n: nat, places: nat): string {
    var whole := NatToString(Quot(n, places));
    if Rem(n, places) == 0 then whole else whole + "." + TrimZeros(Padded(n, places))
  }

  /** Reads a printed decimal back as a count of `10^-places` units; `None` for anything else. */
  function ParseDecimal(s: string, places: nat): (r: Option<nat>)
  {
    if '.' in s then
      var k := PointIndex(s);
      var whole, fraction := s[..k], s[k + 1..];
      if whole != [] && AllDigits(whole) && fraction != [] && |fraction| <= places && AllDigits(fraction) then
        Some(ParseNat(whole) * Pow10(places) + ParseNat(fraction) * Pow10(places - |fraction|))
      else None
    else if s != [] && AllDigits(s) then Some(ParseNat(s) * Pow10(places))
    else None
  }

  function PointIndex(s: string): (k: nat)
    requires '.' in s
    ensures k < |s| && s[k] == '.' && '.' !in s[..k]
  {
    if s[0] == '.' then 0 else
      var k := 1 + PointIndex(s[1..]);
      assert s[..k] == [s[0]] + s[1..][..k - 1];
      k
  }

  /** Trailing zeros multiply the value read by a power of ten. */
  lemma {:induction false} ParseNatZeros(s: string, j: nat)
    requires AllDigits(s) && j <= |s|
    requires forall i :: j <= i < |s| ==> s[i] == '0'
    ensures ParseNat(s) == ParseNat(s[..j]) * Pow10(|s| - j)
  {
    if |s| > j {
      var front := s[..|s| - 1];
      assert front[..j] == s[..j];
      ParseNatZeros(front, j);
      var a, q, P := ParseNat(s[..j]), Pow10(|front| - j), Pow10(|s| - j);
      assert DigitValue(s[|s| - 1]) == 0;
      assert ParseNat(s) == 10 * ParseNat(front);
      assert P == 10 * q;
      TenTimes(a, q, P);
    } else {
      assert s[..j] == s;
    }
  }

  lemma TenTimes(a: nat, q: nat, P: nat)
    requires P == 10 * q
    ensures a * P == 10 * (a * q)
  {
  }

  lemma {:induction false} ParsePadded(n: nat, p: nat)
    ensures ParseNat(Padded(n, p)) == Rem(n, p)
  {
    if p > 0 {
      ParsePadded(n / 10, p - 1);
      var s := Padded(n, p);
      assert s[..|s| - 1] == Padded(n / 10, p - 1);
    }
  }

  /** The fraction digits, read back and scaled, give the last `p` digits. */
  lemma {:induction false} FractionDigits(n: nat, p: nat)
    requires Rem(n, p) != 0
    ensures var t := TrimZeros(Padded(n, p));
      t != [] && |t| <= p && AllDigits(t) && ParseNat(t) * Pow10(p - |t|) == Rem(n, p)
  {
    var s := Padded(n, p);
    var t := TrimZeros(s);
    assert AllDigits(t) by {
      assert forall i :: 0 <= i < |t| ==> t[i] == s[i];
    }
    ParseNatZeros(s, |t|);
    ParsePadded(n, p);
  }

  /** A printed whole part and fraction read back as the value they denote. */
  lemma {:induction false} ParseDecimalParts(whole: string, t: string, places: nat, high: nat, low: nat)
    requires whole != [] && AllDigits(whole) && ParseNat(whole) == high
    requires t != [] && |t| <= places && AllDigits(t) && ParseNat(t) * Pow10(places - |t|) == low
    ensures ParseDecimal(whole + "." + t, places) == Some(high * Pow10(places) + low)
  {
    var s := whole + "." + t;
    assert '.' !in whole by {
      assert forall i :: 0 <= i < |whole| ==> IsDigit(whole[i]);
    }
    assert s[|whole|] == '.' && s[..|whole|] == whole;
    assert PointIndex(s) == |whole|;
    assert s[|whole| + 1..] == t;
  }

  lemma {:induction false} ParseDecimalWhole(whole: string, places: nat)
    requires whole != [] && AllDigits(whole)
    ensures ParseDecimal(whole, places) == Some(ParseNat(whole) * Pow10(places))
  {
    assert '.' !in whole by {
      assert forall i :: 0 <= i < |whole| ==> IsDigit(whole[i]);
    }
  }

  /** Printing loses nothing: the printed decimal reads back as the same value. */
  lemma {:induction false} DecimalTextRoundTrip(n: nat, places: nat)
    ensures ParseDecimal(DecimalText(n, places), places) == Some(n)
  {
    QuotRem(n, places);
    if Rem(n, places) == 0 {
      RoundTripWhole(n, places);
    } else {
      RoundTripFraction(n, places);
    }
  }

  lemma {:induction false} RoundTripWhole(n: nat, places: nat)
    requires Rem(n, places) == 0
    ensures ParseDecimal(DecimalText(n, places), places) == Some(Quot(n, places) * Pow10(places))
  {
    var q := Quot(n, places);
    var whole := NatToString(q);
    assert DecimalText(n, places) == whole;
    ParseNatToString(q);
    ParseDecimalWhole(whole, places);
  }

  lemma {:induction false} RoundTripFraction(n: nat, places: nat)
    requires Rem(n, places) != 0
    ensures ParseDecimal(DecimalText(n, places), places) == Some(Quot(n, places) * Pow10(places) + Rem(n, places))
  {
    assert DecimalText(n, places) == NatToString(Quot(n, places)) + "." + TrimZeros(Padded(n, places));
    FractionValue(n, places);
  }

  lemma {:induction false} FractionValue(n: nat, places: nat)
    requires Rem(n, places) != 0
    ensures ParseDecimal(NatToString(Quot(n, places)) + "." + TrimZeros(Padded(n, places)), places) ==
      Some(Quot(n, places) * Pow10(places) + Rem(n, places))
  {
    FractionParts(n, places);
    ParseDecimalParts(NatToString(Quot(n, places)), TrimZeros(Padded(n, places)), places, Quot(n, places), Rem(n, places));
  }

  /** The whole part and the fraction digits of a printed decimal each read back as their value. */
  lemma {:induction false} FractionParts(n: nat, places: nat)
    requires Rem(n, places) != 0
    ensures var whole, t := NatToString(Quot(n, places)), TrimZeros(Padded(n, places));
      whole != [] && AllDigits(whole) && ParseNat(whole) == Quot(n, places) &&
      t != [] && |t| <= places && AllDigits(t) && ParseNat(t) * Pow10(places - |t|) == Rem(n, places)
  {
    ParseNatToString(Quot(n, places));
    FractionDigits(n, places);
  }

  /** Two values that print alike are equal. */
  lemma {:induction false} DecimalTextInjective(m: nat, n: nat, places: nat)
    requires DecimalText(m, places) == DecimalText(n, places)
    ensures m == n
  {
    DecimalTextRoundTrip(m, places);
    DecimalTextRoundTrip(n, places);
  }

  /** A value without a fractional part prints as a plain whole number. */
  lemma {:induction false} DecimalTextWhole(k: nat, places: nat)
    ensures DecimalText(k * Pow10(places), places) == NatToString(k)
  {
    WholeQuotRem(k, places);
  }

  lemma {:induction false} WholeQuotRem(k: nat, p: nat)
    ensures Quot(k * Pow10(p), p) == k && Rem(k * Pow10(p), p) == 0
  {
    if p > 0 {
      var P := Pow10(p - 1);
      assert k * Pow10(p) == 10 * (k * P);
      WholeQuotRem(k, p - 1);
    }
  }
}
