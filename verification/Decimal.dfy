/**
Amounts as decimal text (domain/src/money.rs): the eighteen-digit fixed-point form crossing the wire,
printed and read back.
 */
module Decimal {
  import opened Base
  import opened Money
  import opened Text

  const PLACES: nat := 18
  const TWO32: nat := 0x1_0000_0000

  predicate IsDigit(c: char) {
    '0' <= c <= '9'
  }

  predicate AllDigits(s: string) {
    forall i :: 0 <= i < |s| ==> IsDigit(s[i])
  }

  /** The number a run of decimal digits spells. */
  function Spelled(s: string): nat
    requires AllDigits(s)
  {
    if s == [] then 0 else Spelled(s[..|s| - 1]) * 10 + (s[|s| - 1] as int - '0' as int)
  }

  /** A `u128` read from digits alone: at least one, and no more than the type holds. */
  function ParseU128(s: string): Option<u128>
    requires AllDigits(s)
  {
    if s == [] || Spelled(s) >= TWO128 then None else Some(Spelled(s))
  }

  function Zeros(n: nat): (s: string)
    ensures |s| == n && AllDigits(s)
  {
    seq(n, i => '0')
  }

  /** A fraction filled up with zeros on the right to eighteen places. */
  function Padded(fraction: string): (s: string)
    requires AllDigits(fraction)
    ensures AllDigits(s)
  {
    fraction + Zeros(if |fraction| < PLACES then PLACES - |fraction| else 0)
  }

  /** What the two parts come to in units of 10^-18. */
  function Worth(whole: string, fraction: string): nat
    requires AllDigits(whole) && AllDigits(fraction)
  {
    Spelled(whole) * SCALE + Spelled(Padded(fraction))
  }

  /** Whole units and parts of one, together, when they fit. */
  function Assembled(units: Option<u128>, parts: Option<u128>): Option<u128> {
    var u :- units;
    var scaled :- CheckedMul(u, SCALE);
    var p :- parts;
    CheckedAdd(scaled, p)
  }

  /** The text on either side of the point. */
  function ReadParts(whole: string, fraction: string): Result<u128, DomainError> {
    if whole == [] && fraction == [] then Err(Validation)
    else if |Utf8(fraction)| % TWO32 > PLACES then Err(Validation)
    else if !AllDigits(whole) || !AllDigits(fraction) then Err(Validation)
    else
      var parts := if fraction == [] then Some(0) else ParseU128(Padded(fraction));
      match Assembled(ParseU128(whole), parts)
      case Some(n) => Ok(n)
      case None => Err(Validation)
  }

  /** The text before the first point and after it. */
  function Halves(s: string): (string, string) {
    SplitOnce(s, '.').GetOr((s, []))
  }

  function ParseDecimal(raw: string): Result<u128, DomainError> {
    var trimmed := Trim(raw);
    if trimmed == [] then Err(Validation)
    else
      var (whole, fraction) := Halves(trimmed);
      ReadParts(whole, fraction)
  }

  /** A number in decimal, without leading zeros. */
  function NatText(n: nat): (s: string)
    ensures s != [] && AllDigits(s) && Spelled(s) == n
    decreases n
  {
    if n < 10 then
      assert [DigitChar(n)][..0] == [];
      [DigitChar(n)]
    else
      var before, last := NatText(n / 10), DigitChar(n % 10);
      assert (before + [last])[..|before|] == before;
      before + [last]
  }

  /** Exactly `width` digits, leading zeros included. */
  function PaddedText(n: nat, width: nat): (s: string)
    ensures |s| == width && AllDigits(s)
    decreases width
  {
    if width == 0 then [] else PaddedText(n / 10, width - 1) + [DigitChar(n % 10)]
  }

  function WithoutTrailingZeros(s: string): string {
    if s != [] && s[|s| - 1] == '0' then WithoutTrailingZeros(s[..|s| - 1]) else s
  }

  function ToDecimalString(n: u128): string {
    var whole, fraction := n / SCALE, n % SCALE;
    if fraction == 0 then NatText(whole)
    else NatText(whole) + "." + WithoutTrailingZeros(PaddedText(fraction, PLACES))
  }

  // ----- digits -----

  /** A number with `places` zeros after its digits. */
  function Shift(x: nat, places: nat): nat {
    if places == 0 then x else 10 * Shift(x, places - 1)
  }

  lemma {:induction false} ShiftAdds(x: nat, y: nat, m: nat, n: nat)
    ensures Shift(x + y, n) == Shift(x, n) + Shift(y, n)
    ensures Shift(Shift(x, m), n) == Shift(x, m + n)
  {
    if n > 0 {
      ShiftAdds(x, y, m, n - 1);
    }
  }

  lemma ShiftBySix(x: nat)
    ensures Shift(x, 6) == 1_000_000 * x
  {
    assert Shift(x, 1) == 10 * x;
    assert Shift(x, 2) == 100 * x;
    assert Shift(x, 3) == 1_000 * x;
    assert Shift(x, 4) == 10_000 * x;
    assert Shift(x, 5) == 100_000 * x;
  }

  lemma EighteenPlaces(x: nat)
    ensures Shift(x, 18) == x * SCALE
  {
    ShiftBySix(x);
    ShiftBySix(Shift(x, 6));
    ShiftBySix(Shift(Shift(x, 6), 6));
    ShiftAdds(x, 0, 6, 6);
    ShiftAdds(x, 0, 12, 6);
  }

  lemma SpelledOne(s: string, c: char)
    requires AllDigits(s) && IsDigit(c)
    ensures AllDigits(s + [c]) && Spelled(s + [c]) == Spelled(s) * 10 + (c as int - '0' as int)
  {
    assert (s + [c])[..|s|] == s;
  }

  lemma {:induction false} PaddedSpells(n: nat, width: nat)
    requires n < Shift(1, width)
    ensures Spelled(PaddedText(n, width)) == n
    decreases width
  {
    if width > 0 {
      PaddedSpells(n / 10, width - 1);
      SpelledOne(PaddedText(n / 10, width - 1), DigitChar(n % 10));
    }
  }

  /** What was trimmed is zeros, so padding puts it back; and something is left of a positive number. */
  lemma {:induction false} TrimmedPadsBack(s: string)
    requires AllDigits(s)
    ensures |WithoutTrailingZeros(s)| <= |s| && AllDigits(WithoutTrailingZeros(s))
    ensures WithoutTrailingZeros(s) + Zeros(|s| - |WithoutTrailingZeros(s)|) == s
    ensures Spelled(s) > 0 ==> WithoutTrailingZeros(s) != []
  {
    if s != [] && s[|s| - 1] == '0' {
      var before := s[..|s| - 1];
      TrimmedPadsBack(before);
      assert s == before + ['0'];
      assert Zeros(|s| - |WithoutTrailingZeros(s)|) == Zeros(|before| - |WithoutTrailingZeros(before)|) + ['0'];
    }
  }

  lemma {:induction false} SpelledJoined(a: string, b: string)
    requires AllDigits(a) && AllDigits(b)
    ensures AllDigits(a + b)
    ensures Spelled(a + b) == Shift(Spelled(a), |b|) + Spelled(b)
    decreases |b|
  {
    if b == [] {
      assert a + b == a;
    } else {
      var before, last := b[..|b| - 1], b[|b| - 1];
      SpelledJoined(a, before);
      SpelledOne(a + before, last);
      assert a + b == a + before + [last];
      SpelledOne(before, last);
      assert b == before + [last];
    }
  }

  lemma {:induction false} ZerosSpell(n: nat)
    ensures Spelled(Zeros(n)) == 0
  {
    if n > 0 {
      ZerosSpell(n - 1);
      assert Zeros(n)[..n - 1] == Zeros(n - 1);
    }
  }

  // ----- there and back -----

  lemma DigitsAreSolid(s: string)
    requires forall i :: 0 <= i < |s| ==> IsDigit(s[i]) || s[i] == '.'
    ensures Trim(s) == s
  {
    TrimKeepsSolid(s);
  }

  lemma DigitsAreAscii(s: string)
    requires AllDigits(s)
    ensures |Utf8(s)| == |s|
  {
    AsciiLength(s);
  }

  lemma {:induction false} SpelledFits(s: string)
    requires AllDigits(s)
    ensures Spelled(s) < Shift(1, |s|)
  {
    if s != [] {
      SpelledFits(s[..|s| - 1]);
    }
  }

  lemma AssembledIs(units: Option<u128>, x: nat, parts: u128)
    requires units == if x < TWO128 then Some(x) else None
    ensures Assembled(units, Some(parts)) == if x * SCALE + parts < TWO128 then Some(x * SCALE + parts) else None
  {
  }

  lemma PartsAre(fraction: string)
    requires AllDigits(fraction) && |fraction| <= PLACES
    ensures Spelled(Padded(fraction)) < SCALE
    ensures fraction == [] ==> Spelled(Padded(fraction)) == 0
  {
    EighteenPlaces(1);
    SpelledFits(Padded(fraction));
    if fraction == [] {
      ZerosSpell(PLACES);
      assert Padded(fraction) == Zeros(PLACES);
    }
  }

  /** The value of the two parts: the whole in units of 10^-18, and the fraction padded to eighteen places. */
  lemma PartsRead(whole: string, fraction: string)
    requires AllDigits(whole) && AllDigits(fraction) && whole != [] && |fraction| <= PLACES
    ensures ReadParts(whole, fraction) == if Worth(whole, fraction) < TWO128 then Ok(Worth(whole, fraction)) else Err(Validation)
  {
    DigitsAreAscii(fraction);
    PartsAre(fraction);
    AssembledIs(ParseU128(whole), Spelled(whole), Spelled(Padded(fraction)));
  }

  /** Text of an amount: digits, or digits, a point and at most eighteen digits. */
  ghost predicate Spells(s: string, whole: string, fraction: string) {
    && AllDigits(whole) && AllDigits(fraction) && whole != [] && |fraction| <= PLACES
    && (s == whole + ['.'] + fraction || (s == whole && fraction == []))
  }

  lemma SpellingIsSplit(raw: string, whole: string, fraction: string)
    requires Spells(Trim(raw), whole, fraction)
    ensures ParseDecimal(raw) == ReadParts(whole, fraction)
  {
    if Trim(raw) == whole && fraction == [] {
      SplitMeans(whole, '.');
    } else {
      SplitsAtTheFirst(whole, '.', fraction);
    }
  }

  lemma ReadBack(s: string, whole: string, fraction: string, n: u128)
    requires Spells(s, whole, fraction)
    requires n == Worth(whole, fraction)
    ensures ParseDecimal(s) == Ok(n)
  {
    DigitsAreSolid(s);
    SpellingIsSplit(s, whole, fraction);
    PartsRead(whole, fraction);
  }

  lemma TrimmedText(n: nat, width: nat)
    requires 0 < n < Shift(1, width)
    ensures var fraction := WithoutTrailingZeros(PaddedText(n, width));
            && AllDigits(fraction) && |fraction| <= width
            && fraction + Zeros(width - |fraction|) == PaddedText(n, width)
            && Spelled(PaddedText(n, width)) == n
  {
    PaddedSpells(n, width);
    TrimmedPadsBack(PaddedText(n, width));
  }

  lemma TrimmedFraction(n: nat) returns (fraction: string)
    requires 0 < n < SCALE
    ensures fraction == WithoutTrailingZeros(PaddedText(n, PLACES))
    ensures AllDigits(fraction) && |fraction| <= PLACES
    ensures Spelled(Padded(fraction)) == n
  {
    EighteenPlaces(1);
    TrimmedText(n, PLACES);
    fraction := WithoutTrailingZeros(PaddedText(n, PLACES));
  }

  /** Reading back what was printed is the identity, for every amount. */
  lemma DecimalRoundTrip(n: u128)
    ensures ParseDecimal(ToDecimalString(n)) == Ok(n)
  {
    var whole := NatText(n / SCALE);
    if n % SCALE == 0 {
      PartsAre([]);
      ReadBack(whole, whole, [], n);
    } else {
      var fraction := TrimmedFraction(n % SCALE);
      assert "." == ['.'];
      ReadBack(whole + ['.'] + fraction, whole, fraction, n);
    }
  }

  lemma PrintingIsInjective(m: u128, n: u128)
    requires ToDecimalString(m) == ToDecimalString(n)
    ensures m == n
  {
    DecimalRoundTrip(m);
    DecimalRoundTrip(n);
  }

  lemma ZerosScale(s: string, n: nat)
    requires AllDigits(s)
    ensures AllDigits(s + Zeros(n)) && Spelled(s + Zeros(n)) == Shift(Spelled(s), n)
  {
    SpelledJoined(s, Zeros(n));
    ZerosSpell(n);
  }

  lemma ShiftedTogether(w: nat, f: nat, places: nat)
    requires places <= PLACES
    ensures w * SCALE + Shift(f, PLACES - places) == Shift(Shift(w, places) + f, PLACES - places)
  {
    EighteenPlaces(w);
    ShiftAdds(Shift(w, places), f, 0, PLACES - places);
    ShiftAdds(w, 0, places, PLACES - places);
  }

  lemma PaddingScales(whole: string, fraction: string)
    requires AllDigits(whole) && AllDigits(fraction) && |fraction| <= PLACES
    ensures AllDigits(whole + fraction)
    ensures Worth(whole, fraction) == Shift(Spelled(whole + fraction), PLACES - |fraction|)
  {
    SpelledJoined(whole, fraction);
    ZerosScale(fraction, PLACES - |fraction|);
    ShiftedTogether(Spelled(whole), Spelled(fraction), |fraction|);
  }

  /**
  What an amount means: text that spells a decimal number, with at least one digit before the point and
  at most eighteen after it, is read as exactly that number in units of 10^-18, or refused when the
  number does not fit.
   */
  lemma ReadsExactly(raw: string, whole: string, fraction: string)
    requires Spells(Trim(raw), whole, fraction)
    ensures AllDigits(whole + fraction)
    ensures var n := Shift(Spelled(whole + fraction), PLACES - |fraction|);
            ParseDecimal(raw) == if n < TWO128 then Ok(n) else Err(Validation)
  {
    SpellingIsSplit(raw, whole, fraction);
    PartsRead(whole, fraction);
    PaddingScales(whole, fraction);
  }

  /** What the parser reads as `n`: the length of the fraction is only looked at in its last 32 bits. */
  ghost predicate Readable(whole: string, fraction: string, n: nat) {
    && AllDigits(whole) && AllDigits(fraction) && whole != [] && |fraction| % TWO32 <= PLACES
    && Worth(whole, fraction) == n
  }

  lemma PartsReadIff(whole: string, fraction: string, n: u128)
    ensures ReadParts(whole, fraction) == Ok(n) <==> Readable(whole, fraction, n)
  {
    if AllDigits(whole) && AllDigits(fraction) {
      DigitsAreAscii(fraction);
      PartsAre([]);
    }
  }

  /** On every text: it is read as `n` exactly when its two halves are readable and come to `n`. */
  lemma ReadsIff(raw: string, n: u128)
    ensures ParseDecimal(raw) == Ok(n) <==> Readable(Halves(Trim(raw)).0, Halves(Trim(raw)).1, n)
  {
    var s := Trim(raw);
    SplitMeans(s, '.');
    PartsReadIff(Halves(s).0, Halves(s).1, n);
  }

  /** What is read spells a number, unless its fraction is so long that its length wraps. */
  lemma OnlySpellingsAreRead(raw: string)
    requires ParseDecimal(raw).Ok?
    ensures var (whole, fraction) := Halves(Trim(raw));
            Spells(Trim(raw), whole, fraction) <==> |fraction| < TWO32
  {
    ReadsIff(raw, ParseDecimal(raw).value);
    SplitMeans(Trim(raw), '.');
  }

  /** A fraction of 2^32 digits is read as if its digits stood before the point. */
  lemma AWrappedFractionIsRead(fraction: string)
    requires AllDigits(fraction) && |fraction| == TWO32 && Spelled(fraction) < TWO128
    ensures ParseDecimal("0." + fraction) == Ok(Spelled(fraction))
  {
    var s := "0." + fraction;
    assert s == ['0'] + ['.'] + fraction;
    DigitsAreSolid(s);
    SplitsAtTheFirst(['0'], '.', fraction);
    assert Zeros(0) == [] && Padded(fraction) == fraction;
    SpelledOne([], '0');
    assert [] + ['0'] == ['0'];
    ReadsIff(s, Spelled(fraction));
  }

  /** So 10^-18 is read out of a number of 2^32 decimal places. */
  lemma TheSmallestWrappedFraction()
    ensures ParseDecimal("0." + (Zeros(TWO32 - 1) + ['1'])) == Ok(1)
  {
    SpelledOne(Zeros(TWO32 - 1), '1');
    ZerosSpell(TWO32 - 1);
    AWrappedFractionIsRead(Zeros(TWO32 - 1) + ['1']);
  }

  /** A number without a digit before the point is refused, whatever stands after it. */
  lemma NoLeadingPoint(fraction: string)
    requires AllDigits(fraction)
    ensures ParseDecimal("." + fraction) == Err(Validation)
  {
    var s := "." + fraction;
    DigitsAreSolid(s);
    assert s == [] + ['.'] + fraction;
    SplitsAtTheFirst([], '.', fraction);
  }

  // ----- the shortest form -----

  lemma {:induction false} NoLeadingZero(n: nat)
    ensures NatText(n)[0] == '0' <==> n == 0
    ensures n == 0 ==> NatText(n) == "0"
    decreases n
  {
    if n >= 10 {
      NoLeadingZero(n / 10);
    }
  }

  lemma {:induction false} NoTrailingZero(s: string)
    ensures WithoutTrailingZeros(s) == [] || WithoutTrailingZeros(s)[|WithoutTrailingZeros(s)| - 1] != '0'
  {
    if s != [] && s[|s| - 1] == '0' {
      NoTrailingZero(s[..|s| - 1]);
    }
  }

  /** An amount prints in its shortest form: no zero before its first digit but a lone one, none after its last, no bare point. */
  lemma PrintsShortest(n: u128) returns (whole: string, fraction: string)
    ensures ToDecimalString(n) == if fraction == [] then whole else whole + "." + fraction
    ensures AllDigits(whole) && AllDigits(fraction) && |fraction| <= 18
    ensures whole != [] && (whole[0] == '0' ==> whole == "0")
    ensures fraction != [] ==> fraction[|fraction| - 1] != '0'
    ensures fraction == [] <==> n % 1_000_000_000_000_000_000 == 0
  {
    whole := NatText(n / SCALE);
    NoLeadingZero(n / SCALE);
    if n % SCALE == 0 {
      fraction := [];
    } else {
      fraction := TrimmedFraction(n % SCALE);
      NoTrailingZero(PaddedText(n % SCALE, PLACES));
      SomethingIsLeft(n % SCALE);
    }
  }

  lemma SomethingIsLeft(n: nat)
    requires 0 < n < SCALE
    ensures WithoutTrailingZeros(PaddedText(n, PLACES)) != []
  {
    EighteenPlaces(1);
    PaddedSpells(n, PLACES);
    TrimmedPadsBack(PaddedText(n, PLACES));
  }
}
