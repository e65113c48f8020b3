/**
The money kernel (domain/src/money.rs): 128-bit unsigned amounts with checked arithmetic, the
256-bit intermediate product, and floor division by binary long division.
 */
module Money {
  import opened Base

  const TWO64: nat := 0x1_0000_0000_0000_0000
  const TWO127: nat := 0x8000_0000_0000_0000_0000_0000_0000_0000
  const TWO128: nat := 0x1_0000_0000_0000_0000_0000_0000_0000_0000
  const U128_MAX: nat := 0xffff_ffff_ffff_ffff_ffff_ffff_ffff_ffff

  /** `10^18`, the fixed-point scale of amounts, units and prices. */
  const SCALE: nat := 1_000_000_000_000_000_000

  /** An unsigned 128-bit integer: a count of canonical base units. */
  type u128 = x: int | 0 <= x < 0x1_0000_0000_0000_0000_0000_0000_0000_0000

  function CheckedAdd(x: u128, y: u128): Option<u128> {
    if x + y < TWO128 then Some(x + y) else None
  }

  function CheckedSub(x: u128, y: u128): Option<u128> {
    if y <= x then Some(x - y) else None
  }

  function CheckedMul(x: u128, y: u128): Option<u128> {
    MulNonNegative(x, y);
    if x * y < TWO128 then Some(x * y) else None
  }

  /**
  The meaning of a pro-rata computation: the exact rational quotient rounded down, absent when it
  has no value or no 128-bit representation.
   */
  function MulDivFloor(a: u128, b: u128, denom: u128): Option<u128> {
    if denom == 0 then None
    else
      MulNonNegative(a, b);
      DivNonNegative(a * b, denom);
      if a * b / denom < TWO128 then Some(a * b / denom) else None
  }

  // ----- arithmetic facts -----

  lemma MulNonNegative(x: nat, y: nat)
    ensures 0 <= x * y
  {
  }

  lemma DivNonNegative(x: nat, d: nat)
    requires d > 0
    ensures 0 <= x / d
  {
  }

  lemma MulMono(x: nat, y: nat, z: nat)
    requires x <= y
    ensures x * z <= y * z
    ensures z * x <= z * y
  {
  }

  /** `q` is the floor of `n / d` exactly when it brackets it. */
  lemma FloorUnique(n: int, d: int, q: int)
    requires d > 0
    requires q * d <= n < q * d + d
    ensures n / d == q
  {
    var r := n - q * d;
    assert n == d * (n / d) + n % d;
    var k := n / d - q;
    assert d * k == r - n % d;
    if k >= 1 {
      MulMonoInt(1, k, d);
    } else if k <= -1 {
      MulMonoInt(k, -1, d);
    }
  }

  lemma FloorBracket(n: int, d: int)
    requires d > 0
    ensures n / d * d <= n < n / d * d + d
  {
  }

  /** A candidate whose multiple fits under `n` is at most the floor. */
  lemma FloorGreatest(n: int, d: int, q: int)
    requires d > 0
    requires q * d <= n
    ensures q <= n / d
  {
    FloorBracket(n, d);
    if q > n / d {
      MulMonoInt(n / d + 1, q, d);
    }
  }

  lemma MulMonoInt(x: int, y: int, z: int)
    requires x <= y
    requires z >= 0
    ensures x * z <= y * z
  {
  }

  // ----- the 256-bit product -----

  function Pow2(n: nat): (p: nat)
    ensures p > 0
  {
    if n == 0 then 1 else 2 * Pow2(n - 1)
  }

  lemma Pow2Split(m: nat, n: nat)
    ensures Pow2(m + n) == Pow2(m) * Pow2(n)
  {
    if m != 0 {
      Pow2Split(m - 1, n);
      assert Pow2(m + n) == 2 * (Pow2(m - 1) * Pow2(n));
    }
  }

  lemma Pow2Doubles(n: nat, p: nat)
    requires Pow2(n) == p
    ensures Pow2(2 * n) == p * p
  {
    Pow2Split(n, n);
  }

  lemma Pow2Of32()
    ensures Pow2(32) == 0x1_0000_0000
  {
    Pow2Doubles(1, 2);
    Pow2Doubles(2, 4);
    Pow2Doubles(4, 16);
    Pow2Doubles(8, 256);
    Pow2Doubles(16, 0x1_0000);
  }

  lemma Pow2Of128()
    ensures Pow2(128) == TWO128
  {
    Pow2Of32();
    Pow2Doubles(32, 0x1_0000_0000);
    Pow2Doubles(64, TWO64);
  }

  /** `x << 64` on 128 bits: what is shifted past the top is lost. */
  function Shl64(x: u128): u128 {
    x * TWO64 % TWO128
  }

  function OverflowingAdd(x: u128, y: u128): (u128, bool) {
    if x + y < TWO128 then (x + y, false) else (x + y - TWO128, true)
  }

  lemma HalfProduct(x: nat, y: nat)
    requires x < TWO64 && y < TWO64
    ensures 0 <= x * y < TWO128
  {
    MulNonNegative(x, y);
    MulMono(x, TWO64 - 1, y);
    MulMono(y, TWO64 - 1, TWO64 - 1);
  }

  lemma ExpandProduct(aHi: nat, aLo: nat, bHi: nat, bLo: nat)
    ensures (aHi * TWO64 + aLo) * (bHi * TWO64 + bLo)
         == aHi * bHi * TWO128 + aLo * bHi * TWO64 + aHi * bLo * TWO64 + aLo * bLo
  {
    var x, y := aHi * TWO64, bHi * TWO64;
    assert (x + aLo) * (y + bLo) == x * y + x * bLo + aLo * y + aLo * bLo;
    assert x * y == aHi * bHi * (TWO64 * TWO64);
    assert x * bLo == aHi * bLo * TWO64;
    assert aLo * y == aLo * bHi * TWO64;
  }

  lemma U128Product(a: u128, b: u128)
    ensures 0 <= a * b <= U128_MAX * U128_MAX
  {
    MulNonNegative(a, b);
    MulMono(a, U128_MAX, b);
    MulMono(b, U128_MAX, U128_MAX);
  }

  /** Adding a middle partial product, shifted half a word, into the two halves with its carry. */
  lemma AddMiddle(hi: u128, lo: u128, p: u128)
    ensures var (s, c) := OverflowingAdd(lo, Shl64(p));
            (hi + (p / TWO64 + if c then 1 else 0)) * TWO128 + s == hi * TWO128 + lo + p * TWO64
  {
    assert p == p / TWO64 * TWO64 + p % TWO64;
    FloorUnique(p * TWO64, TWO128, p / TWO64);
    assert Shl64(p) == p * TWO64 - p / TWO64 * TWO128;
  }

  lemma HighHalfFits(hi: int, lo: nat, total: int)
    requires hi * TWO128 + lo <= total <= U128_MAX * U128_MAX
    ensures hi < TWO128
  {
  }

  /** The full product as two halves; no partial sum of the high half ever wraps. */
  method WideningMul(a: u128, b: u128) returns (hi: u128, lo: u128)
    ensures hi * TWO128 + lo == a * b
  {
    var aLo, aHi := a % TWO64, a / TWO64;
    var bLo, bHi := b % TWO64, b / TWO64;
    HalfProduct(aLo, bLo);
    HalfProduct(aLo, bHi);
    HalfProduct(aHi, bLo);
    HalfProduct(aHi, bHi);
    var p0: u128 := aLo * bLo;
    var p1: u128 := aLo * bHi;
    var p2: u128 := aHi * bLo;
    var p3: u128 := aHi * bHi;
    ExpandProduct(aHi, aLo, bHi, bLo);
    U128Product(a, b);
    assert a * b == p3 * TWO128 + p1 * TWO64 + p2 * TWO64 + p0;
    lo := p0;
    hi := p3;
    AddMiddle(hi, lo, p1);
    var (s1, c1) := OverflowingAdd(lo, Shl64(p1));
    HighHalfFits(hi + (p1 / TWO64 + if c1 then 1 else 0), s1, a * b);
    lo := s1;
    hi := hi + (p1 / TWO64 + if c1 then 1 else 0);
    AddMiddle(hi, lo, p2);
    var (s2, c2) := OverflowingAdd(lo, Shl64(p2));
    HighHalfFits(hi + (p2 / TWO64 + if c2 then 1 else 0), s2, a * b);
    lo := s2;
    hi := hi + (p2 / TWO64 + if c2 then 1 else 0);
  }

  // ----- binary long division -----

  /** `x | 1 << k` on naturals. */
  function SetBit(x: nat, k: nat): nat {
    if x / Pow2(k) % 2 == 1 then x else x + Pow2(k)
  }

  /** Setting a bit below every set bit adds its weight. */
  lemma SetBitBelow(q: nat, k: nat)
    ensures SetBit(q * Pow2(k + 1), k) == q * Pow2(k + 1) + Pow2(k) == (2 * q + 1) * Pow2(k)
  {
    assert Pow2(k + 1) == 2 * Pow2(k);
    assert q * Pow2(k + 1) == (2 * q) * Pow2(k);
    FloorUnique(q * Pow2(k + 1), Pow2(k), 2 * q);
  }

  lemma SetLowBit(x: nat)
    ensures SetBit(2 * x, 0) == 2 * x + 1
  {
    assert Pow2(0) == 1;
  }

  /** Bit `k` of `n` is what one more binary digit adds to the prefix above it. */
  lemma PrefixStep(n: nat, k: nat)
    ensures n / Pow2(k) == 2 * (n / Pow2(k + 1)) + n / Pow2(k) % 2
  {
    var p := Pow2(k);
    var q := n / p;
    FloorBracket(n, p);
    FloorBracket(q, 2);
    var h := q / 2;
    assert Pow2(k + 1) == 2 * p;
    assert h * (2 * p) == (2 * h) * p;
    MulMonoInt(2 * h, q, p);
    MulMonoInt(q, 2 * h + 1, p);
    assert (2 * h + 1) * p + p == h * (2 * p) + 2 * p;
    FloorUnique(n, 2 * p, h);
  }

  /**
  What the division loop keeps: the processed prefix `hi * above + prefix` of the dividend equals
  `q * denom + rem`, and `quo` holds `q` in its processed bits. `above` and `below` are the
  weights `2^(128 - bit)` and `2^bit`.
   */
  ghost predicate Dividing(hi: nat, prefix: int, denom: nat, above: nat, below: nat, quo: nat, rem: nat, q: nat) {
    && rem < denom
    && q < above
    && quo == q * below
    && hi * above + prefix == q * denom + rem
  }

  lemma DividingSkip(hi: nat, prefix: int, denom: nat, above: nat, below: nat, quo: nat, rem: nat, q: nat, carry: int)
    requires Dividing(hi, prefix, denom, above, 2 * below, quo, rem, q)
    requires carry >= 0 && 2 * rem + carry < denom
    ensures Dividing(hi, 2 * prefix + carry, denom, 2 * above, below, quo, 2 * rem + carry, 2 * q)
  {
    assert hi * (2 * above) == 2 * (hi * above);
    assert (2 * q) * denom == 2 * (q * denom);
    assert q * (2 * below) == (2 * q) * below;
  }

  lemma DividingTake(hi: nat, prefix: int, denom: nat, above: nat, below: nat, quo: nat, rem: nat, q: nat, carry: int)
    requires Dividing(hi, prefix, denom, above, 2 * below, quo, rem, q)
    requires denom <= 2 * rem + carry
    requires 0 <= carry <= 1
    ensures Dividing(hi, 2 * prefix + carry, denom, 2 * above, below, (2 * q + 1) * below, 2 * rem + carry - denom, 2 * q + 1)
  {
    assert hi * (2 * above) == 2 * (hi * above);
    assert (2 * q + 1) * denom == 2 * (q * denom) + denom;
  }

  /** A high half at or above the divisor means the quotient cannot fit. */
  lemma QuotientFits(hi: nat, lo: nat, denom: nat)
    requires denom > 0
    requires lo < TWO128
    ensures (hi * TWO128 + lo) / denom < TWO128 <==> hi < denom
  {
    if hi < denom {
      MulMono(hi + 1, denom, TWO128);
      FloorBracket(hi * TWO128 + lo, denom);
      if (hi * TWO128 + lo) / denom >= TWO128 {
        MulMono(TWO128, (hi * TWO128 + lo) / denom, denom);
      }
    } else {
      MulMono(denom, hi, TWO128);
      FloorGreatest(hi * TWO128 + lo, denom, TWO128);
    }
  }

  /** One iteration of the division loop: bring down bit `bit` of `lo`, subtract if it fits. */
  method DivideBit(lo: u128, denom: u128, bit: nat, rem: u128, quo: u128, ghost q: nat) returns (rem': u128, quo': u128)
    requires bit < 128
    requires rem < denom
    requires quo == q * Pow2(bit + 1)
    requires q < Pow2(127 - bit)
    ensures var brought := 2 * rem + lo / Pow2(bit) % 2;
            if denom <= brought then quo' == quo + Pow2(bit) && rem' == brought - denom else quo' == quo && rem' == brought
  {
    var carryIn := lo / Pow2(bit) % 2;
    var top := rem / TWO127;
    var shifted: u128 := rem * 2 % TWO128;
    ShiftedEven(rem);
    SetLowBit(shifted / 2);
    if carryIn == 1 {
      shifted := SetBit(shifted, 0);
    }
    RegisterMeaning(rem, top, shifted, carryIn, denom);
    if top == 1 || shifted >= denom {
      SetBitBelow(q, bit);
      QuotientRegisterFits(2 * q + 1, bit);
      quo' := SetBit(quo, bit);
      rem' := (shifted - denom) % TWO128;
    } else {
      quo' := quo;
      rem' := shifted;
    }
  }

  /** The loop's statement about the dividend `hi:lo` once the bits from `bit` up are processed. */
  ghost predicate DividedTo(hi: nat, lo: nat, denom: nat, bit: nat, quo: nat, rem: nat, q: nat)
    requires bit <= 128
  {
    Dividing(hi, lo / Pow2(bit), denom, Pow2(128 - bit), Pow2(bit), quo, rem, q)
  }

  lemma DivisionStarts(hi: nat, lo: nat, denom: nat)
    requires hi < denom && lo < TWO128
    ensures DividedTo(hi, lo, denom, 128, 0, hi, 0)
  {
    Pow2Of128();
    FloorUnique(lo, TWO128, 0);
  }

  /** The quotient's bits so far, as the number they will be. */
  function NextQuotient(q: nat, taken: bool): nat {
    2 * q + if taken then 1 else 0
  }

  lemma DivisionStep(hi: nat, lo: nat, denom: nat, bit: nat, quo: nat, rem: nat, q: nat, quo': nat, rem': nat)
    requires bit < 128 && DividedTo(hi, lo, denom, bit + 1, quo, rem, q)
    requires var brought := 2 * rem + lo / Pow2(bit) % 2;
             if denom <= brought then quo' == quo + Pow2(bit) && rem' == brought - denom else quo' == quo && rem' == brought
    ensures DividedTo(hi, lo, denom, bit, quo', rem', NextQuotient(q, denom <= 2 * rem + lo / Pow2(bit) % 2))
  {
    var prefix, carry := lo / Pow2(bit + 1), lo / Pow2(bit) % 2;
    PrefixStep(lo, bit);
    assert 0 <= carry <= 1;
    SetBitBelow(q, bit);
    if denom <= 2 * rem + carry {
      DividingTake(hi, prefix, denom, Pow2(127 - bit), Pow2(bit), quo, rem, q, carry);
    } else {
      DividingSkip(hi, prefix, denom, Pow2(127 - bit), Pow2(bit), quo, rem, q, carry);
    }
  }

  lemma DivisionEnds(hi: nat, lo: nat, denom: nat, quo: nat, rem: nat, q: nat)
    requires denom > 0 && DividedTo(hi, lo, denom, 0, quo, rem, q)
    ensures quo == (hi * TWO128 + lo) / denom
  {
    Pow2Of128();
    assert lo / 1 == lo;
    FloorUnique(hi * TWO128 + lo, denom, q);
  }

  /** The long-division loop over the 128 low bits of the dividend `hi:lo`. */
  method LongDivide(hi: u128, lo: u128, denom: u128) returns (quo: u128)
    requires hi < denom
    ensures quo == (hi * TWO128 + lo) / denom
  {
    var rem: u128 := hi;
    quo := 0;
    var bit: nat := 128;
    ghost var q: nat := 0;
    DivisionStarts(hi, lo, denom);
    while bit > 0
      invariant bit <= 128
      invariant DividedTo(hi, lo, denom, bit, quo, rem, q)
    {
      ghost var rem0, quo0, q0 := rem, quo, q;
      bit := bit - 1;
      rem, quo := DivideBit(lo, denom, bit, rem, quo, q);
      q := NextQuotient(q0, denom <= 2 * rem0 + lo / Pow2(bit) % 2);
      DivisionStep(hi, lo, denom, bit, quo0, rem0, q0, quo, rem);
    }
    DivisionEnds(hi, lo, denom, quo, rem, q);
  }

  /**
  `mul_div_floor`: the exact floor of `a * b / denom` on every input, and `None` exactly when the
  divisor is zero or the quotient needs more than 128 bits.
   */
  method MulDiv(a: u128, b: u128, denom: u128) returns (r: Option<u128>)
    ensures r == MulDivFloor(a, b, denom)
  {
    if denom == 0 {
      return None;
    }
    var product := CheckedMul(a, b);
    if product.Some? {
      SmallQuotient(product.value, denom);
      return Some(product.value / denom);
    }
    var hi, lo := WideningMul(a, b);
    QuotientFits(hi, lo, denom);
    if hi >= denom {
      return None;
    }
    var quo := LongDivide(hi, lo, denom);
    return Some(quo);
  }

  lemma SmallQuotient(n: nat, d: nat)
    requires d > 0
    ensures 0 <= n / d <= n
  {
    FloorBracket(n, d);
    MulMono(1, d, n / d);
  }

  lemma ShiftedEven(rem: u128)
    ensures rem * 2 % TWO128 <= TWO128 - 2
    ensures rem * 2 % TWO128 == 2 * (rem * 2 % TWO128 / 2)
  {
  }

  /** The wrapped register: with the top bit lost, the true value is one modulus higher. */
  lemma RegisterMeaning(rem: u128, top: int, shifted: u128, carry: int, denom: u128)
    requires rem < denom
    requires top == rem / TWO127
    requires carry == 0 || carry == 1
    requires shifted == rem * 2 % TWO128 + carry
    ensures top == 1 || shifted >= denom <==> 2 * rem + carry >= denom
    ensures top == 1 || shifted >= denom ==> (shifted - denom) % TWO128 == 2 * rem + carry - denom
    ensures !(top == 1 || shifted >= denom) ==> shifted == 2 * rem + carry
  {
  }

  lemma QuotientRegisterFits(q: nat, bit: nat)
    requires bit < 128
    requires q < Pow2(128 - bit)
    ensures 0 <= q * Pow2(bit) < TWO128
  {
    Pow2Of128();
    Pow2Split(128 - bit, bit);
    MulMono(q + 1, Pow2(128 - bit), Pow2(bit));
    MulNonNegative(q, Pow2(bit));
  }
}
