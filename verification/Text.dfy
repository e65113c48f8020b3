/**
How numbers, identifiers and text are written out: digits in a base, big-endian bytes, UTF-8, and a
UUID's hyphenated form, each with the way back.
 */
module Text {
  import opened Base
  import opened Ledger
  import opened Money

  type Byte = x: int | 0 <= x < 256
  type Bytes = seq<Byte>

  // ----- digits -----

  function Power(base: nat, n: nat): nat {
    if n == 0 then 1 else base * Power(base, n - 1)
  }

  function Quotient(n: nat, base: nat): (q: nat)
    requires base > 0
  {
    n / base
  }

  function Remainder(n: nat, base: nat): (r: nat)
    requires base > 0
    ensures r < base
  {
    n % base
  }

  lemma DivisionFacts(n: nat, base: nat)
    requires base > 0
    ensures Quotient(n, base) * base + Remainder(n, base) == n
  {
  }

  /** The last `width` digits of `n`, most significant first. */
  function Digits(n: nat, base: nat, width: nat): (d: seq<nat>)
    requires base > 1
    ensures |d| == width
    ensures forall i :: 0 <= i < width ==> d[i] < base
    decreases width
  {
    if width == 0 then [] else Digits(Quotient(n, base), base, width - 1) + [Remainder(n, base)]
  }

  function FromDigits(d: seq<nat>, base: nat): nat {
    if d == [] then 0 else FromDigits(d[..|d| - 1], base) * base + d[|d| - 1]
  }

  lemma OneMoreDigit(d: seq<nat>, last: nat, base: nat)
    ensures FromDigits(d + [last], base) == FromDigits(d, base) * base + last
  {
    assert (d + [last])[..|d|] == d;
  }

  /** Digits wide enough for a number read back as that number. */
  lemma {:induction false} DigitsRoundTrip(n: nat, base: nat, width: nat)
    requires base > 1 && n < Power(base, width)
    ensures FromDigits(Digits(n, base, width), base) == n
    decreases width
  {
    if width > 0 {
      DivisionFacts(n, base);
      QuotientFits(n, base, Power(base, width - 1));
      DigitsRoundTrip(Quotient(n, base), base, width - 1);
      OneMoreDigit(Digits(Quotient(n, base), base, width - 1), Remainder(n, base), base);
    }
  }

  lemma QuotientFits(n: nat, base: nat, p: nat)
    requires base > 0 && n < base * p
    ensures Quotient(n, base) < p
  {
    var q := Quotient(n, base);
    DivisionFacts(n, base);
    if q >= p {
      MulMonoInt(p, q, base);
    }
  }

  /** And any digits are those of the number they spell. */
  lemma {:induction false} FromDigitsFits(d: seq<nat>, base: nat)
    requires base > 1 && forall i :: 0 <= i < |d| ==> d[i] < base
    ensures FromDigits(d, base) < Power(base, |d|)
    ensures Digits(FromDigits(d, base), base, |d|) == d
  {
    if d != [] {
      var before, last := d[..|d| - 1], d[|d| - 1];
      FromDigitsFits(before, base);
      OneMoreDigit(before, last, base);
      assert d == before + [last];
      LastDigit(FromDigits(before, base), last, base, Power(base, |d| - 1));
    }
  }

  lemma LastDigit(high: nat, last: nat, base: nat, p: nat)
    requires last < base && high < p
    ensures 0 <= high * base + last < base * p
    ensures Quotient(high * base + last, base) == high && Remainder(high * base + last, base) == last
  {
    MulNonNegative(high, base);
    var n: nat := high * base + last;
    DivisionFacts(n, base);
    SameQuotient(Quotient(n, base), Remainder(n, base), high, last, base);
    MulMonoInt(high + 1, p, base);
    assert (high + 1) * base == high * base + base;
  }

  lemma SameQuotient(q: int, r: int, high: int, last: int, base: int)
    requires 0 <= r < base && 0 <= last < base && q * base + r == high * base + last
    ensures q == high && r == last
  {
    assert (high + 1) * base == high * base + base && (q + 1) * base == q * base + base;
    if q > high {
      MulMonoInt(high + 1, q, base);
    } else if q < high {
      MulMonoInt(q + 1, high, base);
    }
  }

  // ----- bytes -----

  function BigEndian(n: nat, width: nat): (b: Bytes)
    ensures |b| == width
  {
    var d := Digits(n, 256, width);
    seq(width, i requires 0 <= i < width => d[i])
  }

  lemma BigEndianInjective(m: nat, n: nat, width: nat)
    requires m < Power(256, width) && n < Power(256, width)
    requires BigEndian(m, width) == BigEndian(n, width)
    ensures m == n
  {
    assert Digits(m, 256, width) == Digits(n, 256, width) by {
      forall i | 0 <= i < width ensures Digits(m, 256, width)[i] == Digits(n, 256, width)[i] {
        assert BigEndian(m, width)[i] == BigEndian(n, width)[i];
      }
    }
    DigitsRoundTrip(m, 256, width);
    DigitsRoundTrip(n, 256, width);
  }

  lemma ByteWidths()
    ensures Power(256, 4) == 0x1_0000_0000
    ensures Power(256, 8) == 0x1_0000_0000_0000_0000
    ensures Power(256, 16) == TWO128
  {
    PowerSplit(256, 4, 4);
    PowerSplit(256, 8, 8);
    assert Power(256, 4) == 256 * (256 * (256 * (256 * Power(256, 0))));
  }

  lemma {:induction false} PowerSplit(base: nat, m: nat, n: nat)
    ensures Power(base, m + n) == Power(base, m) * Power(base, n)
  {
    if m > 0 {
      PowerSplit(base, m - 1, n);
      assert base * (Power(base, m - 1) * Power(base, n)) == base * Power(base, m - 1) * Power(base, n);
    }
  }

  /** One character in UTF-8 (section 3 of RFC 3629). */
  function Utf8Of(c: char): (b: Bytes)
    ensures 1 <= |b| <= 4
  {
    var x := c as int;
    if x < 0x80 then [x]
    else if x < 0x800 then [0xC0 + x / 64, 0x80 + x % 64]
    else if x < 0x1_0000 then [0xE0 + x / 4096, 0x80 + x / 64 % 64, 0x80 + x % 64]
    else [0xF0 + x / 262144, 0x80 + x / 4096 % 64, 0x80 + x / 64 % 64, 0x80 + x % 64]
  }

  function Utf8(s: string): Bytes {
    if s == [] then [] else Utf8Of(s[0]) + Utf8(s[1..])
  }

  lemma SamePrefix(a: Bytes, b: Bytes, aRest: Bytes, bRest: Bytes)
    requires |a| == |b| && a + aRest == b + bRest
    ensures a == b && aRest == bRest
  {
    var all := a + aRest;
    assert a == all[..|a|] && b == all[..|b|];
    assert aRest == all[|a|..] && bRest == all[|b|..];
  }

  lemma SameWidth(c: char, d: char)
    requires Utf8Of(c)[0] == Utf8Of(d)[0]
    ensures |Utf8Of(c)| == |Utf8Of(d)|
  {
  }

  /** The scalar value the bytes of one character carry. */
  function Scalar(b: seq<int>): int
    requires 1 <= |b| <= 4
  {
    if |b| == 1 then b[0]
    else if |b| == 2 then (b[0] - 0xC0) * 64 + (b[1] - 0x80)
    else if |b| == 3 then ((b[0] - 0xE0) * 64 + (b[1] - 0x80)) * 64 + (b[2] - 0x80)
    else (((b[0] - 0xF0) * 64 + (b[1] - 0x80)) * 64 + (b[2] - 0x80)) * 64 + (b[3] - 0x80)
  }

  lemma SixBits(x: nat)
    ensures x / 64 * 64 + x % 64 == x
    ensures x / 64 / 64 == x / 4096
    ensures x / 4096 / 64 == x / 262144
  {
  }

  lemma ScalarOf(c: char)
    ensures Scalar(Utf8Of(c)) == c as int
  {
    var x := c as int;
    SixBits(x);
    SixBits(x / 64);
    SixBits(x / 4096);
  }

  /** A character's bytes end where its first byte says, and name that character only. */
  lemma CharIsDelimited(c: char, d: char, cRest: Bytes, dRest: Bytes)
    requires Utf8Of(c) + cRest == Utf8Of(d) + dRest
    ensures c == d && cRest == dRest
  {
    assert (Utf8Of(c) + cRest)[0] == Utf8Of(c)[0];
    assert (Utf8Of(d) + dRest)[0] == Utf8Of(d)[0];
    SameWidth(c, d);
    SamePrefix(Utf8Of(c), Utf8Of(d), cRest, dRest);
    ScalarOf(c);
    ScalarOf(d);
  }

  lemma {:induction false} Utf8Injective(s: string, t: string)
    requires Utf8(s) == Utf8(t)
    ensures s == t
  {
    if s != [] && t != [] {
      CharIsDelimited(s[0], t[0], Utf8(s[1..]), Utf8(t[1..]));
      Utf8Injective(s[1..], t[1..]);
      assert s == [s[0]] + s[1..] && t == [t[0]] + t[1..];
    }
  }

  lemma Utf8Cons(c: char, s: string)
    ensures Utf8([c] + s) == Utf8Of(c) + Utf8(s)
  {
    assert ([c] + s)[1..] == s;
  }

  lemma Together(a: Bytes, b: Bytes, c: Bytes)
    ensures a + (b + c) == a + b + c
  {
  }

  lemma {:induction false} Utf8Joined(s: string, t: string)
    ensures Utf8(s + t) == Utf8(s) + Utf8(t)
  {
    if s == [] {
      assert s + t == t;
    } else {
      var c, rest := s[0], s[1..];
      Utf8Joined(rest, t);
      assert s + t == [c] + (rest + t);
      Utf8Cons(c, rest + t);
      Together(Utf8Of(c), Utf8(rest), Utf8(t));
    }
  }

  lemma {:induction false} Utf8Length(s: string)
    ensures |s| <= |Utf8(s)| <= 4 * |s|
  {
    if s != [] {
      Utf8Length(s[1..]);
    }
  }

  predicate Ascii(s: string) {
    forall i :: 0 <= i < |s| ==> s[i] as int < 128
  }

  lemma {:induction false} AsciiLength(s: string)
    requires Ascii(s)
    ensures |Utf8(s)| == |s|
  {
    if s != [] {
      AsciiLength(s[1..]);
    }
  }

  // ----- decimal and hexadecimal characters -----

  function DigitChar(d: nat): (c: char)
    requires d < 16
  {
    "0123456789abcdef"[d]
  }

  /** What a character is worth as a hexadecimal digit, in either case. */
  function HexWorth(c: char): (r: Option<nat>)
    ensures r.Some? ==> r.value < 16
  {
    if '0' <= c <= '9' then Some(c as int - '0' as int)
    else if 'a' <= c <= 'f' then Some(c as int - 'a' as int + 10)
    else if 'A' <= c <= 'F' then Some(c as int - 'A' as int + 10)
    else None
  }

  lemma DigitCharWorth(d: nat)
    requires d < 16
    ensures HexWorth(DigitChar(d)) == Some(d)
    ensures d < 10 ==> '0' <= DigitChar(d) <= '9'
  {
  }

  // ----- UUIDs -----

  /** Where the `k`th digit stands in the 8-4-4-4-12 form. */
  function TextIndex(k: nat): nat {
    if k < 8 then k else if k < 12 then k + 1 else if k < 16 then k + 2 else if k < 20 then k + 3 else k + 4
  }

  predicate IsHyphen(i: nat) {
    i == 8 || i == 13 || i == 18 || i == 23
  }

  /** Which digit stands at index `i`, where no hyphen does. */
  function DigitIndex(i: nat): nat
    requires !IsHyphen(i)
  {
    if i < 8 then i else if i < 13 then i - 1 else if i < 18 then i - 2 else if i < 23 then i - 3 else i - 4
  }

  /** The lower-case hyphenated form. */
  function UuidText(u: Uuid): (s: string)
    ensures |s| == 36
  {
    var d := Digits(u, 16, 32);
    seq(36, i requires 0 <= i < 36 => if IsHyphen(i) then '-' else DigitChar(d[DigitIndex(i)]))
  }

  function HexDigits(s: string): Option<seq<nat>> {
    if s == [] then Some([])
    else
      var before :- HexDigits(s[..|s| - 1]);
      var last :- HexWorth(s[|s| - 1]);
      Some(before + [last])
  }

  /** The characters of a hyphenated form that are not its hyphens. */
  function Stripped(s: string): (t: string)
    requires |s| == 36
    ensures |t| == 32
  {
    seq(32, k requires 0 <= k < 32 => s[TextIndex(k)])
  }

  /** Thirty-two hexadecimal digits, in either case. */
  function ParseDigits(s: string): Option<Uuid> {
    if |s| != 32 then None
    else
      var d :- HexDigits(s);
      var n := FromDigits(d, 16);
      if n < TWO128 then Some(n) else None
  }

  function ParseHyphenated(s: string): Option<Uuid> {
    if |s| != 36 || s[8] != '-' || s[13] != '-' || s[18] != '-' || s[23] != '-' then None else ParseDigits(Stripped(s))
  }

  /** The four forms a UUID is read in: digits alone, hyphenated, in braces, and as a URN. */
  function ParseUuid(s: string): Option<Uuid> {
    if |s| == 32 then ParseDigits(s)
    else if |s| == 36 then ParseHyphenated(s)
    else if |s| == 38 && s[0] == '{' && s[37] == '}' then ParseHyphenated(s[1..37])
    else if |s| == 45 && s[..9] == "urn:uuid:" then ParseHyphenated(s[9..])
    else None
  }

  lemma {:induction false} HexDigitsOf(d: seq<nat>, s: string)
    requires |s| == |d| && forall i :: 0 <= i < |d| ==> d[i] < 16 && s[i] == DigitChar(d[i])
    ensures HexDigits(s) == Some(d)
  {
    if s != [] {
      HexDigitsOf(d[..|d| - 1], s[..|s| - 1]);
      DigitCharWorth(d[|d| - 1]);
      assert d == d[..|d| - 1] + [d[|d| - 1]];
    }
  }

  lemma HexWidth()
    ensures Power(16, 32) == TWO128
  {
    PowerSplit(16, 16, 16);
    PowerSplit(16, 8, 8);
    PowerSplit(16, 4, 4);
    assert Power(16, 4) == 16 * (16 * (16 * (16 * Power(16, 0))));
  }

  lemma DigitsAreRead(u: Uuid, t: string)
    requires |t| == 32 && forall i :: 0 <= i < 32 ==> t[i] == DigitChar(Digits(u, 16, 32)[i])
    ensures ParseDigits(t) == Some(u)
  {
    HexDigitsOf(Digits(u, 16, 32), t);
    HexWidth();
    DigitsRoundTrip(u, 16, 32);
  }

  /** A UUID's hyphenated form reads back as that UUID, and names no other. */
  lemma UuidRoundTrip(u: Uuid)
    ensures ParseHyphenated(UuidText(u)) == Some(u)
    ensures ParseUuid(UuidText(u)) == Some(u)
  {
    var s := UuidText(u);
    var d := Digits(u, 16, 32);
    var t := Stripped(s);
    forall k | 0 <= k < 32 ensures t[k] == DigitChar(d[k]) {
      assert t[k] == s[TextIndex(k)] && DigitIndex(TextIndex(k)) == k;
    }
    DigitsAreRead(u, t);
    assert s[8] == s[13] == s[18] == s[23] == '-';
  }

  /** The digits without hyphens. */
  function SimpleText(u: Uuid): (s: string)
    ensures |s| == 32
  {
    var d := Digits(u, 16, 32);
    seq(32, i requires 0 <= i < 32 => DigitChar(d[i]))
  }

  /** The three forms that are read and never printed. */
  lemma OtherFormsAreRead(u: Uuid)
    ensures ParseUuid(SimpleText(u)) == Some(u)
    ensures ParseUuid(['{'] + UuidText(u) + ['}']) == Some(u)
    ensures ParseUuid("urn:uuid:" + UuidText(u)) == Some(u)
  {
    DigitsAreRead(u, SimpleText(u));
    UuidRoundTrip(u);
    BracedIsRead(UuidText(u));
    UrnIsRead(UuidText(u));
  }

  lemma BracedIsRead(t: string)
    requires |t| == 36
    ensures ParseUuid(['{'] + t + ['}']) == ParseHyphenated(t)
  {
    assert (['{'] + t + ['}'])[1..37] == t;
  }

  lemma UrnIsRead(t: string)
    requires |t| == 36
    ensures ParseUuid("urn:uuid:" + t) == ParseHyphenated(t)
  {
    var s := "urn:uuid:" + t;
    assert s[..9] == "urn:uuid:" && s[9..] == t;
  }

  lemma UuidInjective(u: Uuid, v: Uuid)
    requires UuidText(u) == UuidText(v)
    ensures u == v
  {
    UuidRoundTrip(u);
    UuidRoundTrip(v);
  }

  lemma UuidCharacters(u: Uuid)
    ensures forall c :: c in UuidText(u) ==> c == '-' || '0' <= c <= '9' || 'a' <= c <= 'f'
  {
  }

  predicate UpperHex(c: char) {
    'A' <= c <= 'F'
  }

  lemma {:induction false} HexDigitsMean(s: string)
    requires HexDigits(s).Some?
    ensures |HexDigits(s).value| == |s|
    ensures forall i :: 0 <= i < |s| ==> HexWorth(s[i]) == Some(HexDigits(s).value[i])
  {
    if s != [] {
      HexDigitsMean(s[..|s| - 1]);
    }
  }

  lemma LowerDigit(c: char)
    requires HexWorth(c).Some?
    ensures DigitChar(HexWorth(c).value) == c <==> !UpperHex(c)
  {
  }

  lemma DigitsOfText(t: string, width: nat) returns (d: seq<nat>)
    requires HexDigits(t).Some? && |t| == width
    ensures HexDigits(t) == Some(d) && |d| == width && Digits(FromDigits(d, 16), 16, width) == d
    ensures forall k :: 0 <= k < width ==> d[k] < 16 && HexWorth(t[k]) == Some(d[k])
  {
    d := HexDigits(t).value;
    HexDigitsMean(t);
    forall k | 0 <= k < width ensures d[k] < 16 {
      assert HexWorth(t[k]) == Some(d[k]);
    }
    FromDigitsFits(d, 16);
  }

  lemma ParsedDigits(s: string) returns (d: seq<nat>)
    requires ParseHyphenated(s).Some?
    ensures |s| == 36 && |d| == 32 && Digits(ParseHyphenated(s).value, 16, 32) == d
    ensures forall i :: 0 <= i < 36 && IsHyphen(i) ==> s[i] == '-'
    ensures forall k :: 0 <= k < 32 ==> d[k] < 16 && HexWorth(s[TextIndex(k)]) == Some(d[k])
  {
    var t := Stripped(s);
    d := DigitsOfText(t, 32);
    forall k | 0 <= k < 32 ensures HexWorth(s[TextIndex(k)]) == Some(d[k]) {
      assert t[k] == s[TextIndex(k)];
    }
  }

  predicate LowerCase(s: string) {
    forall i :: 0 <= i < |s| ==> !UpperHex(s[i])
  }

  lemma ParsedHyphenated(s: string)
    requires ParseHyphenated(s).Some?
    ensures UuidText(ParseHyphenated(s).value) == s <==> LowerCase(s)
    ensures forall i :: 0 <= i < |s| ==> !IsWhitespace(s[i])
  {
    var d := ParsedDigits(s);
    var printed := UuidText(ParseHyphenated(s).value);
    forall i | 0 <= i < 36 ensures (printed[i] == s[i] <==> !UpperHex(s[i])) && !IsWhitespace(s[i]) {
      if !IsHyphen(i) {
        assert TextIndex(DigitIndex(i)) == i;
        LowerDigit(s[i]);
      }
    }
    if LowerCase(s) {
      assert printed == s;
    }
  }

  /** What reads as a UUID is its printed form exactly when it is hyphenated only and has no digit in upper case. */
  lemma ParsedUuid(s: string)
    requires ParseUuid(s).Some?
    ensures UuidText(ParseUuid(s).value) == s <==> |s| == 36 && LowerCase(s)
    ensures |s| == 36 ==> forall i :: 0 <= i < |s| ==> !IsWhitespace(s[i])
  {
    if |s| == 36 {
      ParsedHyphenated(s);
    }
  }

  // ----- splitting and trimming -----

  /** The text before and after the first `c`, if there is one. */
  function SplitOnce(s: string, c: char): Option<(string, string)> {
    if s == [] then None
    else if s[0] == c then Some(([], s[1..]))
    else
      var (before, after) :- SplitOnce(s[1..], c);
      Some(([s[0]] + before, after))
  }

  lemma {:induction false} SplitsAtTheFirst(before: string, c: char, after: string)
    requires c !in before
    ensures SplitOnce(before + [c] + after, c) == Some((before, after))
  {
    var s := before + [c] + after;
    if before == [] {
      assert s[1..] == after;
    } else {
      SplitsAtTheFirst(before[1..], c, after);
      assert s[1..] == before[1..] + [c] + after;
      assert before == [before[0]] + before[1..];
    }
  }

  lemma {:induction false} SplitMeans(s: string, c: char)
    ensures SplitOnce(s, c).None? <==> c !in s
    ensures SplitOnce(s, c).Some? ==>
              && s == SplitOnce(s, c).value.0 + [c] + SplitOnce(s, c).value.1
              && c !in SplitOnce(s, c).value.0
  {
    if s != [] {
      assert s == [s[0]] + s[1..];
      SplitMeans(s[1..], c);
    }
  }

  /** The White_Space property of the Unicode Character Database. */
  predicate IsWhitespace(c: char) {
    var x := c as int;
    || 0x09 <= x <= 0x0D || x == 0x20 || x == 0x85 || x == 0xA0 || x == 0x1680 || 0x2000 <= x <= 0x200A
    || x == 0x2028 || x == 0x2029 || x == 0x202F || x == 0x205F || x == 0x3000
  }

  function TrimStart(s: string): string {
    if s != [] && IsWhitespace(s[0]) then TrimStart(s[1..]) else s
  }

  function TrimEnd(s: string): string {
    if s != [] && IsWhitespace(s[|s| - 1]) then TrimEnd(s[..|s| - 1]) else s
  }

  function Trim(s: string): string {
    TrimEnd(TrimStart(s))
  }

  lemma TrimKeepsSolid(s: string)
    requires forall i :: 0 <= i < |s| ==> !IsWhitespace(s[i])
    ensures Trim(s) == s
  {
  }
}
