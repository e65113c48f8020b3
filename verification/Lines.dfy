/**
The lines of a payout (domain/src/scope_operations.rs): which are accepted, and the two texts that stand
for a set of them, the idempotency key and the digest's input.
 */
module Lines {
  import opened Base
  import opened Money
  import opened Text
  import opened Decimal
  import opened Sorting

  const MAX_PAYOUT_LINES: nat := 1000
  const MAX_AUTH_SUBJECT: nat := 255

  datatype Line = Line(subject: string, amount: u128)

  /** The general category Cc of the Unicode Character Database. */
  predicate IsControl(c: char) {
    c as int < 0x20 || 0x7F <= c as int < 0xA0
  }

  predicate PlainSubject(s: string) {
    s != [] && |Utf8(s)| <= MAX_AUTH_SUBJECT && forall i :: 0 <= i < |s| ==> !IsControl(s[i])
  }

  function SubjectOf(line: Line): string {
    line.subject
  }

  function Subjects(lines: seq<Line>): seq<string> {
    Map(lines, SubjectOf)
  }

  function Total(lines: seq<Line>): nat {
    if lines == [] then 0 else Total(lines[..|lines| - 1]) + lines[|lines| - 1].amount
  }

  predicate GoodLine(line: Line) {
    PlainSubject(line.subject) && line.amount > 0
  }

  predicate AllGood(lines: seq<Line>) {
    forall i :: 0 <= i < |lines| ==> GoodLine(lines[i])
  }

  /** One positive line per plain subject, at most a thousand, and a total the type holds. */
  predicate Acceptable(lines: seq<Line>) {
    && 1 <= |lines| <= MAX_PAYOUT_LINES
    && AllGood(lines)
    && !Repeats(Subjects(lines))
    && Total(lines) < TWO128
  }

  lemma {:induction false} TotalGrows(lines: seq<Line>, n: nat)
    requires n <= |lines|
    ensures Total(lines[..n]) <= Total(lines)
    decreases |lines|
  {
    if n == |lines| {
      assert lines[..n] == lines;
    } else {
      TotalGrows(lines[..|lines| - 1], n);
      assert lines[..|lines| - 1][..n] == lines[..n];
    }
  }

  lemma GoodSoFar(lines: seq<Line>, i: nat)
    requires i < |lines|
    ensures AllGood(lines[..i + 1]) <==> AllGood(lines[..i]) && GoodLine(lines[i])
    ensures AllGood(lines) ==> GoodLine(lines[i])
  {
    assert lines[..i + 1] == lines[..i] + [lines[i]];
  }

  /** The loop of the check: every line is looked at, and added up, until one is refused. */
  method AddUp(lines: seq<Line>) returns (r: Option<(seq<string>, u128)>)
    ensures r.Some? <==> AllGood(lines) && Total(lines) < TWO128
    ensures r.Some? ==> r.value == (Subjects(lines), Total(lines))
  {
    var subjects: seq<string> := [];
    var total: u128 := 0;
    for i := 0 to |lines|
      invariant subjects == Subjects(lines[..i])
      invariant total == Total(lines[..i])
      invariant AllGood(lines[..i])
    {
      GoodSoFar(lines, i);
      TotalGrows(lines, i + 1);
      assert lines[..i + 1][..i] == lines[..i];
      var line := lines[i];
      if !PlainSubject(line.subject) {
        return None;
      }
      if line.amount == 0 {
        return None;
      }
      subjects := subjects + [line.subject];
      var sum := CheckedAdd(total, line.amount);
      if sum.None? {
        return None;
      }
      total := sum.value;
    }
    assert lines[..|lines|] == lines;
    return Some((subjects, total));
  }

  method CheckLines(lines: seq<Line>) returns (r: Result<u128, DomainError>)
    ensures r == if Acceptable(lines) then Ok(Total(lines)) else Err(Validation)
  {
    if lines == [] || |lines| > MAX_PAYOUT_LINES {
      return Err(Validation);
    }
    var added := AddUp(lines);
    if added.None? {
      return Err(Validation);
    }
    var subjects := added.value.0;
    NeighboursTell(subjects);
    subjects := Sort(subjects);
    if EqualNeighbours(subjects) {
      return Err(Validation);
    }
    return Ok(added.value.1);
  }

  // ----- rendering -----

  function Join(parts: seq<string>, separator: char): string {
    if parts == [] then []
    else if |parts| == 1 then parts[0]
    else parts[0] + [separator] + Join(parts[1..], separator)
  }

  /** A text behind its length in bytes. */
  function Framed(field: string): string {
    NatText(|Utf8(field)|) + [':'] + field
  }

  function Canonical(fields: seq<string>): string {
    Join(Map(fields, Framed), '|')
  }

  function InUnits(line: Line): string {
    line.subject + ['|'] + NatText(line.amount)
  }

  function InDecimal(line: Line): string {
    line.subject + ['|'] + ToDecimalString(line.amount)
  }

  function CanonicalLines(lines: seq<Line>): string {
    Canonical(Sort(Map(lines, InUnits)))
  }

  function LinesDigestInput(lines: seq<Line>): string {
    Join(Sort(Map(lines, InDecimal)), '\n')
  }

  // ----- one line -----

  predicate AmountLike(s: string) {
    forall i :: 0 <= i < |s| ==> IsDigit(s[i]) || s[i] == '.'
  }

  lemma DecimalIsPlain(amount: u128)
    ensures AmountLike(ToDecimalString(amount))
  {
    if amount % SCALE != 0 {
      TrimmedPadsBack(PaddedText(amount % SCALE, PLACES));
    }
  }

  lemma NothingAfterTheBar(s: string, a: string, b: string)
    requires s == a + ['|'] + b && '|' !in b
    ensures |a| < |s| && s[|a|] == '|' && forall i :: |a| < i < |s| ==> s[i] != '|'
    ensures a == s[..|a|] && b == s[|a| + 1..]
  {
    forall i | |a| < i < |s| ensures s[i] != '|' {
      assert s[i] == b[i - |a| - 1];
    }
  }

  /** Text ends at its last bar when what follows has none. */
  lemma LastBar(a: string, b: string, a': string, b': string)
    requires a + ['|'] + b == a' + ['|'] + b' && '|' !in b && '|' !in b'
    ensures a == a' && b == b'
  {
    NothingAfterTheBar(a + ['|'] + b, a, b);
    NothingAfterTheBar(a + ['|'] + b, a', b');
  }

  lemma UnitsAreInjective()
    ensures Injective(InUnits)
  {
    forall x: Line, y: Line | InUnits(x) == InUnits(y) ensures x == y {
      LastBar(x.subject, NatText(x.amount), y.subject, NatText(y.amount));
    }
  }

  lemma DecimalsAreInjective()
    ensures Injective(InDecimal)
  {
    forall x: Line, y: Line | InDecimal(x) == InDecimal(y) ensures x == y {
      DecimalIsPlain(x.amount);
      DecimalIsPlain(y.amount);
      LastBar(x.subject, ToDecimalString(x.amount), y.subject, ToDecimalString(y.amount));
      PrintingIsInjective(x.amount, y.amount);
    }
  }

  // ----- many lines -----

  /** Two beginnings of one text with as many bytes are the same. */
  lemma SameBeginning(v: string, w: string, vRest: string, wRest: string)
    requires v + vRest == w + wRest && |Utf8(v)| == |Utf8(w)| && |v| <= |w|
    ensures v == w && vRest == wRest
  {
    var all := v + vRest;
    var more := w[|v|..];
    assert v == all[..|v|] && w == all[..|w|];
    assert w == v + more;
    Utf8Joined(v, more);
    Utf8Length(more);
    assert vRest == all[|v|..] && wRest == all[|w|..];
  }

  lemma FrameIsDelimited(v: string, w: string, vRest: string, wRest: string)
    requires Framed(v) + vRest == Framed(w) + wRest
    ensures v == w && vRest == wRest
  {
    var m, n := NatText(|Utf8(v)|), NatText(|Utf8(w)|);
    assert Framed(v) + vRest == m + [':'] + (v + vRest);
    assert Framed(w) + wRest == n + [':'] + (w + wRest);
    SplitsAtTheFirst(m, ':', v + vRest);
    SplitsAtTheFirst(n, ':', w + wRest);
    assert |Utf8(v)| == Spelled(m) == |Utf8(w)|;
    if |v| <= |w| {
      SameBeginning(v, w, vRest, wRest);
    } else {
      SameBeginning(w, v, wRest, vRest);
    }
  }

  /** The framed text of a list of fields after the first. */
  function Tail(fields: seq<string>): string {
    if fields == [] then [] else ['|'] + Canonical(fields)
  }

  lemma {:induction false} MapTail(fields: seq<string>)
    requires fields != []
    ensures Map(fields, Framed)[0] == Framed(fields[0])
    ensures Map(fields, Framed)[1..] == Map(fields[1..], Framed)
  {
    forall i | 0 <= i < |fields| ensures Map(fields, Framed)[i] == Framed(fields[i]) {
      MapAt(fields, Framed, i);
    }
    forall i | 0 <= i < |fields| - 1 ensures Map(fields[1..], Framed)[i] == Framed(fields[i + 1]) {
      MapAt(fields[1..], Framed, i);
    }
  }

  lemma CanonicalUnfolds(fields: seq<string>)
    requires fields != []
    ensures Canonical(fields) == Framed(fields[0]) + Tail(fields[1..])
  {
    if |fields| == 1 {
      assert Framed(fields[0]) + [] == Framed(fields[0]);
    } else {
      MapTail(fields);
      assert Framed(fields[0]) + ['|'] + Canonical(fields[1..]) == Framed(fields[0]) + (['|'] + Canonical(fields[1..]));
    }
  }

  lemma SameTail(f: seq<string>, g: seq<string>)
    requires Tail(f) == Tail(g)
    ensures (f == [] <==> g == []) && Canonical(f) == Canonical(g)
  {
    if f != [] && g != [] {
      assert Canonical(f) == Tail(f)[1..];
      assert Canonical(g) == Tail(g)[1..];
    }
  }

  lemma CanonicalIsEmpty(f: seq<string>)
    ensures Canonical(f) == [] <==> f == []
  {
    if f != [] {
      CanonicalUnfolds(f);
    }
  }

  /** A list of fields is named by its canonical text, whatever the fields hold. */
  lemma {:induction false} CanonicalIsInjective(f: seq<string>, g: seq<string>)
    requires Canonical(f) == Canonical(g)
    ensures f == g
    decreases |f|
  {
    CanonicalIsEmpty(f);
    CanonicalIsEmpty(g);
    if f != [] {
      CanonicalUnfolds(f);
      CanonicalUnfolds(g);
      FrameIsDelimited(f[0], g[0], Tail(f[1..]), Tail(g[1..]));
      SameTail(f[1..], g[1..]);
      CanonicalIsInjective(f[1..], g[1..]);
      assert f == [f[0]] + f[1..] && g == [g[0]] + g[1..];
    }
  }

  predicate OneLine(s: string) {
    '\n' !in s
  }

  lemma JoinSplits(s: seq<string>)
    requires s != [] && OneLine(s[0])
    ensures SplitOnce(Join(s, '\n'), '\n') == if |s| == 1 then None else Some((s[0], Join(s[1..], '\n')))
  {
    if |s| == 1 {
      SplitMeans(s[0], '\n');
    } else {
      SplitsAtTheFirst(s[0], '\n', Join(s[1..], '\n'));
    }
  }

  lemma {:induction false} JoinIsInjective(s: seq<string>, t: seq<string>)
    requires s != [] && t != [] && Join(s, '\n') == Join(t, '\n')
    requires forall i :: 0 <= i < |s| ==> OneLine(s[i])
    requires forall i :: 0 <= i < |t| ==> OneLine(t[i])
    ensures s == t
    decreases |s|
  {
    JoinSplits(s);
    JoinSplits(t);
    assert s == [s[0]] + s[1..] && t == [t[0]] + t[1..];
    if |s| > 1 {
      JoinIsInjective(s[1..], t[1..]);
    }
  }

  /** The idempotency key names a set of lines: it ignores their order, and nothing else. */
  lemma CanonicalLinesNameTheSet(a: seq<Line>, b: seq<Line>)
    ensures CanonicalLines(a) == CanonicalLines(b) <==> multiset(a) == multiset(b)
  {
    var x, y := Map(a, InUnits), Map(b, InUnits);
    SortForgetsOrder(x, y);
    UnitsAreInjective();
    MapKeepsElements(a, b, InUnits);
    if CanonicalLines(a) == CanonicalLines(b) {
      CanonicalIsInjective(Sort(x), Sort(y));
    }
  }

  lemma RenderedIsOneLine(lines: seq<Line>)
    requires Acceptable(lines)
    ensures forall i :: 0 <= i < |lines| ==> OneLine(Map(lines, InDecimal)[i])
  {
    forall i | 0 <= i < |lines| ensures OneLine(Map(lines, InDecimal)[i]) {
      MapAt(lines, InDecimal, i);
      DecimalIsPlain(lines[i].amount);
      assert GoodLine(lines[i]);
      assert '\n' !in lines[i].subject;
    }
  }

  lemma SortedAreOneLine(s: seq<string>)
    requires forall i :: 0 <= i < |s| ==> OneLine(s[i])
    ensures forall i :: 0 <= i < |s| ==> OneLine(Sort(s)[i])
  {
    SortByIsSorted(s, Itself);
    forall i | 0 <= i < |s| ensures OneLine(Sort(s)[i]) {
      assert Sort(s)[i] in multiset(s);
      assert Sort(s)[i] in s;
    }
  }

  /** Of accepted lines, so does the text the approvers' digest is taken of. */
  lemma DigestInputNamesTheSet(a: seq<Line>, b: seq<Line>)
    requires Acceptable(a) && Acceptable(b)
    ensures LinesDigestInput(a) == LinesDigestInput(b) <==> multiset(a) == multiset(b)
  {
    var x, y := Map(a, InDecimal), Map(b, InDecimal);
    SortForgetsOrder(x, y);
    DecimalsAreInjective();
    MapKeepsElements(a, b, InDecimal);
    if LinesDigestInput(a) == LinesDigestInput(b) {
      RenderedIsOneLine(a);
      RenderedIsOneLine(b);
      SortedAreOneLine(x);
      SortedAreOneLine(y);
      JoinIsInjective(Sort(x), Sort(y));
    }
  }
}
