/**
What an approval decides (domain/src/scope_operations.rs): the payload the approvers' hash is taken of
names one operation, everything that will move and from where, given a digest that does not collide.
 */
module Approvals {
  import opened Base
  import opened Money
  import opened Ledger
  import opened Text
  import opened Decimal
  import opened Sorting
  import opened Lines
  import opened Keys
  import opened Operations

  // ----- lines and fields -----

  lemma {:induction false} TerminatedIsInjective(s: seq<string>, t: seq<string>)
    requires Terminated(s) == Terminated(t)
    requires forall i :: 0 <= i < |s| ==> OneLine(s[i])
    requires forall i :: 0 <= i < |t| ==> OneLine(t[i])
    ensures s == t
    decreases |s|
  {
    if s != [] && t != [] {
      SplitsAtTheFirst(s[0], '\n', Terminated(s[1..]));
      SplitsAtTheFirst(t[0], '\n', Terminated(t[1..]));
      TerminatedIsInjective(s[1..], t[1..]);
      assert s == [s[0]] + s[1..] && t == [t[0]] + t[1..];
    }
  }

  /** Enough of a key's text to tell it from the others: its length and its first letter. */
  function Mark(k: Key): (nat, char) {
    match k
    case Amount => (6, 'a')
    case Distribution => (12, 'd')
    case FromAccount => (12, 'f')
    case LinesDigest => (12, 'l')
    case MaxLine => (8, 'm')
    case OverScopeBudget => (17, 'o')
    case Recipient => (9, 'r')
    case Recipients => (10, 'r')
    case Service => (7, 's')
    case ToAccount => (10, 't')
    case TotalAmount => (5, 't')
  }

  lemma KeyIsMarked(k: Key)
    ensures |KeyText(k)| == Mark(k).0 && KeyText(k)[0] == Mark(k).1
  {
  }

  lemma KeyTextIsInjective(j: Key, k: Key)
    requires KeyText(j) == KeyText(k)
    ensures j == k
  {
    KeyIsMarked(j);
    KeyIsMarked(k);
  }

  predicate NoTab(s: string) {
    '\t' !in s
  }

  lemma KeyIsPlain(k: Key)
    ensures NoTab(KeyText(k)) && OneLine(KeyText(k))
  {
  }

  lemma TypeIsPlain(v: Value)
    ensures NoTab(TypeName(v)) && OneLine(TypeName(v))
  {
  }

  /** Values the encoding cannot tell apart. */
  predicate Alike(v: Value, w: Value) {
    TypeName(v) == TypeName(w) && Encoded(v) == Encoded(w)
  }

  lemma FieldLineNames(f: Field, g: Field)
    requires FieldLine(f) == FieldLine(g)
    ensures f.key == g.key && Alike(f.value, g.value)
  {
    KeyIsPlain(f.key);
    KeyIsPlain(g.key);
    TypeIsPlain(f.value);
    TypeIsPlain(g.value);
    SplitsAtTheFirst(KeyText(f.key), '\t', TypeName(f.value) + ['\t'] + Encoded(f.value));
    SplitsAtTheFirst(KeyText(g.key), '\t', TypeName(g.value) + ['\t'] + Encoded(g.value));
    SplitsAtTheFirst(TypeName(f.value), '\t', Encoded(f.value));
    SplitsAtTheFirst(TypeName(g.value), '\t', Encoded(g.value));
    KeyTextIsInjective(f.key, g.key);
  }

  lemma TypesAreDistinct(v: Value, w: Value)
    requires TypeName(v) == TypeName(w)
    ensures v.Words? == w.Words? && v.Cash? == w.Cash? && v.Flag? == w.Flag? && v.Person? == w.Person? && v.Count? == w.Count?
  {
    assert TypeName(Words(""))[0] == 'T' && TypeName(Flag(true))[0] == 'F' && TypeName(Person(""))[0] == 'U';
  }

  lemma CashIsInjective(m: u128, n: u128)
    requires Encoded(Cash(m)) == Encoded(Cash(n))
    ensures m == n
  {
    var a, b := ToDecimalString(m), ToDecimalString(n);
    assert |a| == |b|;
    assert a == (a + " USDT")[..|a|] == (b + " USDT")[..|a|] == b;
    PrintingIsInjective(m, n);
  }

  lemma FlagIsInjective(p: bool, q: bool)
    requires Encoded(Flag(p)) == Encoded(Flag(q))
    ensures p == q
  {
    assert |"true"| == 4 && |"false"| == 5;
  }

  // ----- the same fields -----

  lemma SameLinesSameFields(x: seq<Field>, y: seq<Field>, f: Field) returns (g: Field)
    requires Map(SortBy(x, NameOf), FieldLine) == Map(SortBy(y, NameOf), FieldLine)
    requires f in x
    ensures g in y && g.key == f.key && Alike(f.value, g.value)
  {
    var p, q := SortBy(x, NameOf), SortBy(y, NameOf);
    SortByIsSorted(x, NameOf);
    SortByIsSorted(y, NameOf);
    assert f in multiset(p);
    var i :| 0 <= i < |p| && p[i] == f;
    MapAt(p, FieldLine, i);
    assert |p| == |Map(p, FieldLine)| == |q|;
    MapAt(q, FieldLine, i);
    g := q[i];
    assert g in multiset(y);
    FieldLineNames(f, g);
  }

  /** The value shown under a key. */
  function ValueOf(s: Shown, k: Key): Option<Value> {
    match k
    case Service => Some(Words(s.client))
    case FromAccount => Some(Words(s.account))
    case ToAccount => if s.ShownTransfer? then Some(Words(s.to)) else None
    case Amount => if s.ShownTransfer? then Some(Cash(s.amount)) else None
    case TotalAmount => if s.ShownPayout? then Some(Cash(s.total)) else None
    case Recipients => if s.ShownPayout? then Some(Count(s.recipients)) else None
    case MaxLine => if s.ShownPayout? then Some(Cash(s.largest)) else None
    case LinesDigest => if s.ShownPayout? then Some(Words(s.digest)) else None
    case Distribution => if s.ShownPayout? then Some(Flag(s.distribution)) else None
    case OverScopeBudget => if s.ShownPayout? then Some(Flag(s.overScopeBudget)) else None
    case Recipient => if s.ShownPayout? && s.recipient.Some? then Some(Person(s.recipient.value)) else None
  }

  lemma FieldIsLookedUp(s: Shown, f: Field)
    requires f in Fields(s)
    ensures ValueOf(s, f.key) == Some(f.value)
  {
    var i :| 0 <= i < |Fields(s)| && Fields(s)[i] == f;
  }

  /** Where a payout's or a transfer's field stands before sorting. */
  function PlaceOf(s: Shown, k: Key): nat {
    match k
    case Service => 0
    case FromAccount => 1
    case ToAccount => 2
    case Amount => 3
    case TotalAmount => 2
    case Recipients => 3
    case MaxLine => 4
    case LinesDigest => 5
    case Distribution => 6
    case OverScopeBudget => 7
    case Recipient => 8
  }

  lemma LookedUpIsField(s: Shown, k: Key)
    requires ValueOf(s, k).Some?
    ensures Field(k, ValueOf(s, k).value) in Fields(s)
  {
    assert Fields(s)[PlaceOf(s, k)] == Field(k, ValueOf(s, k).value);
  }

  ghost predicate SameLines(s: Shown, t: Shown) {
    Map(SortBy(Fields(s), NameOf), FieldLine) == Map(SortBy(Fields(t), NameOf), FieldLine)
  }

  /** Two operations with the same field lines show alike values under every key. */
  lemma SameLinesSameValue(s: Shown, t: Shown, k: Key)
    requires SameLines(s, t) && ValueOf(s, k).Some?
    ensures ValueOf(t, k).Some? && Alike(ValueOf(s, k).value, ValueOf(t, k).value)
  {
    LookedUpIsField(s, k);
    var g := SameLinesSameFields(Fields(s), Fields(t), Field(k, ValueOf(s, k).value));
    FieldIsLookedUp(t, g);
  }

  lemma AlikeIsEqual(v: Value, w: Value)
    requires Alike(v, w)
    ensures v == w
  {
    TypesAreDistinct(v, w);
    if v.Cash? {
      CashIsInjective(v.cash, w.cash);
    } else if v.Flag? {
      FlagIsInjective(v.raised, w.raised);
    } else if v.Count? {
      assert Spelled(NatText(v.count)) == v.count && Spelled(NatText(w.count)) == w.count;
    }
  }

  lemma SameValue(s: Shown, t: Shown, k: Key)
    requires SameLines(s, t)
    ensures ValueOf(s, k) == ValueOf(t, k)
  {
    if ValueOf(s, k).Some? {
      SameLinesSameValue(s, t, k);
      AlikeIsEqual(ValueOf(s, k).value, ValueOf(t, k).value);
    } else if ValueOf(t, k).Some? {
      SameLinesSameValue(t, s, k);
    }
  }

  /** The lines of an approval name everything it shows. */
  lemma SameLinesSameShown(s: Shown, t: Shown)
    requires SameLines(s, t)
    ensures s == t
  {
    forall k ensures ValueOf(s, k) == ValueOf(t, k) {
      SameValue(s, t, k);
    }
    ShownByItsValues(s, t);
  }

  lemma ShownByItsValues(s: Shown, t: Shown)
    requires forall k :: ValueOf(s, k) == ValueOf(t, k)
    ensures s == t
  {
    assert ValueOf(s, Service) == ValueOf(t, Service) && ValueOf(s, FromAccount) == ValueOf(t, FromAccount);
    assert ValueOf(s, ToAccount) == ValueOf(t, ToAccount) && ValueOf(s, Amount) == ValueOf(t, Amount);
    assert ValueOf(s, TotalAmount) == ValueOf(t, TotalAmount) && ValueOf(s, Recipients) == ValueOf(t, Recipients);
    assert ValueOf(s, MaxLine) == ValueOf(t, MaxLine) && ValueOf(s, LinesDigest) == ValueOf(t, LinesDigest);
    assert ValueOf(s, Distribution) == ValueOf(t, Distribution) && ValueOf(s, OverScopeBudget) == ValueOf(t, OverScopeBudget);
    assert ValueOf(s, Recipient) == ValueOf(t, Recipient);
  }

  // ----- the payload is made of lines -----

  lemma CharactersOfNatText(n: nat)
    ensures OneLine(NatText(n))
  {
  }

  lemma ScopedTextIsOneLine(scope: ScopeId, name: Label)
    requires IsScopeId(scope) && IsLabel(name)
    ensures OneLine(scope) && OneLine(AccountText(scope, name))
  {
  }

  lemma CashIsOneLine(n: u128)
    ensures OneLine(Encoded(Cash(n)))
  {
    DecimalIsPlain(n);
  }

  lemma SubjectIsOneLine(lines: seq<PayoutLine>, i: nat)
    requires Acceptable(RequestedLines(lines)) && i < |lines|
    ensures OneLine(lines[i].subject)
  {
    MapAt(lines, Requested, i);
    assert GoodLine(RequestedLines(lines)[i]);
  }

  /** Every text shown stands on one line. */
  predicate PlainShown(s: Shown) {
    && OneLine(s.client) && OneLine(s.account)
    && match s
       case ShownPayout(_, _, _, _, _, digest, _, _, recipient) => OneLine(digest) && (recipient.Some? ==> OneLine(recipient.value))
       case ShownTransfer(_, _, to, _) => OneLine(to)
  }

  lemma ValueIsOneLine(s: Shown, k: Key)
    requires PlainShown(s) && ValueOf(s, k).Some?
    ensures OneLine(Encoded(ValueOf(s, k).value))
  {
    var v := ValueOf(s, k).value;
    if v.Cash? {
      CashIsOneLine(v.cash);
    } else if v.Count? {
      CharactersOfNatText(v.count);
    }
  }

  lemma FieldIsOneLine(s: Shown, f: Field)
    requires PlainShown(s) && f in Fields(s)
    ensures OneLine(FieldLine(f))
  {
    FieldIsLookedUp(s, f);
    ValueIsOneLine(s, f.key);
    KeyIsPlain(f.key);
    TypeIsPlain(f.value);
  }

  predicate AllOneLine(s: seq<string>) {
    forall i :: 0 <= i < |s| ==> OneLine(s[i])
  }

  lemma FieldLinesAreLines(s: Shown)
    requires PlainShown(s)
    ensures AllOneLine(Map(SortBy(Fields(s), NameOf), FieldLine))
  {
    var sorted := SortBy(Fields(s), NameOf);
    SortByIsSorted(Fields(s), NameOf);
    forall i | 0 <= i < |sorted| ensures OneLine(Map(sorted, FieldLine)[i]) {
      MapAt(sorted, FieldLine, i);
      assert sorted[i] in multiset(Fields(s));
      FieldIsOneLine(s, sorted[i]);
    }
  }

  lemma RefIsOneLine(id: Uuid)
    ensures OneLine(SubjectRef(id))
  {
    UuidCharacters(id);
    assert OneLine("pending_operation:");
  }

  lemma KindIsOneLine(k: Kind)
    ensures OneLine(KindText(k))
  {
  }

  lemma JoinedLines(s: seq<string>, t: seq<string>)
    requires AllOneLine(s) && AllOneLine(t)
    ensures AllOneLine(s + t)
  {
  }

  lemma SplitAlike(a: seq<string>, b: seq<string>, p: seq<string>, q: seq<string>)
    requires |a| == |b| && a + p == b + q
    ensures a == b && p == q
  {
    var all := a + p;
    assert a == all[..|a|] && b == all[..|a|] && p == all[|a|..] && q == all[|a|..];
  }

  /** Equal texts have the same header and the same lines after it. */
  lemma LinesSplit(header: seq<string>, header': seq<string>, p: seq<string>, q: seq<string>)
    requires |header| == |header'| && Terminated(header + p) == Terminated(header' + q)
    requires AllOneLine(header) && AllOneLine(header') && AllOneLine(p) && AllOneLine(q)
    ensures header == header' && p == q
  {
    JoinedLines(header, p);
    JoinedLines(header', q);
    TerminatedIsInjective(header + p, header' + q);
    SplitAlike(header, header', p, q);
  }

  lemma TagIsOneLine()
    ensures OneLine("ev-approval-v1")
  {
  }

  lemma PayloadSplits(kind: string, kind': string, scope: string, scope': string, ref: string, ref': string,
                      fields: seq<Field>, fields': seq<Field>)
    requires OneLine(kind) && OneLine(kind') && OneLine(scope) && OneLine(scope') && OneLine(ref) && OneLine(ref')
    requires AllOneLine(Map(SortBy(fields, NameOf), FieldLine)) && AllOneLine(Map(SortBy(fields', NameOf), FieldLine))
    requires Payload(kind, scope, ref, fields) == Payload(kind', scope', ref', fields')
    ensures kind == kind' && scope == scope' && ref == ref'
    ensures Map(SortBy(fields, NameOf), FieldLine) == Map(SortBy(fields', NameOf), FieldLine)
  {
    TagIsOneLine();
    var tag := "ev-approval-v1";
    var header, header' := [tag, kind, scope, ref], [tag, kind', scope', ref'];
    LinesSplit(header, header', Map(SortBy(fields, NameOf), FieldLine), Map(SortBy(fields', NameOf), FieldLine));
    assert header[1] == header'[1] && header[2] == header'[2] && header[3] == header'[3];
  }

  lemma SameRefSameId(u: Uuid, v: Uuid)
    requires SubjectRef(u) == SubjectRef(v)
    ensures u == v
  {
    var prefix := "pending_operation:";
    assert UuidText(u) == (prefix + UuidText(u))[|prefix|..];
    assert UuidText(v) == (prefix + UuidText(v))[|prefix|..];
    UuidInjective(u, v);
  }

  lemma KindTextIsInjective(j: Kind, k: Kind)
    requires KindText(j) == KindText(k)
    ensures j == k
  {
    assert |KindText(ScopePayout)| == 17 && |KindText(AccountTransfer)| == 21 && |KindText(ScopeTransfer)| == 19;
  }

  lemma PayloadNamesWhatIsShown(j: Kind, k: Kind, scope: string, scope': string, u: Uuid, v: Uuid, s: Shown, t: Shown)
    requires OneLine(scope) && OneLine(scope') && PlainShown(s) && PlainShown(t)
    requires Payload(KindText(j), scope, SubjectRef(u), Fields(s)) == Payload(KindText(k), scope', SubjectRef(v), Fields(t))
    ensures j == k && scope == scope' && u == v && s == t
  {
    KindIsOneLine(j);
    KindIsOneLine(k);
    RefIsOneLine(u);
    RefIsOneLine(v);
    FieldLinesAreLines(s);
    FieldLinesAreLines(t);
    PayloadSplits(KindText(j), KindText(k), scope, scope', SubjectRef(u), SubjectRef(v), Fields(s), Fields(t));
    KindTextIsInjective(j, k);
    SameRefSameId(u, v);
    SameLinesSameShown(s, t);
  }

  // ----- the operation -----

  /** A digest as it is used here: text on one line, and no two inputs alike. */
  ghost predicate Collisionless(digest: string -> string) {
    (forall s :: OneLine(digest(s))) && (forall s, t :: digest(s) == digest(t) ==> s == t)
  }

  lemma ShownIsPlain(o: Operation, digest: string -> string)
    requires Request(o).Ok? && WellFormed(o) && Collisionless(digest)
    ensures PlainShown(Show(o, digest)) && OneLine(o.scope)
  {
    ScopedTextIsOneLine(o.scope, o.from);
    if o.body.Transfer? {
      ScopedTextIsOneLine(o.body.toScope, o.body.to);
    } else if |o.body.lines| == 1 {
      SubjectIsOneLine(o.body.lines, 0);
    }
  }

  /** What two approvals of the same payload agree on. */
  ghost predicate SameDecision(x: Operation, y: Operation) {
    && x.id == y.id && x.Kind() == y.Kind() && x.client == y.client && x.scope == y.scope && x.from == y.from
    && match (x.body, y.body)
       case (Payout(a, d, o), Payout(b, e, p)) =>
         multiset(RequestedLines(a)) == multiset(RequestedLines(b)) && d == e && o == p
       case (Transfer(s, t, m), Transfer(u, v, n)) => s == u && t == v && m == n
       case _ => false
  }

  lemma SameShownSameDecision(x: Operation, y: Operation, digest: string -> string)
    requires Request(x).Ok? && Request(y).Ok? && WellFormed(x) && WellFormed(y) && Collisionless(digest)
    requires Show(x, digest) == Show(y, digest) && x.id == y.id && x.Kind() == y.Kind()
    ensures SameDecision(x, y)
  {
    JoinedOnce(x.scope, x.from, y.scope, y.from);
    if x.body.Payout? {
      var a, b := RequestedLines(x.body.lines), RequestedLines(y.body.lines);
      assert digest(LinesDigestInput(a)) == digest(LinesDigestInput(b));
      DigestInputNamesTheSet(a, b);
    } else {
      JoinedOnce(x.body.toScope, x.body.to, y.body.toScope, y.body.to);
    }
  }

  /**
  What was approved is what executes: with a digest that does not collide, equal payloads are the same
  operation, kind, client, scope and source account, and the same set of lines and flags of a payout or
  the same destination and amount of a transfer.
   */
  lemma PayloadNamesTheOperation(x: Operation, y: Operation, digest: string -> string)
    requires Request(x).Ok? && Request(y).Ok? && WellFormed(x) && WellFormed(y) && Collisionless(digest)
    requires OperationPayload(x, digest) == OperationPayload(y, digest)
    ensures SameDecision(x, y)
  {
    ShownIsPlain(x, digest);
    ShownIsPlain(y, digest);
    PayloadNamesWhatIsShown(x.Kind(), y.Kind(), x.scope, y.scope, x.id, y.id, Show(x, digest), Show(y, digest));
    SameShownSameDecision(x, y, digest);
  }
}
