/**
What an approver reads (domain/src/scope_operations.rs): which operations may be asked for, that what is shown
of one is true of it, and that the payload, read line by line, says exactly that in its own words.
 */
module Showing {
  import opened Base
  import opened Money
  import opened Ledger
  import opened Text
  import opened Decimal
  import opened Sorting
  import Lines
  import opened Keys
  import opened Operations
  import opened Approvals

  // ----- which operations may be asked for -----

  function Paid(lines: seq<PayoutLine>): nat {
    if lines == [] then 0 else Paid(lines[..|lines| - 1]) + lines[|lines| - 1].amount
  }

  predicate IsTreasuryOrFee(name: Label) {
    name == "fee" || name == "treasury"
  }

  /** A payout pays one to a thousand users once each, each under a plain name of its own, and a total that fits. */
  ghost predicate PayoutMayBeAsked(lines: seq<PayoutLine>) {
    && 1 <= |lines| <= 1000 && Paid(lines) < TWO128
    && (forall i :: 0 <= i < |lines| ==>
          lines[i].amount > 0 && lines[i].subject != [] && |Utf8(lines[i].subject)| <= 255
          && forall c <- lines[i].subject :: !(c as int < 0x20) && !(0x7F <= c as int < 0xA0))
    && (forall i, j :: 0 <= i < j < |lines| ==> lines[i].subject != lines[j].subject && lines[i].user != lines[j].user)
  }

  ghost predicate MayBeAsked(o: Operation) {
    && o.scope != "main" && !IsTreasuryOrFee(o.from)
    && match o.body
       case Payout(lines, _, _) => PayoutMayBeAsked(lines)
       case Transfer(toScope, to, amount) =>
         amount > 0 && toScope != "main" && !IsTreasuryOrFee(to) && (toScope != o.scope || to != o.from)
  }

  /** An operation of another scope than `main` on an account of the platform's own. */
  predicate TakesFromThePlatform(o: Operation) {
    && o.scope != "main"
    && (IsTreasuryOrFee(o.from)
        || (o.body.Transfer? && o.body.amount > 0 && (o.body.toScope == "main" || IsTreasuryOrFee(o.body.to))))
  }

  lemma {:induction false} PaidIsTotal(lines: seq<PayoutLine>)
    ensures Lines.Total(RequestedLines(lines)) == Paid(lines)
  {
    if lines != [] {
      PaidIsTotal(lines[..|lines| - 1]);
    }
  }

  lemma LineAsked(lines: seq<PayoutLine>, i: nat)
    requires i < |lines|
    ensures RequestedLines(lines)[i] == Lines.Line(lines[i].subject, lines[i].amount)
    ensures Lines.Subjects(RequestedLines(lines))[i] == lines[i].subject
    ensures Lines.GoodLine(RequestedLines(lines)[i]) <==>
              && lines[i].amount > 0 && lines[i].subject != [] && |Utf8(lines[i].subject)| <= 255
              && forall c <- lines[i].subject :: !(c as int < 0x20) && !(0x7F <= c as int < 0xA0)
  {
    MapAt(lines, Requested, i);
    MapAt(RequestedLines(lines), Lines.SubjectOf, i);
    var subject := lines[i].subject;
    if forall c <- subject :: !(c as int < 0x20) && !(0x7F <= c as int < 0xA0) {
      assert forall k :: 0 <= k < |subject| ==> subject[k] in subject;
    }
  }

  lemma SubjectsRepeatIff(lines: seq<PayoutLine>)
    ensures Repeats(Lines.Subjects(RequestedLines(lines))) <==>
              exists i, j :: 0 <= i < j < |lines| && lines[i].subject == lines[j].subject
  {
    forall i | 0 <= i < |lines| ensures Lines.Subjects(RequestedLines(lines))[i] == lines[i].subject {
      LineAsked(lines, i);
    }
  }

  lemma PayoutAskedIff(lines: seq<PayoutLine>)
    ensures Lines.Acceptable(RequestedLines(lines)) && !UsersRepeat(lines) <==> PayoutMayBeAsked(lines)
  {
    PaidIsTotal(lines);
    SubjectsRepeatIff(lines);
    forall i | 0 <= i < |lines|
      ensures Lines.GoodLine(RequestedLines(lines)[i]) <==>
                && lines[i].amount > 0 && lines[i].subject != [] && |Utf8(lines[i].subject)| <= 255
                && forall c <- lines[i].subject :: !(c as int < 0x20) && !(0x7F <= c as int < 0xA0)
    {
      LineAsked(lines, i);
    }
  }

  /** An operation is taken exactly when it may be asked for, and its amount is what it moves in all. */
  lemma RequestAcceptedIff(o: Operation)
    ensures Request(o).Ok? <==> MayBeAsked(o)
    ensures Request(o).Ok? ==> Request(o).value == if o.body.Payout? then Paid(o.body.lines) else o.body.amount
    ensures Request(o).Err? ==> Request(o).error == if TakesFromThePlatform(o) then Forbidden else Validation
  {
    if o.body.Payout? {
      PayoutAskedIff(o.body.lines);
      PaidIsTotal(o.body.lines);
    }
  }

  // ----- what is shown is true -----

  lemma {:induction false} LargestIsLargest(lines: seq<PayoutLine>)
    ensures forall i :: 0 <= i < |lines| ==> lines[i].amount <= Largest(RequestedLines(lines))
    ensures lines != [] ==> exists i :: 0 <= i < |lines| && lines[i].amount == Largest(RequestedLines(lines))
  {
    if lines != [] {
      var n := |lines| - 1;
      LargestIsLargest(lines[..n]);
      LineAsked(lines, n);
      if n > 0 {
        var i :| 0 <= i < n && lines[..n][i].amount == Largest(RequestedLines(lines[..n]));
        assert lines[i].amount == Largest(RequestedLines(lines[..n]));
      }
      forall i | 0 <= i < |lines| ensures lines[i].amount <= Largest(RequestedLines(lines)) {
        if i < n {
          assert lines[..n][i] == lines[i];
        }
      }
    }
  }

  /** What the approvers are shown of an operation is true of it. */
  lemma WhatIsShownIsTrue(o: Operation, digest: string -> string)
    requires Request(o).Ok?
    ensures var s := Show(o, digest);
            && s.client == o.client && s.account == o.scope + ":" + o.from
            && match o.body
               case Transfer(toScope, to, amount) => s.ShownTransfer? && s.to == toScope + ":" + to && s.amount == amount
               case Payout(lines, distribution, overScopeBudget) =>
                 && s.ShownPayout? && s.total == Paid(lines) && s.recipients == |lines|
                 && (forall i :: 0 <= i < |lines| ==> lines[i].amount <= s.largest)
                 && (exists i :: 0 <= i < |lines| && lines[i].amount == s.largest)
                 && s.distribution == distribution && s.overScopeBudget == overScopeBudget
                 && s.recipient == (if |lines| == 1 then Some(lines[0].subject) else None)
                 && s.digest == digest(Lines.LinesDigestInput(RequestedLines(lines)))
  {
    RequestAcceptedIff(o);
    if o.body.Payout? {
      LargestIsLargest(o.body.lines);
    }
  }

  // ----- the payload, line by line -----

  /** A text cut at its newlines. */
  function LinesOf(s: string): seq<string>
    decreases |s|
  {
    match SplitOnce(s, '\n')
    case None => if s == [] then [] else [s]
    case Some((line, rest)) => SplitShortens(s); [line] + LinesOf(rest)
  }

  lemma SplitShortens(s: string)
    ensures SplitOnce(s, '\n').Some? ==> |SplitOnce(s, '\n').value.1| < |s|
  {
    SplitMeans(s, '\n');
  }

  lemma {:induction false} LinesReadBack(lines: seq<string>)
    requires AllOneLine(lines)
    ensures LinesOf(Terminated(lines)) == lines
    decreases |lines|
  {
    if lines != [] {
      SplitsAtTheFirst(lines[0], '\n', Terminated(lines[1..]));
      LinesReadBack(lines[1..]);
      assert lines == [lines[0]] + lines[1..];
    }
  }

  /** The name a field goes by. */
  function Word(k: Key): string {
    if k == Service then "service" else if k == FromAccount then "from_account" else if k == ToAccount then "to_account"
    else if k == Amount then "amount" else if k == TotalAmount then "total" else if k == Recipients then "recipients"
    else if k == Recipient then "recipient" else if k == MaxLine then "max_line" else if k == LinesDigest then "lines_digest"
    else if k == Distribution then "distribution" else "over_scope_budget"
  }

  /** The type of a value, and the value as it is written: an amount in decimal with its currency, a flag in words. */
  function Written(v: Value): (string, string) {
    if v.Words? then ("TEXT", v.words)
    else if v.Cash? then ("AMOUNT", ToDecimalString(v.cash) + " USDT")
    else if v.Flag? then ("FLAG", if v.raised then "true" else "false")
    else if v.Person? then ("USER", v.subject)
    else ("COUNT", NatText(v.count))
  }

  /** A field on its line: its name, the type of its value, and the value. */
  function RowOf(f: Field): string {
    Word(f.key) + ['\t'] + Written(f.value).0 + ['\t'] + Written(f.value).1
  }

  lemma WordIs(k: Key)
    ensures KeyText(k) == Word(k)
  {
  }

  lemma WrittenIs(v: Value)
    ensures (TypeName(v), Encoded(v)) == Written(v)
  {
  }

  lemma Grouped(a: string, b: string, c: string)
    ensures a + ['\t'] + (b + ['\t'] + c) == a + ['\t'] + b + ['\t'] + c
  {
  }

  lemma LineIsRow(f: Field)
    ensures FieldLine(f) == RowOf(f)
  {
    WordIs(f.key);
    WrittenIs(f.value);
    Grouped(KeyText(f.key), TypeName(f.value), Encoded(f.value));
  }

  lemma {:induction false} LinesAreRows(fields: seq<Field>)
    ensures Map(fields, FieldLine) == Map(fields, RowOf)
  {
    if fields != [] {
      LinesAreRows(fields[..|fields| - 1]);
      LineIsRow(fields[|fields| - 1]);
    }
  }

  /** Everything shown has its row, under its own name, and nothing else has one. */
  lemma RowsAreWhatIsShown(s: Shown, r: string)
    ensures r in Map(Fields(s), RowOf) <==> exists k: Key :: ValueOf(s, k).Some? && r == RowOf(Field(k, ValueOf(s, k).value))
  {
    var fields := Fields(s);
    if r in Map(fields, RowOf) {
      var i :| 0 <= i < |fields| && Map(fields, RowOf)[i] == r;
      MapAt(fields, RowOf, i);
      assert fields[i] in fields;
      FieldIsLookedUp(s, fields[i]);
      assert r == RowOf(Field(fields[i].key, ValueOf(s, fields[i].key).value));
    }
    if k: Key :| ValueOf(s, k).Some? && r == RowOf(Field(k, ValueOf(s, k).value)) {
      LookedUpIsField(s, k);
      var f := Field(k, ValueOf(s, k).value);
      var i :| 0 <= i < |fields| && fields[i] == f;
      MapAt(fields, RowOf, i);
      assert Map(fields, RowOf)[i] in Map(fields, RowOf);
    }
  }

  /** The kind an operation goes by. */
  function KindWord(o: Operation): string {
    if o.body.Payout? then "bank:scope_payout" else if o.body.toScope == o.scope then "bank:account_transfer" else "bank:scope_transfer"
  }

  /** The rows of what is shown of an operation, sorted by the names of the fields. */
  function SortedRows(o: Operation, digest: string -> string): seq<string>
    requires Request(o).Ok?
  {
    Map(SortBy(Fields(Show(o, digest)), NameOf), RowOf)
  }

  function Header(o: Operation): seq<string> {
    ["ev-approval-v1", KindWord(o), o.scope, "pending_operation:" + UuidText(o.id)]
  }

  lemma HeaderIs(o: Operation)
    ensures Header(o) == ["ev-approval-v1", KindText(o.Kind()), o.scope, SubjectRef(o.id)]
  {
  }

  /**
  The payload of an operation, read line by line: four lines that say what it is, and then exactly one row for
  everything shown, sorted by name.
   */
  lemma PayloadReads(o: Operation, digest: string -> string)
    requires Request(o).Ok? && WellFormed(o) && Collisionless(digest)
    ensures LinesOf(OperationPayload(o, digest)) == Header(o) + SortedRows(o, digest)
    ensures multiset(SortedRows(o, digest)) == multiset(Map(Fields(Show(o, digest)), RowOf))
    ensures Sorted(SortBy(Fields(Show(o, digest)), NameOf), NameOf)
  {
    var fields := Fields(Show(o, digest));
    var sorted := SortBy(fields, NameOf);
    ShownIsPlain(o, digest);
    FieldLinesAreLines(Show(o, digest));
    HeaderIs(o);
    HeaderIsLines(o);
    LinesAreRows(sorted);
    JoinedLines(Header(o), SortedRows(o, digest));
    LinesReadBack(Header(o) + SortedRows(o, digest));
    SortByIsSorted(fields, NameOf);
    SameElementsSameMap(sorted, fields, RowOf);
  }

  lemma HeaderIsLines(o: Operation)
    requires Lines.OneLine(o.scope)
    ensures AllOneLine(["ev-approval-v1", KindText(o.Kind()), o.scope, SubjectRef(o.id)])
  {
    TagIsOneLine();
    KindIsOneLine(o.Kind());
    RefIsOneLine(o.id);
  }
}
