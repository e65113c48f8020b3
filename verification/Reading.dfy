/**
Reading back what the owners sign (domain/src/lib.rs, payments.rs, consilium.rs, fees.rs): a reader that goes
through the bytes by a layout, prefix by prefix and field by field, finds in the bytes of every subject exactly
its terms, in their documented order.
 */
module Reading {
  import opened Base
  import opened Money
  import opened Ledger
  import opened Flows
  import opened Payments
  import opened Text
  import Fees
  import opened Encoding
  import Keys

  /** What comes next: a prefix spelled out, a field behind its length, or a number of so many bytes. */
  datatype Layout = Nothing | Prefix(text: string, next: Layout) | AField(next: Layout) | ANumber(width: nat, next: Layout)

  /** What was read: the contents of the fields and the numbers, in order. */
  datatype Found = End | Content(bytes: Bytes, next: Found) | Number(value: nat, next: Found)

  /** A number written with its most significant byte first. */
  function Worth(b: Bytes): nat {
    if b == [] then 0 else Worth(b[..|b| - 1]) * 256 + b[|b| - 1]
  }

  predicate Spells(b: Bytes, text: string) {
    |b| == |text| && forall i :: 0 <= i < |b| ==> b[i] == text[i] as int
  }

  function ReadBy(b: Bytes, layout: Layout): Option<Found>
    decreases layout
  {
    match layout
    case Nothing => if b == [] then Some(End) else None
    case Prefix(text, next) => if |text| <= |b| && Spells(b[..|text|], text) then ReadBy(b[|text|..], next) else None
    case AField(next) =>
      if |b| < 8 || |b| < 8 + Worth(b[..8]) then None
      else
        var more :- ReadBy(b[8 + Worth(b[..8])..], next);
        Some(Content(b[8..8 + Worth(b[..8])], more))
    case ANumber(width, next) =>
      if |b| < width then None
      else
        var more :- ReadBy(b[width..], next);
        Some(Number(Worth(b[..width]), more))
  }

  /** Characters that are one byte each. */
  predicate Plain(text: string) {
    forall i :: 0 <= i < |text| ==> text[i] as int < 128
  }

  function TermsPrefix(): (s: string)
    ensures Plain(s)
  {
    "banking.v1.PaymentTerms\0"
  }

  function PaymentPrefix(): (s: string)
    ensures Plain(s)
  {
    "banking.v1.PaymentSubject\0"
  }

  function ValuationPrefix(): (s: string)
    ensures Plain(s)
  {
    "banking.v1.ValuationOverrideTerms\0"
  }

  function GrantPrefix(): (s: string)
    ensures Plain(s)
  {
    "banking.v1.HolderGrantTerms\0"
  }

  function SeedPrefix(): (s: string)
    ensures Plain(s)
  {
    "banking.v1.SeedCapitalTerms\0"
  }

  function ChangePrefix(): (s: string)
    ensures Plain(s)
  {
    "banking.v1.FeePolicySubject\0"
  }

  // ----- one part at a time -----

  lemma {:induction false} WorthOfDigits(b: Bytes, d: seq<nat>)
    requires |b| == |d| && forall i :: 0 <= i < |d| ==> b[i] == d[i]
    ensures Worth(b) == FromDigits(d, 256)
    decreases |b|
  {
    if b != [] {
      WorthOfDigits(b[..|b| - 1], d[..|d| - 1]);
    }
  }

  lemma WorthOfNumber(n: nat, width: nat)
    requires n < Power(256, width)
    ensures Worth(BigEndian(n, width)) == n
  {
    WorthOfDigits(BigEndian(n, width), Digits(n, 256, width));
    DigitsRoundTrip(n, 256, width);
  }

  lemma ReadNumber(n: nat, width: nat, rest: Bytes, next: Layout)
    requires n < Power(256, width) && ReadBy(rest, next).Some?
    ensures ReadBy(BigEndian(n, width) + rest, ANumber(width, next)) == Some(Number(n, ReadBy(rest, next).value))
  {
    var b := BigEndian(n, width) + rest;
    assert b[..width] == BigEndian(n, width) && b[width..] == rest;
    WorthOfNumber(n, width);
  }

  lemma ReadField(content: Bytes, rest: Bytes, next: Layout)
    requires |content| < TWO64 && ReadBy(rest, next).Some?
    ensures ReadBy(Field(content) + rest, AField(next)) == Some(Content(content, ReadBy(rest, next).value))
  {
    var b := Field(content) + rest;
    ByteWidths();
    WorthOfNumber(|content|, 8);
    assert b[..8] == BigEndian(|content|, 8);
    assert b[8..8 + |content|] == content && b[8 + |content|..] == rest;
  }

  lemma ReadText(text: string, rest: Bytes, next: Layout)
    requires Fits(text) && ReadBy(rest, next).Some?
    ensures ReadBy(TextField(text) + rest, AField(next)) == Some(Content(Utf8(text), ReadBy(rest, next).value))
  {
    ReadField(Utf8(text), rest, next);
  }

  lemma ReadPrefix(text: string, rest: Bytes, next: Layout)
    requires Plain(text)
    ensures ReadBy(Raw(text) + rest, Prefix(text, next)) == ReadBy(rest, next)
  {
    var b := Raw(text) + rest;
    assert b[..|text|] == Raw(text) && b[|text|..] == rest;
  }

  lemma ReadLastText(text: string)
    requires Fits(text)
    ensures ReadBy(TextField(text), AField(Nothing)) == Some(Content(Utf8(text), End))
  {
    assert TextField(text) + [] == TextField(text);
    ReadText(text, [], Nothing);
  }

  lemma ReadLastNumber(n: nat, width: nat)
    requires n < Power(256, width)
    ensures ReadBy(BigEndian(n, width), ANumber(width, Nothing)) == Some(Number(n, End))
  {
    assert BigEndian(n, width) + [] == BigEndian(n, width);
    ReadNumber(n, width, [], Nothing);
  }

  lemma ReadUuidField(id: Uuid, rest: Bytes, next: Layout)
    requires ReadBy(rest, next).Some?
    ensures ReadBy(Field(BigEndian(id, 16)) + rest, AField(next)) == Some(Content(BigEndian(id, 16), ReadBy(rest, next).value))
    ensures Worth(BigEndian(id, 16)) == id
  {
    ByteWidths();
    ReadField(BigEndian(id, 16), rest, next);
    WorthOfNumber(id, 16);
  }

  // ----- the prefixes -----

  lemma ReadValuationPrefix(rest: Bytes, next: Layout)
    ensures ReadBy(ValuationBytes(rest), Prefix(ValuationPrefix(), next)) == ReadBy(rest, next)
  {
    ReadPrefix(ValuationPrefix(), rest, next);
  }

  lemma ReadGrantPrefix(rest: Bytes, next: Layout)
    ensures ReadBy(GrantBytes(rest), Prefix(GrantPrefix(), next)) == ReadBy(rest, next)
  {
    ReadPrefix(GrantPrefix(), rest, next);
  }

  lemma ReadSeedPrefix(rest: Bytes, next: Layout)
    ensures ReadBy(SeedBytes(rest), Prefix(SeedPrefix(), next)) == ReadBy(rest, next)
  {
    ReadPrefix(SeedPrefix(), rest, next);
  }

  lemma ReadTermsPrefix(t: Terms, reason: string, next: Layout)
    ensures ReadBy(TermsBytes(t, reason), Prefix(TermsPrefix(), next))
         == ReadBy(PartyBytes(t.from) + (DestinationBytes(t.to) + (BigEndian(t.amount, 16) + TextField(reason))), next)
  {
    ReadPrefix(TermsPrefix(), PartyBytes(t.from) + (DestinationBytes(t.to) + (BigEndian(t.amount, 16) + TextField(reason))), next);
  }

  lemma ReadPaymentPrefix(payment: Uuid, terms: Bytes, next: Layout)
    ensures ReadBy(SubjectBytes(payment, terms), Prefix(PaymentPrefix(), next)) == ReadBy(Field(BigEndian(payment, 16)) + terms, next)
  {
    ReadPrefix(PaymentPrefix(), Field(BigEndian(payment, 16)) + terms, next);
  }

  lemma ReadChangePrefix(change: Uuid, product: ServiceId, rest: Bytes, next: Layout)
    ensures ReadBy(ChangeBytes(change, product, rest), Prefix(ChangePrefix(), next))
         == ReadBy(Field(BigEndian(change, 16)) + (TextField(product) + rest), next)
  {
    ReadPrefix(ChangePrefix(), Field(BigEndian(change, 16)) + (TextField(product) + rest), next);
  }

  // ----- payment terms -----

  /** A party as two words: what it is, and which. */
  function PartyWords(p: Party): (string, string) {
    if p.UserParty? then ("user", UuidText(p.user)) else if p.ServiceParty? then ("service", p.service) else ("treasury", "main:treasury")
  }

  function TermsLayout(): Layout {
    Prefix(TermsPrefix(), AField(AField(AField(AField(AField(ANumber(16, AField(Nothing))))))))
  }

  lemma WordsFit(p: Party)
    requires PartyFits(p)
    ensures KindOf(p) == PartyWords(p).0 && IdOf(p) == PartyWords(p).1
    ensures Fits(KindOf(p)) && Fits(IdOf(p))
  {
    ShortFits(KindOf(p));
    if !p.ServiceParty? {
      ShortFits(IdOf(p));
    }
  }

  lemma ReadParty(p: Party, rest: Bytes, next: Layout)
    requires PartyFits(p) && ReadBy(rest, next).Some?
    ensures ReadBy(PartyBytes(p) + rest, AField(AField(next)))
         == Some(Content(Utf8(PartyWords(p).0), Content(Utf8(PartyWords(p).1), ReadBy(rest, next).value)))
  {
    WordsFit(p);
    Encoding.Regroup(TextField(KindOf(p)), TextField(IdOf(p)), rest);
    ReadText(IdOf(p), rest, next);
    ReadText(KindOf(p), TextField(IdOf(p)) + rest, AField(next));
  }

  lemma ReadInside(party: Party, rest: Bytes, next: Layout)
    requires PartyFits(party) && ReadBy(rest, next).Some?
    ensures ReadBy(TextField("internal") + PartyBytes(party) + rest, AField(AField(AField(next))))
         == Some(Content(Utf8("internal"), Content(Utf8(PartyWords(party).0), Content(Utf8(PartyWords(party).1), ReadBy(rest, next).value))))
  {
    ShortFits("internal");
    ReadParty(party, rest, next);
    Encoding.Regroup(TextField("internal"), PartyBytes(party), rest);
    ReadText("internal", PartyBytes(party) + rest, AField(AField(next)));
  }

  lemma ReadOutside(network: Network, text: string, rest: Bytes, next: Layout)
    requires Fits(text) && ReadBy(rest, next).Some?
    ensures ReadBy(TextField("external") + (TextField(Keys.NetworkText(network)) + TextField(text)) + rest, AField(AField(AField(next))))
         == Some(Content(Utf8("external"), Content(Utf8(NetworkWord(network)), Content(Utf8(text), ReadBy(rest, next).value))))
  {
    ShortFits("external");
    var tail := TextField(text) + rest;
    ReadText(text, rest, next);
    ReadNetwork(network, tail, AField(next));
    ReadText("external", TextField(Keys.NetworkText(network)) + tail, AField(AField(next)));
    Encoding.Regroup(TextField("external"), TextField(Keys.NetworkText(network)) + TextField(text), rest);
    Encoding.Regroup(TextField(Keys.NetworkText(network)), TextField(text), rest);
  }

  lemma ReadDestination(d: Destination, rest: Bytes, next: Layout)
    requires DestinationFits(d) && ReadBy(rest, next).Some?
    ensures ReadBy(DestinationBytes(d) + rest, AField(AField(AField(next)))) == Some(DestinationFound(d, ReadBy(rest, next).value))
  {
    match d
    case Inside(party) => ReadInside(party, rest, next);
    case Outside(network, address) => ReadOutside(network, address.text, rest, next);
  }

  function DestinationFound(d: Destination, next: Found): Found {
    match d
    case Inside(party) => Content(Utf8("internal"), Content(Utf8(PartyWords(party).0), Content(Utf8(PartyWords(party).1), next)))
    case Outside(network, address) => Content(Utf8("external"), Content(Utf8(NetworkWord(network)), Content(Utf8(address.text), next)))
  }

  /** Payment terms as read: the payer, the destination, the amount, and the reason. */
  function TermsFound(t: Terms, reason: string): Found {
    Content(Utf8(PartyWords(t.from).0), Content(Utf8(PartyWords(t.from).1),
      DestinationFound(t.to, Number(t.amount, Content(Utf8(reason), End)))))
  }

  lemma TermsRead(t: Terms, reason: string)
    requires PartyFits(t.from) && DestinationFits(t.to) && Fits(reason)
    ensures ReadBy(TermsBytes(t, reason), TermsLayout()) == Some(TermsFound(t, reason))
  {
    var amount := BigEndian(t.amount, 16) + TextField(reason);
    ByteWidths();
    ReadLastText(reason);
    ReadNumber(t.amount, 16, TextField(reason), AField(Nothing));
    ReadDestination(t.to, amount, ANumber(16, AField(Nothing)));
    ReadParty(t.from, DestinationBytes(t.to) + amount, AField(AField(AField(ANumber(16, AField(Nothing))))));
    ReadTermsPrefix(t, reason, AField(AField(AField(AField(AField(ANumber(16, AField(Nothing))))))));
  }

  // ----- the five subjects -----

  /** The bytes of a payment: its id, and then its terms. */
  lemma PaymentReads(payment: Uuid, t: Terms, reason: string)
    requires Writable(PaymentSubject(payment, t, reason))
    ensures ReadBy(Canonical(PaymentSubject(payment, t, reason)), Prefix(PaymentPrefix(), AField(TermsLayout())))
         == Some(Content(BigEndian(payment, 16), TermsFound(t, reason)))
    ensures Worth(BigEndian(payment, 16)) == payment
  {
    TermsRead(t, reason);
    ReadUuidField(payment, TermsBytes(t, reason), TermsLayout());
    ReadPaymentPrefix(payment, TermsBytes(t, reason), AField(TermsLayout()));
  }

  /** Of a valuation override: the product, and its assets. */
  lemma ValuationReads(service: ServiceId, aum: u128)
    requires Fits(service)
    ensures ReadBy(Canonical(ValuationOverride(service, aum)),
                   Prefix(ValuationPrefix(), AField(ANumber(16, Nothing))))
         == Some(Content(Utf8(service), Number(aum, End)))
  {
    ByteWidths();
    ReadLastNumber(aum, 16);
    ReadText(service, BigEndian(aum, 16), ANumber(16, Nothing));
    ReadValuationPrefix(TextField(service) + BigEndian(aum, 16), AField(ANumber(16, Nothing)));
  }

  lemma ReadGrantHead(allocation: ServiceId, rest: Bytes, next: Layout)
    requires Fits(allocation) && ReadBy(rest, next).Some?
    ensures ReadBy(GrantBytes(TextField(allocation) + rest), Prefix(GrantPrefix(), AField(next)))
         == Some(Content(Utf8(allocation), ReadBy(rest, next).value))
  {
    ReadText(allocation, rest, next);
    ReadGrantPrefix(TextField(allocation) + rest, AField(next));
  }

  lemma ReadOwner(user: UserId, amount: u128)
    ensures ReadBy(TextField(UuidText(user)) + BigEndian(amount, 16), AField(ANumber(16, Nothing)))
         == Some(Content(Utf8(UuidText(user)), Number(amount, End)))
  {
    ByteWidths();
    ShortFits(UuidText(user));
    ReadLastNumber(amount, 16);
    ReadText(UuidText(user), BigEndian(amount, 16), ANumber(16, Nothing));
  }

  lemma ReadNetwork(network: Network, rest: Bytes, next: Layout)
    requires ReadBy(rest, next).Some?
    ensures ReadBy(TextField(Keys.NetworkText(network)) + rest, AField(next))
         == Some(Content(Utf8(NetworkWord(network)), ReadBy(rest, next).value))
  {
    assert Keys.NetworkText(network) == NetworkWord(network);
    ShortFits(NetworkWord(network));
    ReadText(NetworkWord(network), rest, next);
  }

  function OwnedBytes(user: UserId, amount: u128): Bytes {
    TextField(UuidText(user)) + BigEndian(amount, 16)
  }

  function OwnedLayout(): Layout {
    AField(ANumber(16, Nothing))
  }

  lemma ReadOwned(user: UserId, amount: u128)
    ensures ReadBy(OwnedBytes(user, amount), OwnedLayout()) == Some(Content(Utf8(UuidText(user)), Number(amount, End)))
  {
    ReadOwner(user, amount);
  }

  lemma GrantParts(allocation: ServiceId, user: UserId, units: u128)
    requires Fits(allocation)
    ensures Canonical(HolderGrant(allocation, user, units)) == GrantBytes(TextField(allocation) + OwnedBytes(user, units))
  {
  }

  /** Of a grant to a holder: the allocation, the user, and the units. */
  lemma GrantReads(allocation: ServiceId, user: UserId, units: u128)
    requires Fits(allocation)
    ensures ReadBy(Canonical(HolderGrant(allocation, user, units)), Prefix(GrantPrefix(), AField(OwnedLayout())))
         == Some(Content(Utf8(allocation), Content(Utf8(UuidText(user)), Number(units, End))))
  {
    ReadOwned(user, units);
    GrantParts(allocation, user, units);
    ReadGrantHead(allocation, OwnedBytes(user, units), OwnedLayout());
  }

  function NetworkWord(n: Network): string {
    if n == Bep20 then "bep20" else if n == Trc20 then "trc20" else if n == Ton then "ton" else "polygon"
  }

  lemma ReadSeedHead(txRef: string, rest: Bytes, next: Layout)
    requires Fits(txRef) && ReadBy(rest, next).Some?
    ensures ReadBy(SeedBytes(TextField(txRef) + rest), Prefix(SeedPrefix(), AField(next)))
         == Some(Content(Utf8(txRef), ReadBy(rest, next).value))
  {
    ReadText(txRef, rest, next);
    ReadSeedPrefix(TextField(txRef) + rest, AField(next));
  }

  function DepositBytes(network: Network, amount: u128, depositor: UserId): Bytes {
    TextField(Keys.NetworkText(network)) + (TextField(UuidText(depositor)) + BigEndian(amount, 16))
  }

  function DepositLayout(): Layout {
    AField(AField(ANumber(16, Nothing)))
  }

  lemma ReadDeposit(network: Network, amount: u128, depositor: UserId)
    ensures ReadBy(DepositBytes(network, amount, depositor), DepositLayout())
         == Some(Content(Utf8(NetworkWord(network)), Content(Utf8(UuidText(depositor)), Number(amount, End))))
  {
    ReadOwner(depositor, amount);
    ReadNetwork(network, TextField(UuidText(depositor)) + BigEndian(amount, 16), AField(ANumber(16, Nothing)));
  }

  lemma SeedParts(txRef: string, network: Network, amount: u128, depositor: UserId)
    requires Fits(txRef)
    ensures Canonical(SeedCapital(txRef, network, amount, depositor)) == SeedBytes(TextField(txRef) + DepositBytes(network, amount, depositor))
  {
  }

  /** Of seed capital: the transaction, the network, the depositor, and the amount. */
  lemma SeedReads(txRef: string, network: Network, amount: u128, depositor: UserId)
    requires Fits(txRef)
    ensures ReadBy(Canonical(SeedCapital(txRef, network, amount, depositor)), Prefix(SeedPrefix(), AField(DepositLayout())))
         == Some(Content(Utf8(txRef), Content(Utf8(NetworkWord(network)), Content(Utf8(UuidText(depositor)), Number(amount, End)))))
  {
    ReadDeposit(network, amount, depositor);
    SeedParts(txRef, network, amount, depositor);
    ReadSeedHead(txRef, DepositBytes(network, amount, depositor), DepositLayout());
  }

  // ----- fee policies -----

  function PolicyLayout(present: bool, next: Layout): Layout {
    if present then ANumber(1, ANumber(4, ANumber(4, ANumber(4, AField(AField(next)))))) else ANumber(1, next)
  }

  function BasisWord(b: Fees.Basis): string {
    if b == Fees.InvestedCapital then "invested_capital" else "market_value"
  }

  function PeriodWord(c: Fees.Crystallization): string {
    if c == Fees.Monthly then "monthly" else if c == Fees.Quarterly then "quarterly"
    else if c == Fees.SemiAnnual then "semi_annual" else "annual"
  }

  /** A policy as read: whether there is one, and then its three rates, its basis and its period. */
  function PolicyFound(p: Option<Fees.FeePolicy>, next: Found): Found {
    match p
    case None => Number(0, next)
    case Some(t) =>
      Number(1, Number(t.managementBps, Number(t.performanceBps, Number(t.hurdleBps,
        Content(Utf8(BasisWord(t.basis)), Content(Utf8(PeriodWord(t.crystallization)), next))))))
  }

  lemma OneByte(n: Byte)
    ensures BigEndian(n, 1) == [n] && n < Power(256, 1)
  {
    assert Power(256, 1) == 256 * Power(256, 0);
    assert Digits(n, 256, 1) == Digits(Quotient(n, 256), 256, 0) + [Remainder(n, 256)];
  }

  lemma NamesAreWords(basis: Fees.Basis, period: Fees.Crystallization)
    ensures BasisName(basis) == BasisWord(basis) && PeriodName(period) == PeriodWord(period)
    ensures |BasisWord(basis)| <= 64 && |PeriodWord(period)| <= 64
  {
  }

  lemma ReadTwo(a: string, b: string, rest: Bytes, next: Layout)
    requires |a| <= 64 && |b| <= 64 && ReadBy(rest, next).Some?
    ensures ReadBy(TextField(a) + (TextField(b) + rest), AField(AField(next)))
         == Some(Content(Utf8(a), Content(Utf8(b), ReadBy(rest, next).value)))
  {
    ShortFits(a);
    ShortFits(b);
    ReadText(b, rest, next);
    ReadText(a, TextField(b) + rest, AField(next));
  }

  lemma ReadWords(basis: Fees.Basis, period: Fees.Crystallization, rest: Bytes, next: Layout)
    requires ReadBy(rest, next).Some?
    ensures ReadBy(TextField(BasisName(basis)) + (TextField(PeriodName(period)) + rest), AField(AField(next)))
         == Some(Content(Utf8(BasisWord(basis)), Content(Utf8(PeriodWord(period)), ReadBy(rest, next).value)))
  {
    NamesAreWords(basis, period);
    ReadTwo(BasisWord(basis), PeriodWord(period), rest, next);
  }

  lemma ReadRates(a: nat, b: nat, c: nat, rest: Bytes, next: Layout)
    requires a <= 10_000 && b <= 10_000 && c <= 10_000 && ReadBy(rest, next).Some?
    ensures ReadBy(BigEndian(a, 4) + (BigEndian(b, 4) + (BigEndian(c, 4) + rest)), ANumber(4, ANumber(4, ANumber(4, next))))
         == Some(Number(a, Number(b, Number(c, ReadBy(rest, next).value))))
  {
    ByteWidths();
    ReadNumber(c, 4, rest, next);
    ReadNumber(b, 4, BigEndian(c, 4) + rest, ANumber(4, next));
    ReadNumber(a, 4, BigEndian(b, 4) + (BigEndian(c, 4) + rest), ANumber(4, ANumber(4, next)));
  }

  lemma PolicyTail(a: Bytes, b: Bytes, c: Bytes, d: Bytes, e: Bytes, f: Bytes, rest: Bytes)
    ensures (a + (b + (c + (d + (e + f))))) + rest == a + (b + (c + (d + (e + (f + rest)))))
  {
  }

  lemma ReadPolicy(p: Option<Fees.FeePolicy>, rest: Bytes, next: Layout)
    requires (p.Some? ==> p.value.Stored()) && ReadBy(rest, next).Some?
    ensures ReadBy(PolicyBytes(p) + rest, PolicyLayout(p.Some?, next)) == Some(PolicyFound(p, ReadBy(rest, next).value))
  {
    match p
    case None =>
      OneByte(0);
      ReadNumber(0, 1, rest, next);
    case Some(t) =>
      var words := TextField(BasisName(t.basis)) + (TextField(PeriodName(t.crystallization)) + rest);
      var rates := BigEndian(t.managementBps, 4) + (BigEndian(t.performanceBps, 4) + (BigEndian(t.hurdleBps, 4) + words));
      OneByte(1);
      ReadWords(t.basis, t.crystallization, rest, next);
      ReadRates(t.managementBps, t.performanceBps, t.hurdleBps, words, AField(AField(next)));
      ReadNumber(1, 1, rates, ANumber(4, ANumber(4, ANumber(4, AField(AField(next))))));
      PolicyTail([1], BigEndian(t.managementBps, 4), BigEndian(t.performanceBps, 4), BigEndian(t.hurdleBps, 4),
                 TextField(BasisName(t.basis)), TextField(PeriodName(t.crystallization)), rest);
  }

  /** Of a change of terms: its id, the product, the terms before and after, why, and from when. */
  lemma FeePolicyReads(change: Uuid, product: ServiceId, before: Option<Fees.FeePolicy>, after: Fees.FeePolicy, why: string, from: int)
    requires Writable(FeePolicySubject(change, product, before, after, why, from))
    ensures ReadBy(Canonical(FeePolicySubject(change, product, before, after, why, from)),
                   Prefix(ChangePrefix(),
                          AField(AField(PolicyLayout(before.Some?, PolicyLayout(true, AField(ANumber(8, Nothing))))))))
         == Some(Content(BigEndian(change, 16), Content(Utf8(product), PolicyFound(before, PolicyFound(Some(after),
                   Content(Utf8(why), Number(if from < 0 then from + 0x1_0000_0000_0000_0000 else from, End)))))))
    ensures Worth(BigEndian(change, 16)) == change
  {
    var last := ANumber(8, Nothing);
    var time := BigEndian(Bits64(from), 8);
    ByteWidths();
    ReadLastNumber(Bits64(from), 8);
    ReadText(why, time, last);
    ReadPolicy(Some(after), TextField(why) + time, AField(last));
    ReadPolicy(before, PolicyBytes(Some(after)) + (TextField(why) + time), PolicyLayout(true, AField(last)));
    ReadHead(change, product, TermsChange(before, after, why, from), PolicyLayout(before.Some?, PolicyLayout(true, AField(last))));
  }

  lemma ReadHead(change: Uuid, product: ServiceId, rest: Bytes, next: Layout)
    requires Fits(product) && ReadBy(rest, next).Some?
    ensures ReadBy(ChangeBytes(change, product, rest), Prefix(ChangePrefix(), AField(AField(next))))
         == Some(Content(BigEndian(change, 16), Content(Utf8(product), ReadBy(rest, next).value)))
    ensures Worth(BigEndian(change, 16)) == change
  {
    ReadText(product, rest, next);
    ReadUuidField(change, TextField(product) + rest, AField(next));
    ReadChangePrefix(change, product, rest, AField(AField(next)));
  }
}
