/**
The bytes the owners sign: the length-prefix rule of domain/src/lib.rs, and the canonical encodings of
payment terms and of the five subjects a consilium decides (domain/src/payments.rs, consilium.rs,
fees.rs). No two subjects, of one kind or of two, share their bytes.
 */
module Encoding {
  import opened Base
  import opened Money
  import opened Ledger
  import opened Flows
  import opened Payments
  import opened Text
  import Fees
  import opened Keys

  // ----- the rule -----

  /** A length as a 64-bit number. */
  function Length64(n: nat): (r: nat)
    ensures r < TWO64
    ensures n < TWO64 ==> r == n
  {
    n % TWO64
  }

  /** One length-prefixed field. */
  function Field(b: Bytes): Bytes {
    BigEndian(Length64(|b|), 8) + b
  }

  function TextField(s: string): Bytes {
    Field(Utf8(s))
  }

  /** Bytes spelled as characters below 256. */
  function Raw(s: string): (b: Bytes)
    ensures |b| == |s|
  {
    seq(|s|, i requires 0 <= i < |s| => s[i] as int % 256)
  }

  /** What an allocation may hold: the length of a field is a 64-bit number. */
  predicate Fits(s: string) {
    |Utf8(s)| < TWO64
  }

  lemma Regroup(a: Bytes, b: Bytes, c: Bytes)
    ensures (a + b) + c == a + (b + c)
  {
  }

  lemma Number64Is(m: nat, n: nat)
    requires m < TWO64 && n < TWO64 && BigEndian(m, 8) == BigEndian(n, 8)
    ensures m == n
  {
    ByteWidths();
    BigEndianInjective(m, n, 8);
  }

  /** A field ends where its length says: what follows it cannot be mistaken for it. */
  lemma FieldIsDelimited(x: Bytes, y: Bytes, xRest: Bytes, yRest: Bytes)
    requires |x| < TWO64 && |y| < TWO64
    requires Field(x) + xRest == Field(y) + yRest
    ensures x == y && xRest == yRest
  {
    FieldIs(x);
    FieldIs(y);
    Regrouped(BigEndian(|x|, 8), x, xRest, BigEndian(|y|, 8), y, yRest);
    Number64Is(|x|, |y|);
    SamePrefix(x, y, xRest, yRest);
  }

  lemma FieldIs(x: Bytes)
    requires |x| < TWO64
    ensures Field(x) == BigEndian(|x|, 8) + x
  {
  }

  lemma Regrouped(a: Bytes, x: Bytes, xRest: Bytes, b: Bytes, y: Bytes, yRest: Bytes)
    requires |a| == |b| && (a + x) + xRest == (b + y) + yRest
    ensures a == b && x + xRest == y + yRest
  {
    Regroup(a, x, xRest);
    Regroup(b, y, yRest);
    SamePrefix(a, b, x + xRest, y + yRest);
  }

  lemma TextIsDelimited(s: string, t: string, sRest: Bytes, tRest: Bytes)
    requires Fits(s) && Fits(t)
    requires TextField(s) + sRest == TextField(t) + tRest
    ensures s == t && sRest == tRest
  {
    FieldIsDelimited(Utf8(s), Utf8(t), sRest, tRest);
    Utf8Injective(s, t);
  }

  lemma NumberIsDelimited(m: nat, n: nat, width: nat, mRest: Bytes, nRest: Bytes)
    requires m < Power(256, width) && n < Power(256, width)
    requires BigEndian(m, width) + mRest == BigEndian(n, width) + nRest
    ensures m == n && mRest == nRest
  {
    SamePrefix(BigEndian(m, width), BigEndian(n, width), mRest, nRest);
    BigEndianInjective(m, n, width);
  }

  // ----- the parts -----

  function KindOf(p: Party): string {
    match p
    case UserParty(_) => "user"
    case ServiceParty(_) => "service"
    case Treasury => "treasury"
  }

  function IdOf(p: Party): string {
    match p
    case UserParty(user) => UuidText(user)
    case ServiceParty(service) => service
    case Treasury => "main:treasury"
  }

  function BasisName(b: Fees.Basis): string {
    match b
    case InvestedCapital => "invested_capital"
    case MarketValue => "market_value"
  }

  function PeriodName(c: Fees.Crystallization): string {
    match c
    case Monthly => "monthly"
    case Quarterly => "quarterly"
    case SemiAnnual => "semi_annual"
    case Annual => "annual"
  }

  function PartyBytes(p: Party): Bytes {
    TextField(KindOf(p)) + TextField(IdOf(p))
  }

  function DestinationBytes(d: Destination): Bytes {
    match d
    case Inside(party) => TextField("internal") + PartyBytes(party)
    case Outside(network, address) => TextField("external") + (TextField(NetworkText(network)) + TextField(address.text))
  }

  function TermsBytes(t: Terms, reason: string): Bytes {
    Raw("banking.v1.PaymentTerms\0") + (PartyBytes(t.from) + (DestinationBytes(t.to) + (BigEndian(t.amount, 16) + TextField(reason))))
  }

  function PolicyBytes(p: Option<Fees.FeePolicy>): Bytes {
    match p
    case None => [0]
    case Some(t) =>
      [1] + (BigEndian(t.managementBps, 4) + (BigEndian(t.performanceBps, 4) + (BigEndian(t.hurdleBps, 4)
      + (TextField(BasisName(t.basis)) + TextField(PeriodName(t.crystallization))))))
  }

  /** A signed 64-bit number as the unsigned one with the same bits. */
  function Bits64(x: int): nat
    requires -0x8000_0000_0000_0000 <= x < 0x8000_0000_0000_0000
  {
    if x < 0 then x + TWO64 else x
  }

  // ----- the subjects -----

  datatype Subject =
    | PaymentSubject(payment: Uuid, terms: Terms, reason: string)
    | ValuationOverride(service: ServiceId, aum: u128)
    | FeePolicySubject(change: Uuid, product: ServiceId, before: Option<Fees.FeePolicy>, after: Fees.FeePolicy, why: string,
                       effectiveFrom: int)
    | HolderGrant(allocation: ServiceId, user: UserId, units: u128)
    | SeedCapital(txRef: string, network: Network, amount: u128, depositor: UserId)

  predicate PartyFits(p: Party) {
    p.ServiceParty? ==> Fits(p.service)
  }

  predicate DestinationFits(d: Destination) {
    match d
    case Inside(party) => PartyFits(party)
    case Outside(network, address) => Fits(address.text) && address.network == network
  }

  /** The fields hold what their types hold, and an external address is for the network named. */
  predicate Writable(s: Subject) {
    match s
    case PaymentSubject(_, terms, reason) => PartyFits(terms.from) && DestinationFits(terms.to) && Fits(reason)
    case ValuationOverride(service, _) => Fits(service)
    case FeePolicySubject(_, product, before, after, why, effectiveFrom) =>
      && Fits(product) && (before.Some? ==> before.value.Stored()) && after.Stored() && Fits(why)
      && -0x8000_0000_0000_0000 <= effectiveFrom < 0x8000_0000_0000_0000
    case HolderGrant(allocation, _, _) => Fits(allocation)
    case SeedCapital(txRef, _, _, _) => Fits(txRef)
  }

  /** A payment's subject: the order's id, and the bytes of its terms. */
  function SubjectBytes(payment: Uuid, terms: Bytes): Bytes {
    Raw("banking.v1.PaymentSubject\0") + (Field(BigEndian(payment, 16)) + terms)
  }

  /** What follows the product in a change of terms. */
  function TermsChange(before: Option<Fees.FeePolicy>, after: Fees.FeePolicy, why: string, effectiveFrom: int): Bytes
    requires -0x8000_0000_0000_0000 <= effectiveFrom < 0x8000_0000_0000_0000
  {
    PolicyBytes(before) + (PolicyBytes(Some(after)) + (TextField(why) + BigEndian(Bits64(effectiveFrom), 8)))
  }

  function ChangeBytes(change: Uuid, product: string, rest: Bytes): Bytes {
    Raw("banking.v1.FeePolicySubject\0") + (Field(BigEndian(change, 16)) + (TextField(product) + rest))
  }

  function ValuationBytes(rest: Bytes): Bytes {
    Raw("banking.v1.ValuationOverrideTerms\0") + rest
  }

  function GrantBytes(rest: Bytes): Bytes {
    Raw("banking.v1.HolderGrantTerms\0") + rest
  }

  function SeedBytes(rest: Bytes): Bytes {
    Raw("banking.v1.SeedCapitalTerms\0") + rest
  }

  function Canonical(s: Subject): Bytes
    requires Writable(s)
  {
    match s
    case PaymentSubject(payment, terms, reason) => SubjectBytes(payment, TermsBytes(terms, reason))
    case ValuationOverride(service, aum) => ValuationBytes(TextField(service) + BigEndian(aum, 16))
    case FeePolicySubject(change, product, before, after, why, effectiveFrom) =>
      ChangeBytes(change, product, TermsChange(before, after, why, effectiveFrom))
    case HolderGrant(allocation, user, units) =>
      GrantBytes(TextField(allocation) + (TextField(UuidText(user)) + BigEndian(units, 16)))
    case SeedCapital(txRef, network, amount, depositor) =>
      SeedBytes(TextField(txRef) + (TextField(NetworkText(network)) + (TextField(UuidText(depositor)) + BigEndian(amount, 16))))
  }

  // ----- how the bytes are built -----

  class Buffer {
    var bytes: Bytes

    constructor ()
      ensures bytes == []
    {
      bytes := [];
    }

    method Extend(more: Bytes)
      modifies this
      ensures bytes == old(bytes) + more
    {
      bytes := bytes + more;
    }

    method PushField(field: Bytes)
      modifies this
      ensures bytes == old(bytes) + Field(field)
    {
      Extend(BigEndian(Length64(|field|), 8));
      Extend(field);
    }
  }

  method PushParty(out: Buffer, p: Party)
    modifies out
    ensures out.bytes == old(out.bytes) + PartyBytes(p)
  {
    out.PushField(Utf8(KindOf(p)));
    out.PushField(Utf8(IdOf(p)));
    Regroup(old(out.bytes), TextField(KindOf(p)), TextField(IdOf(p)));
  }

  method PushDestination(out: Buffer, d: Destination)
    modifies out
    ensures out.bytes == old(out.bytes) + DestinationBytes(d)
  {
    match d
    case Inside(party) =>
      out.PushField(Utf8("internal"));
      PushParty(out, party);
      Regroup(old(out.bytes), TextField("internal"), PartyBytes(party));
    case Outside(network, address) =>
      out.PushField(Utf8("external"));
      out.PushField(Utf8(NetworkText(network)));
      out.PushField(Utf8(address.text));
      Regroup(old(out.bytes) + TextField("external"), TextField(NetworkText(network)), TextField(address.text));
      Regroup(old(out.bytes), TextField("external"), TextField(NetworkText(network)) + TextField(address.text));
  }

  lemma Built3(a: Bytes, b: Bytes, c: Bytes)
    ensures [] + a + b + c == a + (b + c)
  {
  }

  lemma Built5(a: Bytes, b: Bytes, c: Bytes, d: Bytes, e: Bytes)
    ensures [] + a + b + c + d + e == a + (b + (c + (d + e)))
  {
    Regroup(a + b + c, d, e);
    Regroup(a + b, c, d + e);
    Regroup(a, b, c + (d + e));
    assert [] + a == a;
  }

  lemma Built6(s: Bytes, a: Bytes, b: Bytes, c: Bytes, d: Bytes, e: Bytes, f: Bytes)
    ensures s + a + b + c + d + e + f == s + (a + (b + (c + (d + (e + f)))))
  {
    Regroup(s + a + b + c + d, e, f);
    Regroup(s + a + b + c, d, e + f);
    Regroup(s + a + b, c, d + (e + f));
    Regroup(s + a, b, c + (d + (e + f)));
    Regroup(s, a, b + (c + (d + (e + f))));
  }

  method PaymentTermsBytes(t: Terms, reason: string) returns (bytes: Bytes)
    ensures bytes == TermsBytes(t, reason)
  {
    var out := new Buffer();
    out.Extend(Raw("banking.v1.PaymentTerms\0"));
    PushParty(out, t.from);
    PushDestination(out, t.to);
    out.Extend(BigEndian(t.amount, 16));
    out.PushField(Utf8(reason));
    bytes := out.bytes;
    Built5(Raw("banking.v1.PaymentTerms\0"), PartyBytes(t.from), DestinationBytes(t.to), BigEndian(t.amount, 16), TextField(reason));
  }

  method PaymentSubjectBytes(payment: Uuid, t: Terms, reason: string) returns (bytes: Bytes)
    requires Writable(PaymentSubject(payment, t, reason))
    ensures bytes == Canonical(PaymentSubject(payment, t, reason))
  {
    var out := new Buffer();
    out.Extend(Raw("banking.v1.PaymentSubject\0"));
    out.PushField(BigEndian(payment, 16));
    var terms := PaymentTermsBytes(t, reason);
    out.Extend(terms);
    bytes := out.bytes;
    Built3(Raw("banking.v1.PaymentSubject\0"), Field(BigEndian(payment, 16)), TermsBytes(t, reason));
  }

  method ValuationOverrideBytes(service: ServiceId, aum: u128) returns (bytes: Bytes)
    requires Fits(service)
    ensures bytes == Canonical(ValuationOverride(service, aum))
  {
    var out := new Buffer();
    out.Extend(Raw("banking.v1.ValuationOverrideTerms\0"));
    out.PushField(Utf8(service));
    out.Extend(BigEndian(aum, 16));
    bytes := out.bytes;
    Built3(Raw("banking.v1.ValuationOverrideTerms\0"), TextField(service), BigEndian(aum, 16));
  }

  method PushPolicy(out: Buffer, policy: Option<Fees.FeePolicy>)
    modifies out
    ensures out.bytes == old(out.bytes) + PolicyBytes(policy)
  {
    match policy
    case None => out.Extend([0]);
    case Some(t) =>
      out.Extend([1]);
      out.Extend(BigEndian(t.managementBps, 4));
      out.Extend(BigEndian(t.performanceBps, 4));
      out.Extend(BigEndian(t.hurdleBps, 4));
      out.PushField(Utf8(BasisName(t.basis)));
      out.PushField(Utf8(PeriodName(t.crystallization)));
      Built6(old(out.bytes), [1], BigEndian(t.managementBps, 4), BigEndian(t.performanceBps, 4), BigEndian(t.hurdleBps, 4),
             TextField(BasisName(t.basis)), TextField(PeriodName(t.crystallization)));
  }

  method FeePolicySubjectBytes(s: Subject) returns (bytes: Bytes)
    requires s.FeePolicySubject? && Writable(s)
    ensures bytes == Canonical(s)
  {
    var out := new Buffer();
    out.Extend(Raw("banking.v1.FeePolicySubject\0"));
    out.PushField(BigEndian(s.change, 16));
    out.PushField(Utf8(s.product));
    PushPolicies(out, s.before, s.after);
    out.PushField(Utf8(s.why));
    out.Extend(BigEndian(Bits64(s.effectiveFrom), 8));
    bytes := out.bytes;
    Built7(Raw("banking.v1.FeePolicySubject\0"), Field(BigEndian(s.change, 16)), TextField(s.product), PolicyBytes(s.before),
           PolicyBytes(Some(s.after)), TextField(s.why), BigEndian(Bits64(s.effectiveFrom), 8));
  }

  lemma Built7(a: Bytes, b: Bytes, c: Bytes, d: Bytes, e: Bytes, f: Bytes, g: Bytes)
    ensures [] + a + b + c + (d + e) + f + g == a + (b + (c + (d + (e + (f + g)))))
  {
    assert [] + a == a;
    Regroup(a + b + c + (d + e), f, g);
    Regroup(a + b + c, d + e, f + g);
    Regroup(d, e, f + g);
    Regroup(a + b, c, d + (e + (f + g)));
    Regroup(a, b, c + (d + (e + (f + g))));
  }

  /** Both policies in turn, the one being left and the one proposed. */
  method PushPolicies(out: Buffer, before: Option<Fees.FeePolicy>, after: Fees.FeePolicy)
    modifies out
    ensures out.bytes == old(out.bytes) + (PolicyBytes(before) + PolicyBytes(Some(after)))
  {
    var policies := [before, Some(after)];
    ghost var head := out.bytes;
    for i := 0 to |policies|
      invariant out.bytes == head + if i == 0 then [] else if i == 1 then PolicyBytes(before) else PolicyBytes(before) + PolicyBytes(Some(after))
    {
      PushPolicy(out, policies[i]);
      Regroup(head, PolicyBytes(before), PolicyBytes(Some(after)));
    }
  }

  method HolderGrantBytes(allocation: ServiceId, user: UserId, units: u128) returns (bytes: Bytes)
    requires Fits(allocation)
    ensures bytes == Canonical(HolderGrant(allocation, user, units))
  {
    var out := new Buffer();
    out.Extend(Raw("banking.v1.HolderGrantTerms\0"));
    out.PushField(Utf8(allocation));
    out.PushField(Utf8(UuidText(user)));
    out.Extend(BigEndian(units, 16));
    bytes := out.bytes;
    Regroup([] + Raw("banking.v1.HolderGrantTerms\0") + TextField(allocation), TextField(UuidText(user)), BigEndian(units, 16));
    Built3(Raw("banking.v1.HolderGrantTerms\0"), TextField(allocation), TextField(UuidText(user)) + BigEndian(units, 16));
  }

  method SeedCapitalBytes(txRef: string, network: Network, amount: u128, depositor: UserId) returns (bytes: Bytes)
    requires Fits(txRef)
    ensures bytes == Canonical(SeedCapital(txRef, network, amount, depositor))
  {
    var out := new Buffer();
    out.Extend(Raw("banking.v1.SeedCapitalTerms\0"));
    out.PushField(Utf8(txRef));
    out.PushField(Utf8(NetworkText(network)));
    out.PushField(Utf8(UuidText(depositor)));
    out.Extend(BigEndian(amount, 16));
    bytes := out.bytes;
    Built5(Raw("banking.v1.SeedCapitalTerms\0"), TextField(txRef), TextField(NetworkText(network)), TextField(UuidText(depositor)),
           BigEndian(amount, 16));
  }

  method CanonicalBytes(s: Subject) returns (bytes: Bytes)
    requires Writable(s)
    ensures bytes == Canonical(s)
  {
    match s
    case PaymentSubject(payment, terms, reason) => bytes := PaymentSubjectBytes(payment, terms, reason);
    case ValuationOverride(service, aum) => bytes := ValuationOverrideBytes(service, aum);
    case FeePolicySubject(_, _, _, _, _, _) => bytes := FeePolicySubjectBytes(s);
    case HolderGrant(allocation, user, units) => bytes := HolderGrantBytes(allocation, user, units);
    case SeedCapital(txRef, network, amount, depositor) => bytes := SeedCapitalBytes(txRef, network, amount, depositor);
  }

  // ----- no two parts alike -----

  lemma ShortFits(s: string)
    requires |s| <= 64
    ensures Fits(s)
  {
    Utf8Length(s);
  }

  lemma NamesAreDistinct()
    ensures forall m: Network, n: Network :: NetworkText(m) == NetworkText(n) ==> m == n
    ensures forall m: Network :: |NetworkText(m)| <= 64
  {
    assert NetworkText(Bep20)[0] == 'b' && NetworkText(Trc20)[0] == 't';
  }

  lemma PartyIsNamed(p: Party, q: Party)
    requires KindOf(p) == KindOf(q) && IdOf(p) == IdOf(q)
    ensures p == q
  {
    if p.UserParty? && q.UserParty? {
      UuidInjective(p.user, q.user);
    }
  }

  lemma PartyIsDelimited(p: Party, q: Party, pRest: Bytes, qRest: Bytes)
    requires PartyFits(p) && PartyFits(q)
    requires PartyBytes(p) + pRest == PartyBytes(q) + qRest
    ensures p == q && pRest == qRest
  {
    Regroup(TextField(KindOf(p)), TextField(IdOf(p)), pRest);
    Regroup(TextField(KindOf(q)), TextField(IdOf(q)), qRest);
    ShortFits(KindOf(p));
    ShortFits(KindOf(q));
    TextIsDelimited(KindOf(p), KindOf(q), TextField(IdOf(p)) + pRest, TextField(IdOf(q)) + qRest);
    if !p.ServiceParty? {
      ShortFits(IdOf(p));
      ShortFits(IdOf(q));
    }
    TextIsDelimited(IdOf(p), IdOf(q), pRest, qRest);
    PartyIsNamed(p, q);
  }

  lemma DestinationIsDelimited(d: Destination, e: Destination, dRest: Bytes, eRest: Bytes)
    requires DestinationFits(d) && DestinationFits(e)
    requires DestinationBytes(d) + dRest == DestinationBytes(e) + eRest
    ensures d == e && dRest == eRest
  {
    ShortFits("internal");
    ShortFits("external");
    var dTail, eTail := DestinationTail(d), DestinationTail(e);
    Regroup(TextField(DestinationTag(d)), dTail, dRest);
    Regroup(TextField(DestinationTag(e)), eTail, eRest);
    TextIsDelimited(DestinationTag(d), DestinationTag(e), dTail + dRest, eTail + eRest);
    assert "internal"[0] == 'i' && "external"[0] == 'e';
    if d.Inside? {
      PartyIsDelimited(d.party, e.party, dRest, eRest);
    } else {
      NamesAreDistinct();
      ShortFits(NetworkText(d.network));
      ShortFits(NetworkText(e.network));
      Regroup(TextField(NetworkText(d.network)), TextField(d.address.text), dRest);
      Regroup(TextField(NetworkText(e.network)), TextField(e.address.text), eRest);
      TextIsDelimited(NetworkText(d.network), NetworkText(e.network),
                      TextField(d.address.text) + dRest, TextField(e.address.text) + eRest);
      TextIsDelimited(d.address.text, e.address.text, dRest, eRest);
    }
  }

  function DestinationTag(d: Destination): string {
    if d.Inside? then "internal" else "external"
  }

  function DestinationTail(d: Destination): Bytes {
    match d
    case Inside(party) => PartyBytes(party)
    case Outside(network, address) => TextField(NetworkText(network)) + TextField(address.text)
  }

  /** Payment terms and their reason are named by their bytes. */
  lemma TermsAreInjective(t: Terms, u: Terms, why: string, because: string)
    requires PartyFits(t.from) && DestinationFits(t.to) && Fits(why)
    requires PartyFits(u.from) && DestinationFits(u.to) && Fits(because)
    requires TermsBytes(t, why) == TermsBytes(u, because)
    ensures t == u && why == because
  {
    var tAmount, uAmount := BigEndian(t.amount, 16) + TextField(why), BigEndian(u.amount, 16) + TextField(because);
    var tTo, uTo := DestinationBytes(t.to) + tAmount, DestinationBytes(u.to) + uAmount;
    SamePrefix(Raw("banking.v1.PaymentTerms\0"), Raw("banking.v1.PaymentTerms\0"), PartyBytes(t.from) + tTo, PartyBytes(u.from) + uTo);
    PartyIsDelimited(t.from, u.from, tTo, uTo);
    DestinationIsDelimited(t.to, u.to, tAmount, uAmount);
    ByteWidths();
    NumberIsDelimited(t.amount, u.amount, 16, TextField(why), TextField(because));
    assert TextField(why) + [] == TextField(why) && TextField(because) + [] == TextField(because);
    TextIsDelimited(why, because, [], []);
  }

  lemma PolicyIsDelimited(p: Option<Fees.FeePolicy>, q: Option<Fees.FeePolicy>, pRest: Bytes, qRest: Bytes)
    requires p.Some? ==> p.value.Stored()
    requires q.Some? ==> q.value.Stored()
    requires PolicyBytes(p) + pRest == PolicyBytes(q) + qRest
    ensures p == q && pRest == qRest
  {
    assert (PolicyBytes(p) + pRest)[0] == PolicyBytes(p)[0] && (PolicyBytes(q) + qRest)[0] == PolicyBytes(q)[0];
    if p.None? {
      SamePrefix([0], [0], pRest, qRest);
    } else {
      Regroup([1], RatesBytes(p.value), pRest);
      Regroup([1], RatesBytes(q.value), qRest);
      SamePrefix([1], [1], RatesBytes(p.value) + pRest, RatesBytes(q.value) + qRest);
      RatesAreDelimited(p.value, q.value, pRest, qRest);
    }
  }

  /** A policy's bytes after its presence byte. */
  function RatesBytes(t: Fees.FeePolicy): Bytes {
    BigEndian(t.managementBps, 4) + (BigEndian(t.performanceBps, 4) + (BigEndian(t.hurdleBps, 4) + WordsBytes(t)))
  }

  function WordsBytes(t: Fees.FeePolicy): Bytes {
    TextField(BasisName(t.basis)) + TextField(PeriodName(t.crystallization))
  }

  lemma RatesAreDelimited(t: Fees.FeePolicy, u: Fees.FeePolicy, tRest: Bytes, uRest: Bytes)
    requires t.Stored() && u.Stored()
    requires RatesBytes(t) + tRest == RatesBytes(u) + uRest
    ensures t == u && tRest == uRest
  {
    RatesRegrouped(t, tRest);
    RatesRegrouped(u, uRest);
    ByteWidths();
    NumberIsDelimited(t.managementBps, u.managementBps, 4,
                      BigEndian(t.performanceBps, 4) + (BigEndian(t.hurdleBps, 4) + (WordsBytes(t) + tRest)),
                      BigEndian(u.performanceBps, 4) + (BigEndian(u.hurdleBps, 4) + (WordsBytes(u) + uRest)));
    NumberIsDelimited(t.performanceBps, u.performanceBps, 4,
                      BigEndian(t.hurdleBps, 4) + (WordsBytes(t) + tRest), BigEndian(u.hurdleBps, 4) + (WordsBytes(u) + uRest));
    NumberIsDelimited(t.hurdleBps, u.hurdleBps, 4, WordsBytes(t) + tRest, WordsBytes(u) + uRest);
    WordsAreDelimited(t, u, tRest, uRest);
  }

  lemma RatesRegrouped(t: Fees.FeePolicy, rest: Bytes)
    ensures RatesBytes(t) + rest
            == BigEndian(t.managementBps, 4) + (BigEndian(t.performanceBps, 4) + (BigEndian(t.hurdleBps, 4) + (WordsBytes(t) + rest)))
  {
  }

  lemma WordsAreDelimited(t: Fees.FeePolicy, u: Fees.FeePolicy, tRest: Bytes, uRest: Bytes)
    requires WordsBytes(t) + tRest == WordsBytes(u) + uRest
    ensures t.basis == u.basis && t.crystallization == u.crystallization && tRest == uRest
  {
    Regroup(TextField(BasisName(t.basis)), TextField(PeriodName(t.crystallization)), tRest);
    Regroup(TextField(BasisName(u.basis)), TextField(PeriodName(u.crystallization)), uRest);
    ShortFits(BasisName(t.basis));
    ShortFits(BasisName(u.basis));
    ShortFits(PeriodName(t.crystallization));
    ShortFits(PeriodName(u.crystallization));
    TextIsDelimited(BasisName(t.basis), BasisName(u.basis),
                    TextField(PeriodName(t.crystallization)) + tRest, TextField(PeriodName(u.crystallization)) + uRest);
    TextIsDelimited(PeriodName(t.crystallization), PeriodName(u.crystallization), tRest, uRest);
  }

  // ----- no two subjects alike -----

  lemma UuidFieldIsDelimited(u: Uuid, v: Uuid, uRest: Bytes, vRest: Bytes)
    requires Field(BigEndian(u, 16)) + uRest == Field(BigEndian(v, 16)) + vRest
    ensures u == v && uRest == vRest
  {
    FieldIsDelimited(BigEndian(u, 16), BigEndian(v, 16), uRest, vRest);
    ByteWidths();
    BigEndianInjective(u, v, 16);
  }

  lemma AmountIs(m: u128, n: u128)
    requires BigEndian(m, 16) == BigEndian(n, 16)
    ensures m == n
  {
    ByteWidths();
    BigEndianInjective(m, n, 16);
  }

  lemma PaymentsAreInjective(x: Subject, y: Subject)
    requires x.PaymentSubject? && y.PaymentSubject? && Writable(x) && Writable(y) && Canonical(x) == Canonical(y)
    ensures x == y
  {
    var xTerms, yTerms := TermsBytes(x.terms, x.reason), TermsBytes(y.terms, y.reason);
    SamePrefix(Raw("banking.v1.PaymentSubject\0"), Raw("banking.v1.PaymentSubject\0"),
           Field(BigEndian(x.payment, 16)) + xTerms, Field(BigEndian(y.payment, 16)) + yTerms);
    UuidFieldIsDelimited(x.payment, y.payment, xTerms, yTerms);
    TermsAreInjective(x.terms, y.terms, x.reason, y.reason);
  }

  lemma ValuationsAreInjective(x: Subject, y: Subject)
    requires x.ValuationOverride? && y.ValuationOverride? && Writable(x) && Writable(y) && Canonical(x) == Canonical(y)
    ensures x == y
  {
    SamePrefix(Raw("banking.v1.ValuationOverrideTerms\0"), Raw("banking.v1.ValuationOverrideTerms\0"),
           TextField(x.service) + BigEndian(x.aum, 16), TextField(y.service) + BigEndian(y.aum, 16));
    TextIsDelimited(x.service, y.service, BigEndian(x.aum, 16), BigEndian(y.aum, 16));
    AmountIs(x.aum, y.aum);
  }

  lemma TermsChangesAreInjective(x: Subject, y: Subject)
    requires x.FeePolicySubject? && y.FeePolicySubject? && Writable(x) && Writable(y)
    requires TermsChange(x.before, x.after, x.why, x.effectiveFrom) == TermsChange(y.before, y.after, y.why, y.effectiveFrom)
    ensures x.before == y.before && x.after == y.after && x.why == y.why && x.effectiveFrom == y.effectiveFrom
  {
    var xTail, yTail := BigEndian(Bits64(x.effectiveFrom), 8), BigEndian(Bits64(y.effectiveFrom), 8);
    var xWhy, yWhy := TextField(x.why) + xTail, TextField(y.why) + yTail;
    PolicyIsDelimited(x.before, y.before, PolicyBytes(Some(x.after)) + xWhy, PolicyBytes(Some(y.after)) + yWhy);
    PolicyIsDelimited(Some(x.after), Some(y.after), xWhy, yWhy);
    TextIsDelimited(x.why, y.why, xTail, yTail);
    Number64Is(Bits64(x.effectiveFrom), Bits64(y.effectiveFrom));
  }

  lemma HeadsAreDelimited(change: Uuid, change': Uuid, product: string, product': string, rest: Bytes, rest': Bytes)
    requires Fits(product) && Fits(product')
    requires ChangeBytes(change, product, rest) == ChangeBytes(change', product', rest')
    ensures change == change' && product == product' && rest == rest'
  {
    SamePrefix(Raw("banking.v1.FeePolicySubject\0"), Raw("banking.v1.FeePolicySubject\0"),
           Field(BigEndian(change, 16)) + (TextField(product) + rest), Field(BigEndian(change', 16)) + (TextField(product') + rest'));
    UuidFieldIsDelimited(change, change', TextField(product) + rest, TextField(product') + rest');
    TextIsDelimited(product, product', rest, rest');
  }

  lemma FeePoliciesAreInjective(x: Subject, y: Subject)
    requires x.FeePolicySubject? && y.FeePolicySubject? && Writable(x) && Writable(y) && Canonical(x) == Canonical(y)
    ensures x == y
  {
    var xRest := TermsChange(x.before, x.after, x.why, x.effectiveFrom);
    var yRest := TermsChange(y.before, y.after, y.why, y.effectiveFrom);
    HeadsAreDelimited(x.change, y.change, x.product, y.product, xRest, yRest);
    TermsChangesAreInjective(x, y);
  }

  lemma GrantsAreInjective(x: Subject, y: Subject)
    requires x.HolderGrant? && y.HolderGrant? && Writable(x) && Writable(y) && Canonical(x) == Canonical(y)
    ensures x == y
  {
    var xUser, yUser := TextField(UuidText(x.user)) + BigEndian(x.units, 16), TextField(UuidText(y.user)) + BigEndian(y.units, 16);
    SamePrefix(Raw("banking.v1.HolderGrantTerms\0"), Raw("banking.v1.HolderGrantTerms\0"), TextField(x.allocation) + xUser, TextField(y.allocation) + yUser);
    TextIsDelimited(x.allocation, y.allocation, xUser, yUser);
    ShortFits(UuidText(x.user));
    ShortFits(UuidText(y.user));
    TextIsDelimited(UuidText(x.user), UuidText(y.user), BigEndian(x.units, 16), BigEndian(y.units, 16));
    UuidInjective(x.user, y.user);
    AmountIs(x.units, y.units);
  }

  lemma SeedsAreInjective(x: Subject, y: Subject)
    requires x.SeedCapital? && y.SeedCapital? && Writable(x) && Writable(y) && Canonical(x) == Canonical(y)
    ensures x == y
  {
    var xWho, yWho := TextField(UuidText(x.depositor)) + BigEndian(x.amount, 16), TextField(UuidText(y.depositor)) + BigEndian(y.amount, 16);
    var xNet, yNet := TextField(NetworkText(x.network)) + xWho, TextField(NetworkText(y.network)) + yWho;
    SamePrefix(Raw("banking.v1.SeedCapitalTerms\0"), Raw("banking.v1.SeedCapitalTerms\0"), TextField(x.txRef) + xNet, TextField(y.txRef) + yNet);
    TextIsDelimited(x.txRef, y.txRef, xNet, yNet);
    NamesAreDistinct();
    ShortFits(NetworkText(x.network));
    ShortFits(NetworkText(y.network));
    TextIsDelimited(NetworkText(x.network), NetworkText(y.network), xWho, yWho);
    ShortFits(UuidText(x.depositor));
    ShortFits(UuidText(y.depositor));
    TextIsDelimited(UuidText(x.depositor), UuidText(y.depositor), BigEndian(x.amount, 16), BigEndian(y.amount, 16));
    UuidInjective(x.depositor, y.depositor);
    AmountIs(x.amount, y.amount);
  }

  /** The twelfth byte tells the five kinds apart. */
  function KindByte(s: Subject): Byte {
    match s
    case PaymentSubject(_, _, _) => 'P' as int
    case ValuationOverride(_, _) => 'V' as int
    case FeePolicySubject(_, _, _, _, _, _) => 'F' as int
    case HolderGrant(_, _, _) => 'H' as int
    case SeedCapital(_, _, _, _) => 'S' as int
  }

  lemma TwelfthByte(domain: string, tail: Bytes)
    requires |domain| > 11 && domain[11] as int < 256
    ensures (Raw(domain) + tail)[11] == domain[11] as int
  {
  }

  lemma MarkedSubject(payment: Uuid, terms: Bytes)
    ensures |SubjectBytes(payment, terms)| > 11 && SubjectBytes(payment, terms)[11] == 'P' as int
  {
    TwelfthByte("banking.v1.PaymentSubject\0", Field(BigEndian(payment, 16)) + terms);
  }

  lemma PaymentIsMarked(s: Subject)
    requires s.PaymentSubject? && Writable(s)
    ensures |Canonical(s)| > 11 && Canonical(s)[11] == 'P' as int
  {
    MarkedSubject(s.payment, TermsBytes(s.terms, s.reason));
  }

  lemma MarkedValuation(rest: Bytes)
    ensures |ValuationBytes(rest)| > 11 && ValuationBytes(rest)[11] == 'V' as int
  {
    TwelfthByte("banking.v1.ValuationOverrideTerms\0", rest);
  }

  lemma MarkedGrant(rest: Bytes)
    ensures |GrantBytes(rest)| > 11 && GrantBytes(rest)[11] == 'H' as int
  {
    TwelfthByte("banking.v1.HolderGrantTerms\0", rest);
  }

  lemma MarkedSeed(rest: Bytes)
    ensures |SeedBytes(rest)| > 11 && SeedBytes(rest)[11] == 'S' as int
  {
    TwelfthByte("banking.v1.SeedCapitalTerms\0", rest);
  }

  lemma ValuationIsMarked(s: Subject)
    requires s.ValuationOverride? && Writable(s)
    ensures |Canonical(s)| > 11 && Canonical(s)[11] == 'V' as int
  {
    MarkedValuation(TextField(s.service) + BigEndian(s.aum, 16));
  }

  lemma MarkedChange(change: Uuid, product: string, rest: Bytes)
    ensures |ChangeBytes(change, product, rest)| > 11 && ChangeBytes(change, product, rest)[11] == 'F' as int
  {
    TwelfthByte("banking.v1.FeePolicySubject\0", Field(BigEndian(change, 16)) + (TextField(product) + rest));
  }

  lemma FeePolicyIsMarked(s: Subject)
    requires s.FeePolicySubject? && Writable(s)
    ensures |Canonical(s)| > 11 && Canonical(s)[11] == 'F' as int
  {
    MarkedChange(s.change, s.product, TermsChange(s.before, s.after, s.why, s.effectiveFrom));
  }

  lemma GrantIsMarked(s: Subject)
    requires s.HolderGrant? && Writable(s)
    ensures |Canonical(s)| > 11 && Canonical(s)[11] == 'H' as int
  {
    MarkedGrant(TextField(s.allocation) + (TextField(UuidText(s.user)) + BigEndian(s.units, 16)));
  }

  lemma SeedIsMarked(s: Subject)
    requires s.SeedCapital? && Writable(s)
    ensures |Canonical(s)| > 11 && Canonical(s)[11] == 'S' as int
  {
    MarkedSeed(TextField(s.txRef) + (TextField(NetworkText(s.network)) + (TextField(UuidText(s.depositor)) + BigEndian(s.amount, 16))));
  }

  lemma KindIsMarked(s: Subject)
    requires Writable(s)
    ensures |Canonical(s)| > 11 && Canonical(s)[11] == KindByte(s)
  {
    match s
    case PaymentSubject(_, _, _) => PaymentIsMarked(s);
    case ValuationOverride(_, _) => ValuationIsMarked(s);
    case FeePolicySubject(_, _, _, _, _, _) => FeePolicyIsMarked(s);
    case HolderGrant(_, _, _) => GrantIsMarked(s);
    case SeedCapital(_, _, _, _) => SeedIsMarked(s);
  }

  lemma SameBytesSameKind(x: Subject, y: Subject)
    requires Writable(x) && Writable(y) && Canonical(x) == Canonical(y)
    ensures KindByte(x) == KindByte(y)
  {
    KindIsMarked(x);
    KindIsMarked(y);
  }

  /**
  What the owners sign names one subject: equal bytes are the same kind and the same terms, field by
  field, over all five kinds together.
   */
  lemma SubjectsAreInjective(x: Subject, y: Subject)
    requires Writable(x) && Writable(y) && Canonical(x) == Canonical(y)
    ensures x == y
  {
    SameBytesSameKind(x, y);
    if x.PaymentSubject? {
      PaymentsAreInjective(x, y);
    } else if x.ValuationOverride? {
      ValuationsAreInjective(x, y);
    } else if x.FeePolicySubject? {
      FeePoliciesAreInjective(x, y);
    } else if x.HolderGrant? {
      GrantsAreInjective(x, y);
    } else {
      SeedsAreInjective(x, y);
    }
  }
}
