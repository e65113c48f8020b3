/**
What a client may draw on a user's compartment (domain/src/scope_mandates.rs,
piggybank/core/src/infrastructure/scope_mandates.rs): mandates granted, replaced and revoked, and the holds,
charges, captures and releases of one client on one compartment as a state machine.
 */
module Mandates {
  import opened Base
  import opened Money
  import Gates
  import Ledger
  import Sorting
  import Windows

  const I64_MAX: int := 0x7fff_ffff_ffff_ffff

  // ----- a mandate -----

  datatype MandateOperation = Reserve | Charge | BookFill

  const ALL_OPERATIONS := [Reserve, Charge, BookFill]

  datatype Caps = Caps(perOp: u128, per24h: u128, outstanding: u128, bookFill24h: Option<u128>)

  datatype Mandate = Mandate(
    caps: Caps, operations: seq<MandateOperation>, expiresAt: Option<int>, revoked: bool, replaced: bool)
  {
    predicate IsLive(now: int) {
      !revoked && !replaced && (expiresAt.None? || expiresAt.value > now)
    }

    function BookFillCap(): Option<u128> {
      if BookFill in operations && !revoked then caps.bookFill24h else None
    }
  }

  datatype Usage = Usage(drawn24h: u128, outstanding: u128, bookFilled24h: u128)

  predicate Over(base: u128, more: u128, cap: u128) {
    CheckedAdd(base, more).None? || CheckedAdd(base, more).value > cap
  }

  function AdmitDraw(m: Mandate, operation: MandateOperation, amount: u128, usage: Usage, now: int): Result<Unit, Gates.LedgerRefusal> {
    if operation == BookFill || !m.IsLive(now) || operation !in m.operations || amount > m.caps.perOp then Err(Gates.MandateRequired)
    else if Over(usage.drawn24h, amount, m.caps.per24h) then Err(Gates.MandateRequired)
    else if operation == Reserve && Over(usage.outstanding, amount, m.caps.outstanding) then Err(Gates.MandateRequired)
    else Ok(Unit.Unit)
  }

  function AdmitBookFill(placed: Mandate, current: Option<Mandate>, amount: u128, usage: Usage, now: int): Result<Unit, Gates.LedgerRefusal> {
    if current.None? || !current.value.IsLive(now) then Err(Gates.MandateRequired)
    else if placed.BookFillCap().None? || current.value.BookFillCap().None? then Err(Gates.MandateRequired)
    else if Over(usage.bookFilled24h, amount, Min(placed.BookFillCap().value, current.value.BookFillCap().value))
    then Err(Gates.MandateRequired)
    else Ok(Unit.Unit)
  }

  /** The end of a hold placed now: the earlier of the one asked for and the mandate's. */
  function HoldExpiry(m: Mandate, ttl: nat, now: int): (r: Option<int>)
    ensures r.Some? <==> ttl > 0 || m.expiresAt.Some?
    ensures r.Some? && m.expiresAt.Some? ==> r.value <= m.expiresAt.value
    ensures r.Some? && ttl > 0 ==> r.value <= now + ttl
  {
    var asked := if ttl > 0 then Some(Min(now + ttl, I64_MAX)) else None;
    if asked.Some? && m.expiresAt.Some? then Some(Min(asked.value, m.expiresAt.value))
    else if asked.Some? then asked
    else m.expiresAt
  }

  /** A draw is admitted exactly when the mandate is in force, lists it, and each of its caps leaves room for it. */
  lemma DrawAdmittedIff(m: Mandate, operation: MandateOperation, amount: u128, usage: Usage, now: int)
    ensures AdmitDraw(m, operation, amount, usage, now).Ok? <==>
              && (operation == Reserve || operation == Charge) && operation in m.operations
              && !m.revoked && !m.replaced && (m.expiresAt.Some? ==> now < m.expiresAt.value)
              && amount <= m.caps.perOp && usage.drawn24h + amount <= m.caps.per24h
              && (operation == Reserve ==> usage.outstanding + amount <= m.caps.outstanding)
    ensures AdmitDraw(m, operation, amount, usage, now).Err? ==> AdmitDraw(m, operation, amount, usage, now).error == Gates.MandateRequired
  {
  }

  /**
  A capture into another user's compartment is admitted exactly when the current mandate is in force, both it
  and the one the hold was placed under allow it, the latter unrevoked, and both of their daily caps leave
  room for it.
   */
  lemma BookFillAdmittedIff(placed: Mandate, current: Option<Mandate>, amount: u128, usage: Usage, now: int)
    ensures AdmitBookFill(placed, current, amount, usage, now).Ok? <==>
              && current.Some?
              && var m := current.value;
                 && !m.revoked && !m.replaced && (m.expiresAt.Some? ==> now < m.expiresAt.value)
                 && BookFill in m.operations && m.caps.bookFill24h.Some?
                 && !placed.revoked && BookFill in placed.operations && placed.caps.bookFill24h.Some?
                 && usage.bookFilled24h + amount <= m.caps.bookFill24h.value
                 && usage.bookFilled24h + amount <= placed.caps.bookFill24h.value
    ensures AdmitBookFill(placed, current, amount, usage, now).Err? ==>
              AdmitBookFill(placed, current, amount, usage, now).error == Gates.MandateRequired
  {
  }

  /** A hold ends at the earlier of what was asked for and the mandate's end, and has none when neither is set. */
  lemma HoldExpiryIs(m: Mandate, ttl: nat, now: int)
    requires now + ttl <= I64_MAX
    ensures HoldExpiry(m, ttl, now)
            == if ttl == 0 then m.expiresAt
               else if m.expiresAt.Some? && m.expiresAt.value <= now + ttl then m.expiresAt else Some(now + ttl)
  {
  }

  // ----- what a client draws -----

  datatype Taking = Taking(amount: nat, at: int)

  function Total(takings: seq<Taking>): nat {
    if takings == [] then 0 else Total(takings[..|takings| - 1]) + takings[|takings| - 1].amount
  }

  function TakenAfter(takings: seq<Taking>, from: int): nat {
    if takings == [] then 0
    else
      var last := takings[|takings| - 1];
      TakenAfter(takings[..|takings| - 1], from) + if last.at > from then last.amount else 0
  }

  /** A hold or a charge made under a mandate; it has ended when the hold is released or the charge refused. */
  datatype Debit = Debit(operation: MandateOperation, under: nat, amount: nat, at: int, takings: seq<Taking>, ended: bool)
  {
    /** What it counts for while it is of the trailing day. */
    function Worth(): nat {
      if ended then Total(takings) else amount
    }

    /** What is drawn by it after `from`: in full if it was made since, and otherwise what was captured since. */
    function DrawnAfter(from: int): nat {
      if at > from then Worth() else TakenAfter(takings, from)
    }

    function Less(taken: nat, now: int): Debit {
      this.(takings := takings + [Taking(taken, now)])
    }

    function Outstanding(): nat {
      if operation == Reserve && !ended && Total(takings) < amount then amount - Total(takings) else 0
    }
  }

  datatype FillCaps = FillCaps(placed: u128, current: u128)

  /** The client's mandates on the compartment in the order of their grants, its debits, and its book fills. */
  datatype State = State(mandates: seq<Mandate>, debits: seq<Debit>, fills: seq<Windows.Entry<FillCaps>>)

  function Drawn(debits: seq<Debit>, from: int): nat {
    if debits == [] then 0
    else Drawn(debits[..|debits| - 1], from) + debits[|debits| - 1].DrawnAfter(from)
  }

  function CapturedOfOlder(debits: seq<Debit>, from: int): nat {
    if debits == [] then 0
    else
      var last := debits[|debits| - 1];
      CapturedOfOlder(debits[..|debits| - 1], from) + if last.at > from then 0 else TakenAfter(last.takings, from)
  }

  function Outstanding(debits: seq<Debit>): nat {
    if debits == [] then 0
    else Outstanding(debits[..|debits| - 1]) + debits[|debits| - 1].Outstanding()
  }

  // ----- the state machine -----

  datatype Step =
    | Grant(caps: Caps, operations: seq<MandateOperation>, expiresAt: Option<int>, now: int)
    | Revoke(now: int)
    | Ask(operation: MandateOperation, amount: u128, now: int)
    | Capture(index: nat, amount: u128, elsewhere: bool, now: int)
    | End(index: nat, now: int)

  predicate HasCurrent(mandates: seq<Mandate>) {
    mandates != [] && !mandates[|mandates| - 1].revoked && !mandates[|mandates| - 1].replaced
  }

  /** A draw is decided on the current mandate, and on what the client has drawn under whichever one. */
  predicate DrawPasses(s: State, operation: MandateOperation, amount: u128, now: int) {
    var drawn, outstanding := Drawn(s.debits, now - Windows.DAY), Outstanding(s.debits);
    && HasCurrent(s.mandates) && drawn < TWO128 && outstanding < TWO128
    && AdmitDraw(s.mandates[|s.mandates| - 1], operation, amount, Usage(drawn, outstanding, 0), now).Ok?
  }

  function AnyFill(): FillCaps -> bool {
    (k: FillCaps) => true
  }

  function Tighter(): FillCaps -> nat {
    (k: FillCaps) => Min(k.placed, k.current)
  }

  predicate FillPasses(s: State, under: nat, amount: u128, now: int) {
    var filled := Windows.Sum(s.fills, AnyFill(), now - Windows.DAY, now);
    && under < |s.mandates| && HasCurrent(s.mandates) && filled < TWO128
    && AdmitBookFill(s.mandates[under], Some(s.mandates[|s.mandates| - 1]), amount, Usage(0, 0, filled), now).Ok?
  }

  /** A standing hold gives up at most what is left of it; elsewhere than to its own user, both mandates decide. */
  predicate CapturePasses(s: State, index: nat, amount: u128, elsewhere: bool, now: int) {
    && index < |s.debits| && 0 < amount <= s.debits[index].Outstanding()
    && (elsewhere ==> FillPasses(s, s.debits[index].under, amount, now))
  }

  function FillCapsOf(s: State, under: nat): FillCaps
    requires under < |s.mandates|
    requires s.mandates[under].BookFillCap().Some? && s.mandates[|s.mandates| - 1].BookFillCap().Some?
  {
    FillCaps(s.mandates[under].BookFillCap().value, s.mandates[|s.mandates| - 1].BookFillCap().value)
  }

  function Granted(mandates: seq<Mandate>, granted: Mandate): seq<Mandate> {
    if HasCurrent(mandates) then mandates[|mandates| - 1 := mandates[|mandates| - 1].(replaced := true)] + [granted]
    else mandates + [granted]
  }

  function Revoked(mandates: seq<Mandate>): seq<Mandate> {
    if HasCurrent(mandates) then mandates[|mandates| - 1 := mandates[|mandates| - 1].(revoked := true)] else mandates
  }

  function Asked(s: State, operation: MandateOperation, amount: u128, now: int): State
    requires HasCurrent(s.mandates)
  {
    s.(debits := s.debits + [Debit(operation, |s.mandates| - 1, amount, now, [], false)])
  }

  function Captured(s: State, index: nat, amount: u128, elsewhere: bool, now: int): State
    requires CapturePasses(s, index, amount, elsewhere, now)
  {
    var d := s.debits[index];
    var fills := if elsewhere then s.fills + [Windows.Entry(FillCapsOf(s, d.under), amount, now)] else s.fills;
    State(s.mandates, s.debits[index := d.Less(amount, now)], fills)
  }

  function Ended(debits: seq<Debit>, index: nat): seq<Debit> {
    if index < |debits| then debits[index := debits[index].(ended := true)] else debits
  }

  function Take(s: State, step: Step): State {
    match step
    case Grant(caps, operations, expiresAt, _) =>
      s.(mandates := Granted(s.mandates, Mandate(caps, operations, expiresAt, false, false)))
    case Revoke(_) => s.(mandates := Revoked(s.mandates))
    case Ask(operation, amount, now) => if DrawPasses(s, operation, amount, now) then Asked(s, operation, amount, now) else s
    case Capture(index, amount, elsewhere, now) =>
      if CapturePasses(s, index, amount, elsewhere, now) then Captured(s, index, amount, elsewhere, now) else s
    case End(index, _) => s.(debits := Ended(s.debits, index))
  }

  const NOTHING := State([], [], [])

  function Run(s: State, steps: seq<Step>): State
    decreases |steps|
  {
    if steps == [] then s else Run(Take(s, steps[0]), steps[1..])
  }

  ghost predicate Chronological(steps: seq<Step>) {
    forall i, j :: 0 <= i < j < |steps| ==> steps[i].now <= steps[j].now
  }

  /** A mandate in force now. */
  predicate InForce(m: Mandate, now: int) {
    !m.revoked && !m.replaced && (m.expiresAt.Some? ==> now < m.expiresAt.value)
  }

  /** What a client asks to draw is taken up exactly when its last mandate allows it, after all it has drawn and holds. */
  lemma AskedIff(s: State, operation: MandateOperation, amount: u128, now: int)
    requires Drawn(s.debits, now - 86_400) < TWO128 && Outstanding(s.debits) < TWO128
    ensures (exists d :: Take(s, Ask(operation, amount, now)).debits == s.debits + [d]) <==>
              && s.mandates != []
              && var m := s.mandates[|s.mandates| - 1];
                 && InForce(m, now) && operation in m.operations && operation != BookFill
                 && amount <= m.caps.perOp && Drawn(s.debits, now - 86_400) + amount <= m.caps.per24h
                 && (operation == Reserve ==> Outstanding(s.debits) + amount <= m.caps.outstanding)
  {
    if s.mandates != [] {
      DrawAdmittedIff(s.mandates[|s.mandates| - 1], operation, amount,
                      Usage(Drawn(s.debits, now - 86_400), Outstanding(s.debits), 0), now);
    }
    if DrawPasses(s, operation, amount, now) {
      assert Take(s, Ask(operation, amount, now)).debits
          == s.debits + [Debit(operation, |s.mandates| - 1, amount, now, [], false)];
    }
  }

  /** A standing hold gives up what is captured of it, up to all of it, to its own scope without any mandate being asked. */
  lemma CaptureIsTaken(s: State, index: nat, amount: u128, now: int)
    requires index < |s.debits|
    ensures Take(s, Capture(index, amount, false, now)).debits
         == if 0 < amount <= s.debits[index].Outstanding()
            then s.debits[index := s.debits[index].(takings := s.debits[index].takings + [Taking(amount, now)])] else s.debits
  {
  }

  /** Only the last mandate granted is ever in force, and a revoked one never is. */
  lemma OneMandateInForce(s: State, caps: Caps, operations: seq<MandateOperation>, expiresAt: Option<int>, now: int, at: int)
    requires forall i :: 0 <= i < |s.mandates| - 1 ==> s.mandates[i].revoked || s.mandates[i].replaced
    ensures var z := Take(s, Grant(caps, operations, expiresAt, now)).mandates;
            && |z| == |s.mandates| + 1 && z[|z| - 1] == Mandate(caps, operations, expiresAt, false, false)
            && forall i :: 0 <= i < |z| - 1 ==> !InForce(z[i], at)
    ensures var z := Take(s, Revoke(now)).mandates;
            |z| == |s.mandates| && forall i :: 0 <= i < |z| ==> !InForce(z[i], at)
  {
  }

  // ----- what every step keeps -----

  function Any(): nat -> bool {
    (k: nat) => true
  }

  function Itself(): nat -> nat {
    (k: nat) => k
  }

  function OutstandingCap(mandates: seq<Mandate>, d: Debit): nat {
    if d.under < |mandates| then mandates[d.under].caps.outstanding else 0
  }

  function DayCap(mandates: seq<Mandate>, d: Debit): nat {
    if d.under < |mandates| then mandates[d.under].caps.per24h else 0
  }

  /** The debits as a log: each at what it now counts for, under the cap it was made under. */
  function Worths(mandates: seq<Mandate>, debits: seq<Debit>): seq<Windows.Entry<nat>> {
    seq(|debits|, i requires 0 <= i < |debits| => Windows.Entry(DayCap(mandates, debits[i]), debits[i].Worth(), debits[i].at))
  }

  /** A debit is one its mandate lists, within its cap for one, and gave no more than it is of. */
  ghost predicate SoundDebit(mandates: seq<Mandate>, d: Debit) {
    && d.under < |mandates| && Total(d.takings) <= d.amount <= mandates[d.under].caps.perOp
    && d.operation in mandates[d.under].operations && d.operation != BookFill
    && (d.takings != [] ==> d.operation == Reserve)
  }

  /** The hold at `i` fitted its mandate's outstanding cap, with what still stands of those before it. */
  ghost predicate HoldFits(mandates: seq<Mandate>, debits: seq<Debit>, i: nat)
    requires i < |debits|
  {
    debits[i].operation == Reserve ==> Outstanding(debits[..i]) + debits[i].amount <= OutstandingCap(mandates, debits[i])
  }

  ghost predicate Sound(s: State) {
    forall i :: 0 <= i < |s.debits| ==> SoundDebit(s.mandates, s.debits[i]) && HoldFits(s.mandates, s.debits, i)
  }

  ghost predicate Kept(s: State) {
    && Windows.Kept(Worths(s.mandates, s.debits), Any(), Any(), Itself())
    && Windows.Kept(s.fills, AnyFill(), AnyFill(), Tighter())
  }

  ghost predicate NotAfter(s: State, now: int) {
    && (forall d <- s.debits :: d.at <= now)
    && (forall e <- s.fills :: e.at <= now)
  }

  lemma {:induction false} TakenAtMostTotal(takings: seq<Taking>, from: int, from': int)
    requires from <= from'
    ensures TakenAfter(takings, from') <= TakenAfter(takings, from) <= Total(takings)
  {
    if takings != [] {
      TakenAtMostTotal(takings[..|takings| - 1], from, from');
    }
  }

  lemma TakenAppended(takings: seq<Taking>, t: Taking, from: int)
    ensures Total(takings + [t]) == Total(takings) + t.amount
    ensures TakenAfter(takings + [t], from) == TakenAfter(takings, from) + if t.at > from then t.amount else 0
  {
    assert (takings + [t])[..|takings|] == takings;
  }

  lemma {:induction false} DrawnUpdated(debits: seq<Debit>, i: nat, d: Debit, from: int)
    requires i < |debits|
    ensures Drawn(debits[i := d], from) == Drawn(debits, from) - debits[i].DrawnAfter(from) + d.DrawnAfter(from)
  {
    var before, after := debits[..|debits| - 1], debits[i := d];
    if i < |debits| - 1 {
      DrawnUpdated(before, i, d, from);
      assert after[..|debits| - 1] == before[i := d];
    } else {
      assert after[..|debits| - 1] == before;
    }
  }

  lemma DrawnAppended(debits: seq<Debit>, d: Debit, from: int)
    ensures Drawn(debits + [d], from) == Drawn(debits, from) + d.DrawnAfter(from)
  {
    assert (debits + [d])[..|debits|] == debits;
  }

  lemma {:induction false} OutstandingLowered(x: seq<Debit>, y: seq<Debit>)
    requires |x| == |y| && forall i :: 0 <= i < |x| ==> y[i].Outstanding() <= x[i].Outstanding()
    ensures Outstanding(y) <= Outstanding(x)
  {
    if x != [] {
      OutstandingLowered(x[..|x| - 1], y[..|y| - 1]);
    }
  }

  // ----- a sound state stays sound -----

  /** `ys` are `xs` with what stands of a hold lowered, and `after` the mandates `before` with more of them. */
  ghost predicate Eased(before: seq<Mandate>, xs: seq<Debit>, after: seq<Mandate>, ys: seq<Debit>) {
    && |before| <= |after| && (forall k :: 0 <= k < |before| ==> after[k].caps == before[k].caps && after[k].operations == before[k].operations)
    && |xs| == |ys|
    && forall i :: 0 <= i < |xs| ==> ys[i].(takings := xs[i].takings, ended := xs[i].ended) == xs[i] && ys[i].Outstanding() <= xs[i].Outstanding()
  }

  lemma EasedHoldFits(before: seq<Mandate>, xs: seq<Debit>, after: seq<Mandate>, ys: seq<Debit>, i: nat)
    requires Eased(before, xs, after, ys) && i < |xs| && xs[i].under < |before| && HoldFits(before, xs, i)
    ensures HoldFits(after, ys, i)
  {
    OutstandingLowered(xs[..i], ys[..i]);
  }

  lemma EasedStaysSound(s: State, z: State)
    requires Sound(s) && Eased(s.mandates, s.debits, z.mandates, z.debits)
    requires forall d <- z.debits :: Total(d.takings) <= d.amount && (d.takings != [] ==> d.operation == Reserve)
    ensures Sound(z)
  {
    forall i | 0 <= i < |z.debits| ensures SoundDebit(z.mandates, z.debits[i]) && HoldFits(z.mandates, z.debits, i) {
      assert SoundDebit(s.mandates, s.debits[i]);
      assert z.debits[i] in z.debits;
      EasedHoldFits(s.mandates, s.debits, z.mandates, z.debits, i);
    }
  }

  lemma MandatesGrow(mandates: seq<Mandate>, granted: Mandate, debits: seq<Debit>)
    ensures Eased(mandates, debits, Granted(mandates, granted), debits)
    ensures Eased(mandates, debits, Revoked(mandates), debits)
  {
  }

  lemma PassedDrawFits(s: State, operation: MandateOperation, amount: u128, now: int)
    requires DrawPasses(s, operation, amount, now)
    ensures var m := s.mandates[|s.mandates| - 1];
            && amount <= m.caps.perOp && operation in m.operations && operation != BookFill
            && Drawn(s.debits, now - Windows.DAY) + amount <= m.caps.per24h
            && (operation == Reserve ==> Outstanding(s.debits) + amount <= m.caps.outstanding)
  {
  }

  lemma AskedStaysSound(s: State, operation: MandateOperation, amount: u128, now: int)
    requires Sound(s) && DrawPasses(s, operation, amount, now)
    ensures Sound(Asked(s, operation, amount, now))
  {
    var z := Asked(s, operation, amount, now);
    PassedDrawFits(s, operation, amount, now);
    forall i | 0 <= i < |z.debits| ensures SoundDebit(z.mandates, z.debits[i]) && HoldFits(z.mandates, z.debits, i) {
      if i < |s.debits| {
        assert SoundDebit(s.mandates, s.debits[i]) && HoldFits(s.mandates, s.debits, i);
        assert z.debits[..i] == s.debits[..i];
      } else {
        assert z.debits[..i] == s.debits;
      }
    }
  }

  lemma LessStands(d: Debit, taken: nat, now: int)
    requires 0 < taken <= d.Outstanding()
    ensures var z := d.Less(taken, now);
            Total(z.takings) <= z.amount && z.operation == Reserve && z.Outstanding() <= d.Outstanding() && z.Worth() == d.Worth()
  {
    TakenAppended(d.takings, Taking(taken, now), now);
  }

  lemma CapturedStaysSound(s: State, index: nat, amount: u128, elsewhere: bool, now: int)
    requires Sound(s) && CapturePasses(s, index, amount, elsewhere, now)
    ensures Sound(Captured(s, index, amount, elsewhere, now))
  {
    var z := Captured(s, index, amount, elsewhere, now);
    LessStands(s.debits[index], amount, now);
    forall e <- z.debits ensures Total(e.takings) <= e.amount && (e.takings != [] ==> e.operation == Reserve) {
      var i :| 0 <= i < |z.debits| && z.debits[i] == e;
      if i != index {
        assert SoundDebit(s.mandates, s.debits[i]);
      }
    }
    EasedStaysSound(s, z);
  }

  lemma EndedStaysSound(s: State, index: nat)
    requires Sound(s)
    ensures Sound(s.(debits := Ended(s.debits, index)))
  {
    var z := s.(debits := Ended(s.debits, index));
    forall e <- z.debits ensures Total(e.takings) <= e.amount && (e.takings != [] ==> e.operation == Reserve) {
      var i :| 0 <= i < |z.debits| && z.debits[i] == e;
      assert SoundDebit(s.mandates, s.debits[i]);
    }
    EasedStaysSound(s, z);
  }

  lemma TakeStaysSound(s: State, step: Step)
    requires Sound(s)
    ensures Sound(Take(s, step))
  {
    match step
    case Grant(caps, operations, expiresAt, _) =>
      MandatesGrow(s.mandates, Mandate(caps, operations, expiresAt, false, false), s.debits);
      EasedStaysSound(s, Take(s, step));
    case Revoke(_) =>
      MandatesGrow(s.mandates, Mandate(Caps(0, 0, 0, None), [], None, false, false), s.debits);
      EasedStaysSound(s, Take(s, step));
    case Ask(operation, amount, now) =>
      if DrawPasses(s, operation, amount, now) {
        AskedStaysSound(s, operation, amount, now);
      }
    case Capture(index, amount, elsewhere, now) =>
      if CapturePasses(s, index, amount, elsewhere, now) {
        CapturedStaysSound(s, index, amount, elsewhere, now);
      }
    case End(index, _) => EndedStaysSound(s, index);
  }

  // ----- the two logs stay kept -----

  lemma WorthsWithout(mandates: seq<Mandate>, debits: seq<Debit>)
    requires debits != []
    ensures var n := |debits| - 1;
            Worths(mandates, debits)[..n] == Worths(mandates, debits[..n])
            && Worths(mandates, debits)[n] == Windows.Entry(DayCap(mandates, debits[n]), debits[n].Worth(), debits[n].at)
  {
  }

  lemma WorthsAppended(mandates: seq<Mandate>, debits: seq<Debit>, d: Debit)
    ensures Worths(mandates, debits + [d]) == Worths(mandates, debits) + [Windows.Entry(DayCap(mandates, d), d.Worth(), d.at)]
  {
  }

  lemma {:induction false} WorthsAreDrawn(mandates: seq<Mandate>, debits: seq<Debit>, from: int, to: int)
    ensures Windows.Sum(Worths(mandates, debits), Any(), from, to) <= Drawn(debits, from)
  {
    if debits != [] {
      WorthsAreDrawn(mandates, debits[..|debits| - 1], from, to);
      WorthsWithout(mandates, debits);
    }
  }

  lemma AskedStaysKept(s: State, operation: MandateOperation, amount: u128, now: int)
    requires Kept(s) && NotAfter(s, now) && DrawPasses(s, operation, amount, now)
    ensures Kept(Asked(s, operation, amount, now))
  {
    var d := Debit(operation, |s.mandates| - 1, amount, now, [], false);
    PassedDrawFits(s, operation, amount, now);
    WorthsAppended(s.mandates, s.debits, d);
    WorthsAreDrawn(s.mandates, s.debits, now - Windows.DAY, now);
    Windows.RecordingKeeps(Worths(s.mandates, s.debits), Windows.Entry(DayCap(s.mandates, d), d.Worth(), d.at), Any(), Any(), Itself());
  }

  lemma CapturedStaysKept(s: State, index: nat, amount: u128, elsewhere: bool, now: int)
    requires Kept(s) && NotAfter(s, now) && CapturePasses(s, index, amount, elsewhere, now)
    ensures Kept(Captured(s, index, amount, elsewhere, now))
  {
    var d, z := s.debits[index], Captured(s, index, amount, elsewhere, now);
    LessStands(d, amount, now);
    assert Worths(z.mandates, z.debits) == Worths(s.mandates, s.debits);
    if elsewhere {
      Windows.RecordingKeeps(s.fills, Windows.Entry(FillCapsOf(s, d.under), amount, now), AnyFill(), AnyFill(), Tighter());
    }
  }

  lemma EndedStaysKept(s: State, index: nat)
    requires Sound(s) && Kept(s)
    ensures Kept(s.(debits := Ended(s.debits, index)))
  {
    assert index < |s.debits| ==> SoundDebit(s.mandates, s.debits[index]);
    Windows.LoweringKeeps(Worths(s.mandates, s.debits), Worths(s.mandates, Ended(s.debits, index)), Any(), Any(), Itself());
  }

  lemma MandatesKeepWorths(s: State, after: seq<Mandate>)
    requires Sound(s) && Eased(s.mandates, s.debits, after, s.debits)
    ensures Worths(after, s.debits) == Worths(s.mandates, s.debits)
  {
    forall i | 0 <= i < |s.debits| ensures DayCap(after, s.debits[i]) == DayCap(s.mandates, s.debits[i]) {
      assert SoundDebit(s.mandates, s.debits[i]);
    }
  }

  lemma TakeStaysKept(s: State, step: Step)
    requires Sound(s) && Kept(s) && NotAfter(s, step.now)
    ensures Kept(Take(s, step)) && NotAfter(Take(s, step), step.now)
  {
    match step
    case Grant(caps, operations, expiresAt, _) =>
      MandatesGrow(s.mandates, Mandate(caps, operations, expiresAt, false, false), s.debits);
      MandatesKeepWorths(s, Take(s, step).mandates);
    case Revoke(_) =>
      MandatesGrow(s.mandates, Mandate(Caps(0, 0, 0, None), [], None, false, false), s.debits);
      MandatesKeepWorths(s, Take(s, step).mandates);
    case Ask(operation, amount, now) =>
      if DrawPasses(s, operation, amount, now) {
        AskedStaysKept(s, operation, amount, now);
      }
    case Capture(index, amount, elsewhere, now) =>
      if CapturePasses(s, index, amount, elsewhere, now) {
        CapturedStaysKept(s, index, amount, elsewhere, now);
      }
    case End(index, _) => EndedStaysKept(s, index);
  }

  /** Every run keeps each debit sound and each gate's log within the caps it was decided under. */
  lemma {:induction false} RunStaysKept(s: State, steps: seq<Step>, before: int, now: int)
    requires Sound(s) && Kept(s) && NotAfter(s, before) && before <= now
    requires Chronological(steps) && forall step <- steps :: before <= step.now <= now
    ensures Sound(Run(s, steps)) && Kept(Run(s, steps)) && NotAfter(Run(s, steps), now)
    decreases |steps|
  {
    if steps != [] {
      var first := steps[0];
      assert first in steps;
      TakeStaysSound(s, first);
      TakeStaysKept(s, first);
      forall step <- steps[1..] ensures first.now <= step.now <= now {
        var j :| 0 <= j < |steps| - 1 && steps[1..][j] == step;
        assert steps[j + 1] == step;
      }
      RunStaysKept(Take(s, first), steps[1..], first.now, now);
    }
  }

  /** No step of a run comes after `now`. */
  ghost predicate Until(steps: seq<Step>, now: int) {
    forall step <- steps :: step.now <= now
  }

  lemma RunFromNothing(steps: seq<Step>, now: int)
    requires Chronological(steps) && Until(steps, now)
    ensures Sound(Run(NOTHING, steps)) && Kept(Run(NOTHING, steps)) && NotAfter(Run(NOTHING, steps), now)
  {
    if steps != [] {
      assert steps[0] in steps;
      RunStaysKept(NOTHING, steps, steps[0].now, now);
    }
  }

  // ----- what every run promises -----

  /** Every draw is an operation its mandate lists, at most its cap for one, and gives at most what it is of. */
  lemma EachDrawIsBounded(steps: seq<Step>, now: int)
    requires Chronological(steps) && Until(steps, now)
    ensures var s := Run(NOTHING, steps);
            forall i :: 0 <= i < |s.debits| ==> SoundDebit(s.mandates, s.debits[i])
  {
    RunFromNothing(steps, now);
  }

  /** No debit made in the day after `from` was made under a mandate with a larger daily cap. */
  ghost predicate DayCapsWithin(s: State, from: int, most: nat) {
    forall i :: 0 <= i < |s.debits| && from < s.debits[i].at <= from + Windows.DAY ==> DayCap(s.mandates, s.debits[i]) <= most
  }

  /** In every day of every run, the holds placed and the charges made come to at most the cap they were made under. */
  lemma DrawsAreBounded(steps: seq<Step>, now: int, from: int, most: nat)
    requires Chronological(steps) && Until(steps, now)
    requires DayCapsWithin(Run(NOTHING, steps), from, most)
    ensures var s := Run(NOTHING, steps);
            Windows.Sum(Worths(s.mandates, s.debits), Any(), from, from + Windows.DAY) <= most
  {
    var s := Run(NOTHING, steps);
    RunFromNothing(steps, now);
    Windows.EveryDayIsWithin(Worths(s.mandates, s.debits), Any(), Any(), Itself(), from, most);
  }

  lemma {:induction false} DrawnSplits(mandates: seq<Mandate>, debits: seq<Debit>, from: int, to: int)
    requires forall d <- debits :: d.at <= to
    ensures Drawn(debits, from) == Windows.Sum(Worths(mandates, debits), Any(), from, to) + CapturedOfOlder(debits, from)
  {
    if debits != [] {
      assert debits[|debits| - 1] in debits;
      DrawnSplits(mandates, debits[..|debits| - 1], from, to);
      WorthsWithout(mandates, debits);
    }
  }

  /** All that is drawn in a day is at most the cap and what the day's captures took out of older holds. */
  lemma DebitsAreBounded(steps: seq<Step>, now: int, most: nat)
    requires Chronological(steps) && Until(steps, now)
    requires DayCapsWithin(Run(NOTHING, steps), now - Windows.DAY, most)
    ensures var s := Run(NOTHING, steps);
            Drawn(s.debits, now - Windows.DAY) <= most + CapturedOfOlder(s.debits, now - Windows.DAY)
  {
    var s := Run(NOTHING, steps);
    RunFromNothing(steps, now);
    DrawsAreBounded(steps, now, now - Windows.DAY, most);
    DrawnSplits(s.mandates, s.debits, now - Windows.DAY, now);
  }

  /** No hold that stands was placed under a mandate with a larger outstanding cap. */
  ghost predicate OutstandingCapsWithin(mandates: seq<Mandate>, debits: seq<Debit>, most: nat) {
    forall i :: 0 <= i < |debits| && debits[i].Outstanding() > 0 ==> OutstandingCap(mandates, debits[i]) <= most
  }

  lemma {:induction false} StandingIsBounded(mandates: seq<Mandate>, debits: seq<Debit>, most: nat)
    requires forall i :: 0 <= i < |debits| ==> SoundDebit(mandates, debits[i]) && HoldFits(mandates, debits, i)
    requires OutstandingCapsWithin(mandates, debits, most)
    ensures Outstanding(debits) <= most
  {
    if debits != [] {
      var n := |debits| - 1;
      assert SoundDebit(mandates, debits[n]) && HoldFits(mandates, debits, n);
      if debits[n].Outstanding() == 0 {
        forall i | 0 <= i < n ensures SoundDebit(mandates, debits[..n][i]) && HoldFits(mandates, debits[..n], i) {
          assert SoundDebit(mandates, debits[i]) && HoldFits(mandates, debits, i);
          assert debits[..n][..i] == debits[..i];
        }
        StandingIsBounded(mandates, debits[..n], most);
      }
    }
  }

  /** However long holds stand, they never hold more than the largest outstanding cap of those that stand. */
  lemma HoldsAreBounded(steps: seq<Step>, now: int, most: nat)
    requires Chronological(steps) && Until(steps, now)
    requires OutstandingCapsWithin(Run(NOTHING, steps).mandates, Run(NOTHING, steps).debits, most)
    ensures Outstanding(Run(NOTHING, steps).debits) <= most
  {
    var s := Run(NOTHING, steps);
    RunFromNothing(steps, now);
    StandingIsBounded(s.mandates, s.debits, most);
  }

  /**
  In every day of every run, what goes to other users is within the tighter of the two caps it was admitted
  under, however mandates were replaced and revoked in between.
   */
  lemma BookFillsAreBounded(steps: seq<Step>, now: int, from: int, most: nat)
    requires Chronological(steps) && Until(steps, now)
    requires Windows.CapsWithin(Run(NOTHING, steps).fills, AnyFill(), Tighter(), from, most)
    ensures Windows.Sum(Run(NOTHING, steps).fills, AnyFill(), from, from + Windows.DAY) <= most
  {
    RunFromNothing(steps, now);
    Windows.EveryDayIsWithin(Run(NOTHING, steps).fills, AnyFill(), AnyFill(), Tighter(), from, most);
  }

  // ----- when everything drawn stays within the cap -----

  lemma {:induction false} DrawnFalls(debits: seq<Debit>, from: int, from': int)
    requires from <= from' && forall d <- debits :: Total(d.takings) <= d.amount
    ensures Drawn(debits, from') <= Drawn(debits, from)
  {
    if debits != [] {
      var last := debits[|debits| - 1];
      assert last in debits;
      TakenAtMostTotal(last.takings, from, from');
      DrawnFalls(debits[..|debits| - 1], from, from');
    }
  }

  ghost predicate Within(s: State, now: int, cap: nat) {
    Drawn(s.debits, now - Windows.DAY) <= cap
  }

  /** After every step of the run, all that was drawn in the day before it is within the cap. */
  ghost predicate AlwaysWithin(s: State, steps: seq<Step>, cap: nat)
    decreases |steps|
  {
    steps == [] || (Within(Take(s, steps[0]), steps[0].now, cap) && AlwaysWithin(Take(s, steps[0]), steps[1..], cap))
  }

  /** A capture of a hold placed a day ago or earlier, which nothing compares with the cap, fits it all the same. */
  predicate OldCaptureFits(s: State, step: Step, cap: nat) {
    step.Capture? && CapturePasses(s, step.index, step.amount, step.elsewhere, step.now) && s.debits[step.index].at <= step.now - Windows.DAY
    ==> Drawn(s.debits, step.now - Windows.DAY) + step.amount <= cap
  }

  predicate OldCapturesFit(s: State, steps: seq<Step>, cap: nat)
    decreases |steps|
  {
    steps == [] || (OldCaptureFits(s, steps[0], cap) && OldCapturesFit(Take(s, steps[0]), steps[1..], cap))
  }

  ghost predicate MandatesWithin(mandates: seq<Mandate>, cap: nat) {
    forall m <- mandates :: m.caps.per24h <= cap
  }

  lemma SoundDebitsGiveWhatTheyAreOf(s: State)
    requires Sound(s)
    ensures forall d <- s.debits :: Total(d.takings) <= d.amount
  {
    forall d <- s.debits ensures Total(d.takings) <= d.amount {
      var i :| 0 <= i < |s.debits| && s.debits[i] == d;
      assert SoundDebit(s.mandates, s.debits[i]);
    }
  }

  lemma CaptureDraws(s: State, index: nat, amount: u128, elsewhere: bool, now: int)
    requires CapturePasses(s, index, amount, elsewhere, now)
    ensures Drawn(Captured(s, index, amount, elsewhere, now).debits, now - Windows.DAY)
            == Drawn(s.debits, now - Windows.DAY) + if s.debits[index].at <= now - Windows.DAY then amount else 0
  {
    var d := s.debits[index];
    TakenAppended(d.takings, Taking(amount, now), now - Windows.DAY);
    LessStands(d, amount, now);
    DrawnUpdated(s.debits, index, d.Less(amount, now), now - Windows.DAY);
  }

  lemma EndDrawsNoMore(s: State, index: nat, from: int)
    requires Sound(s)
    ensures Drawn(Ended(s.debits, index), from) <= Drawn(s.debits, from)
  {
    if index < |s.debits| {
      assert SoundDebit(s.mandates, s.debits[index]);
      DrawnUpdated(s.debits, index, s.debits[index].(ended := true), from);
    }
  }

  lemma AskStaysWithin(s: State, operation: MandateOperation, amount: u128, now: int, cap: nat)
    requires MandatesWithin(s.mandates, cap) && DrawPasses(s, operation, amount, now)
    ensures Within(Asked(s, operation, amount, now), now, cap)
  {
    PassedDrawFits(s, operation, amount, now);
    assert s.mandates[|s.mandates| - 1] in s.mandates;
    DrawnAppended(s.debits, Debit(operation, |s.mandates| - 1, amount, now, [], false), now - Windows.DAY);
  }

  lemma CaptureStaysWithinIff(s: State, step: Step, cap: nat)
    requires step.Capture? && Within(s, step.now, cap)
    ensures Within(Take(s, step), step.now, cap) <==> OldCaptureFits(s, step, cap)
  {
    if CapturePasses(s, step.index, step.amount, step.elsewhere, step.now) {
      CaptureDraws(s, step.index, step.amount, step.elsewhere, step.now);
    }
  }

  lemma StepStaysWithinIff(s: State, step: Step, before: int, cap: nat)
    requires Sound(s) && Within(s, before, cap) && before <= step.now && MandatesWithin(s.mandates, cap)
    ensures Within(Take(s, step), step.now, cap) <==> OldCaptureFits(s, step, cap)
  {
    SoundDebitsGiveWhatTheyAreOf(s);
    DrawnFalls(s.debits, before - Windows.DAY, step.now - Windows.DAY);
    assert Within(s, step.now, cap);
    match step
    case Grant(_, _, _, _) =>
    case Revoke(_) =>
    case Ask(operation, amount, now) =>
      if DrawPasses(s, operation, amount, now) {
        AskStaysWithin(s, operation, amount, now, cap);
      }
    case Capture(_, _, _, _) => CaptureStaysWithinIff(s, step, cap);
    case End(index, now) => EndDrawsNoMore(s, index, now - Windows.DAY);
  }

  lemma GrantsStayWithin(mandates: seq<Mandate>, step: Step, cap: nat, s: State)
    requires s.mandates == mandates && MandatesWithin(mandates, cap) && (step.Grant? ==> step.caps.per24h <= cap)
    ensures MandatesWithin(Take(s, step).mandates, cap)
  {
  }

  lemma {:induction false} RunStaysWithinIff(s: State, steps: seq<Step>, before: int, cap: nat)
    requires Sound(s) && Within(s, before, cap) && MandatesWithin(s.mandates, cap)
    requires Chronological(steps) && (steps != [] ==> before <= steps[0].now)
    requires forall step <- steps :: step.Grant? ==> step.caps.per24h <= cap
    ensures AlwaysWithin(s, steps, cap) <==> OldCapturesFit(s, steps, cap)
    decreases |steps|
  {
    if steps != [] {
      assert steps[0] in steps;
      StepStaysWithinIff(s, steps[0], before, cap);
      TakeStaysSound(s, steps[0]);
      GrantsStayWithin(s.mandates, steps[0], cap, s);
      if OldCaptureFits(s, steps[0], cap) {
        RunStaysWithinIff(Take(s, steps[0]), steps[1..], steps[0].now, cap);
      }
    }
  }

  /**
  Over every run under mandates of a daily cap, all that is drawn stays within the cap throughout exactly
  when every capture of a hold of a day ago or earlier fitted it when it was made.
   */
  lemma DrawnWithinTheCapIff(steps: seq<Step>, cap: nat)
    requires Chronological(steps) && forall step <- steps :: step.Grant? ==> step.caps.per24h <= cap
    ensures AlwaysWithin(NOTHING, steps, cap) <==> OldCapturesFit(NOTHING, steps, cap)
  {
    RunStaysWithinIff(NOTHING, steps, if steps == [] then 0 else steps[0].now, cap);
  }

  function TenADay(): Mandate {
    Mandate(Caps(10, 10, 10, None), [Reserve, Charge], None, false, false)
  }

  function HeldTen(): Debit {
    Debit(Reserve, 0, 10, 0, [], false)
  }

  lemma AHoldPasses()
    ensures DrawPasses(State([TenADay()], [], []), Reserve, 10, 0)
  {
  }

  lemma AChargePassesADayLater()
    ensures DrawPasses(State([TenADay()], [HeldTen()], []), Charge, 10, 100_000)
    ensures Drawn([HeldTen()], 100_001 - Windows.DAY) == 0
  {
    DrawnAppended([], HeldTen(), 100_000 - Windows.DAY);
    DrawnAppended([], HeldTen(), 100_001 - Windows.DAY);
  }

  function TwiceTheCap(): seq<Step> {
    [Grant(TenADay().caps, TenADay().operations, None, 0), Ask(Reserve, 10, 0), Ask(Charge, 10, 100_000), Capture(0, 10, false, 100_001)]
  }

  function ChargedTen(): Debit {
    Debit(Charge, 0, 10, 100_000, [], false)
  }

  lemma TenHeldAndTenCharged()
    ensures Take(Take(Take(NOTHING, TwiceTheCap()[0]), TwiceTheCap()[1]), TwiceTheCap()[2])
         == State([TenADay()], [HeldTen(), ChargedTen()], [])
  {
    assert Take(NOTHING, TwiceTheCap()[0]) == State([TenADay()], [], []);
    AHoldPasses();
    assert Take(State([TenADay()], [], []), TwiceTheCap()[1]) == State([TenADay()], [HeldTen()], []);
    AChargePassesADayLater();
  }

  lemma TheCaptureIsTaken()
    ensures Drawn(Take(State([TenADay()], [HeldTen(), ChargedTen()], []), TwiceTheCap()[3]).debits, 100_001 - Windows.DAY) == 20
  {
    var s := State([TenADay()], [HeldTen(), ChargedTen()], []);
    AChargePassesADayLater();
    DrawnAppended([HeldTen()], ChargedTen(), 100_001 - Windows.DAY);
    assert CapturePasses(s, 0, 10, false, 100_001);
    CaptureDraws(s, 0, 10, false, 100_001);
  }

  /** It is a run in order of time, under mandates of a daily cap of ten. */
  lemma TwiceTheCapIsARun()
    ensures Chronological(TwiceTheCap()) && forall step <- TwiceTheCap() :: step.Grant? ==> step.caps.per24h == 10
  {
  }

  /** A hold captured a day late passes the cap: twice the cap of ten is drawn within a day. */
  lemma OldCapturesPassTheCap()
    ensures Drawn(Run(NOTHING, TwiceTheCap()).debits, 100_001 - Windows.DAY) == 20
  {
    TenHeldAndTenCharged();
    TheCaptureIsTaken();
    FourSteps(TwiceTheCap());
  }

  lemma FourSteps(steps: seq<Step>)
    requires |steps| == 4
    ensures Run(NOTHING, steps) == Take(Take(Take(Take(NOTHING, steps[0]), steps[1]), steps[2]), steps[3])
  {
    var s1 := Take(NOTHING, steps[0]);
    var s2 := Take(s1, steps[1]);
    var s3 := Take(s2, steps[2]);
    assert steps[1..][1..] == steps[2..] && steps[2..][1..] == steps[3..];
    assert Run(s1, steps[1..]) == Run(s2, steps[2..]);
    assert Run(s2, steps[2..]) == Run(s3, steps[3..]);
    assert Run(s3, steps[3..]) == Run(Take(s3, steps[3]), []);
  }

  // ----- the terms of a mandate -----

  function Listed(operations: seq<MandateOperation>, operation: MandateOperation): nat {
    if operations == [] then 0
    else Listed(operations[..|operations| - 1], operation) + if operations[|operations| - 1] == operation then 1 else 0
  }

  predicate Once(operations: seq<MandateOperation>) {
    forall i, j :: 0 <= i < j < |operations| ==> operations[i] != operations[j]
  }

  /** The rules every mandate's terms obey. */
  predicate SoundTerms(scope: Ledger.ScopeId, caps: Caps, operations: seq<MandateOperation>) {
    && scope != "main"
    && 0 < caps.perOp <= caps.per24h && caps.perOp <= caps.outstanding
    && operations != [] && Once(operations)
    && (BookFill in operations <==> caps.bookFill24h.Some?)
    && (caps.bookFill24h.Some? ==> caps.bookFill24h.value > 0)
  }

  /** The caps are sound exactly when the whole cap of one operation may be held at once, and is something. */
  lemma SoundCapsAdmitTheWholeCap(caps: Caps, now: int)
    ensures 0 < caps.perOp <= caps.per24h && caps.perOp <= caps.outstanding <==>
              && caps.perOp > 0
              && AdmitDraw(Mandate(caps, [Reserve], None, false, false), Reserve, caps.perOp, Usage(0, 0, 0), now).Ok?
  {
  }

  /** Which terms are accepted, and what they list: of the three operations each at most once, and at least one. */
  lemma SoundTermsIff(scope: Ledger.ScopeId, caps: Caps, operations: seq<MandateOperation>, now: int)
    ensures SoundTerms(scope, caps, operations) <==>
              && scope != "main" && caps.perOp > 0
              && AdmitDraw(Mandate(caps, [Reserve], None, false, false), Reserve, caps.perOp, Usage(0, 0, 0), now).Ok?
              && 1 <= |operations| && (forall o :: multiset(operations)[o] <= 1)
              && (if BookFill in operations then caps.bookFill24h.Some? && caps.bookFill24h.value >= 1 else caps.bookFill24h.None?)
  {
    SoundCapsAdmitTheWholeCap(caps, now);
    if Once(operations) {
      forall o ensures multiset(operations)[o] <= 1 {
        ListedTwiceIsTwice(operations, o);
      }
    }
    if forall o :: multiset(operations)[o] <= 1 {
      forall i, j | 0 <= i < j < |operations| ensures operations[i] != operations[j] {
        if operations[i] == operations[j] {
          Sorting.TwiceIsTwo(operations, i, j);
        }
      }
    }
  }

  lemma {:induction false} ListedMeans(operations: seq<MandateOperation>, operation: MandateOperation)
    ensures Listed(operations, operation) == multiset(operations)[operation]
  {
    if operations != [] {
      ListedMeans(operations[..|operations| - 1], operation);
      assert operations == operations[..|operations| - 1] + [operations[|operations| - 1]];
    }
  }

  lemma {:induction false} ListedTwiceIsTwice(operations: seq<MandateOperation>, o: MandateOperation)
    requires Once(operations)
    ensures multiset(operations)[o] == if o in operations then 1 else 0
  {
    if operations != [] {
      var before, last := operations[..|operations| - 1], operations[|operations| - 1];
      ListedTwiceIsTwice(before, o);
      assert operations == before + [last];
    }
  }

  /** One operation looked for among those listed: put after the others when it stands there once. */
  method TakeUp(ordered: seq<MandateOperation>, operations: seq<MandateOperation>, operation: MandateOperation)
    returns (r: Option<seq<MandateOperation>>)
    ensures r.None? ==> !Once(operations)
    ensures r.Some? ==> multiset(operations)[operation] == if operation in operations then 1 else 0
    ensures r.Some? ==> r.value == ordered + if operation in operations then [operation] else []
  {
    ListedMeans(operations, operation);
    var n := Listed(operations, operation);
    if Once(operations) {
      ListedTwiceIsTwice(operations, operation);
    }
    if n > 1 {
      return None;
    }
    return Some(ordered + if n == 1 then [operation] else []);
  }

  function Part(operations: seq<MandateOperation>, operation: MandateOperation): seq<MandateOperation> {
    if operation in operations then [operation] else []
  }

  /** The operations each once, in their own order, if none is listed twice. */
  method InTheirOrder(operations: seq<MandateOperation>) returns (r: Option<seq<MandateOperation>>)
    ensures r.Some? <==> Once(operations)
    ensures r.Some? ==> r.value == Part(operations, Reserve) + Part(operations, Charge) + Part(operations, BookFill)
  {
    var ordered: seq<MandateOperation> := [];
    for i := 0 to 3
      invariant ordered == (if i > 0 then Part(operations, Reserve) else []) + (if i > 1 then Part(operations, Charge) else [])
                           + (if i > 2 then Part(operations, BookFill) else [])
      invariant i > 0 ==> multiset(operations)[Reserve] <= 1
      invariant i > 1 ==> multiset(operations)[Charge] <= 1
      invariant i > 2 ==> multiset(operations)[BookFill] <= 1
    {
      var taken := TakeUp(ordered, operations, ALL_OPERATIONS[i]);
      if taken.None? {
        return None;
      }
      ordered := taken.value;
    }
    forall i, j | 0 <= i < j < |operations| ensures operations[i] != operations[j] {
      if operations[i] == operations[j] {
        Sorting.TwiceIsTwo(operations, i, j);
      }
    }
    return Some(ordered);
  }

  lemma SomethingIsTaken(operations: seq<MandateOperation>)
    ensures Part(operations, Reserve) + Part(operations, Charge) + Part(operations, BookFill) == [] <==> operations == []
  {
    var parts := Part(operations, Reserve) + Part(operations, Charge) + Part(operations, BookFill);
    assert |parts| == |Part(operations, Reserve)| + |Part(operations, Charge)| + |Part(operations, BookFill)|;
    if operations != [] {
      var first := operations[0];
      assert first in operations;
      assert first == Reserve || first == Charge || first == BookFill;
      assert |Part(operations, first)| == 1;
    }
  }

  /** The terms checked, and the operations put in their own order. */
  method CheckTerms(scope: Ledger.ScopeId, caps: Caps, operations: seq<MandateOperation>)
    returns (r: Result<seq<MandateOperation>, DomainError>)
    ensures r.Ok? <==> SoundTerms(scope, caps, operations)
    ensures r.Ok? ==> r.value == Part(operations, Reserve) + Part(operations, Charge) + Part(operations, BookFill)
    ensures r.Err? ==> r.error == Validation
  {
    if scope == "main" || caps.perOp == 0 || caps.per24h < caps.perOp || caps.outstanding < caps.perOp {
      return Err(Validation);
    }
    var ordered := InTheirOrder(operations);
    if ordered.None? {
      return Err(Validation);
    }
    SomethingIsTaken(operations);
    if ordered.value == [] {
      return Err(Validation);
    }
    if BookFill in ordered.value {
      if caps.bookFill24h.None? || caps.bookFill24h.value == 0 {
        return Err(Validation);
      }
    } else if caps.bookFill24h.Some? {
      return Err(Validation);
    }
    return Ok(ordered.value);
  }
}
