/**
Holds on a user's compartment (domain/src/scope_ledger.rs): placed, captured in parts, released by
the client, the user or the clock. A hold is one standing reservation at a time; its events are
replayed on a ledger that other activity shares.
 */
module Holds {
  import opened Base
  import opened Money
  import opened Ledger
  import opened Flows

  datatype HoldState = Active | Captured | Voided | Expired

  datatype Refusal = HoldNotActive | InsufficientFunds

  datatype HoldError = Refused(refusal: Refusal) | Invalid(error: DomainError)

  datatype HoldTerms = HoldTerms(scope: ScopeId, user: UserId, amount: u128, expiresAt: Option<int>)

  datatype Progress = Progress(captured: u128, state: HoldState, version: nat, pendingVersion: nat)

  datatype HoldEvent =
    | PlacedEvent(amount: u128, version: nat)
    | CapturedEvent(version: nat, released: nat, held: u128, amount: u128, destination: HoldDestination)
    | ReleasedEvent(version: nat, released: nat, held: u128, expired: bool)

  const MAIN_SCOPE: ScopeId := "main"

  datatype HoldView = HoldView(id: Uuid, terms: HoldTerms, progress: Progress) {
    /** What can still be captured or released. */
    function Remaining(): u128 {
      if progress.state == Active && progress.captured <= terms.amount then terms.amount - progress.captured else 0
    }

    predicate IsDue(now: int) {
      progress.state == Active && terms.expiresAt.Some? && terms.expiresAt.value <= now
    }
  }

  function PlaceHold(id: Uuid, terms: HoldTerms): Result<(HoldView, seq<HoldEvent>), DomainError> {
    if terms.amount == 0 || terms.scope == MAIN_SCOPE then Err(Validation)
    else Ok((HoldView(id, terms, Progress(0, Active, 1, 1)), [PlacedEvent(terms.amount, 1)]))
  }

  /** A capture: the hold after it, the events it raises, and the answer. */
  function CaptureHold(h: HoldView, amount: Option<u128>, to: HoldDestination, now: int)
    : (HoldView, seq<HoldEvent>, Result<u128, HoldError>)
  {
    if to == ToUser(h.terms.user) then (h, [], Err(Invalid(Validation)))
    else if h.progress.state != Active || h.IsDue(now) then (h, [], Err(Refused(HoldNotActive)))
    else
      var held := h.Remaining();
      var taken := amount.GetOr(held);
      if taken == 0 then (h, [], Err(Invalid(Validation)))
      else if taken > held then (h, [], Err(Refused(InsufficientFunds)))
      else
        var version := h.progress.version + 1;
        var p := h.progress.(captured := h.progress.captured + taken, version := version);
        var p' := if taken == held then p.(state := Captured) else p.(pendingVersion := version);
        (h.(progress := p'), [CapturedEvent(version, h.progress.pendingVersion, held, taken, to)], Ok(taken))
  }

  function ReleaseHold(h: HoldView, state: HoldState): (HoldView, seq<HoldEvent>, bool) {
    var version := h.progress.version + 1;
    (h.(progress := h.progress.(version := version, state := state)),
     [ReleasedEvent(version, h.progress.pendingVersion, h.Remaining(), state == Expired)],
     true)
  }

  /** A void by the client or by the user's revoke: an expiry that already passed decided first. */
  function VoidHold(h: HoldView, now: int): (HoldView, seq<HoldEvent>, bool) {
    if h.IsDue(now) then ReleaseHold(h, Expired)
    else if h.progress.state == Active then ReleaseHold(h, Voided)
    else (h, [], false)
  }

  function ExpireHold(h: HoldView, now: int): (HoldView, seq<HoldEvent>, bool) {
    if h.IsDue(now) then ReleaseHold(h, Expired) else (h, [], false)
  }

  /** The hold aggregate: `progress` changes in place and events collect in `pending`. */
  class Hold {
    const id: Uuid
    const terms: HoldTerms
    var progress: Progress
    var pending: seq<HoldEvent>

    function View(): HoldView
      reads this
    {
      HoldView(id, terms, progress)
    }

    /** `place`, once its terms are known to be placeable. */
    constructor (id: Uuid, terms: HoldTerms)
      requires PlaceHold(id, terms).Ok?
      ensures PlaceHold(id, terms) == Ok((View(), pending))
    {
      this.id, this.terms := id, terms;
      progress := Progress(0, Active, 1, 1);
      pending := [PlacedEvent(terms.amount, 1)];
    }

    method Capture(amount: Option<u128>, to: HoldDestination, now: int) returns (r: Result<u128, HoldError>)
      modifies this
      ensures var (view, events, answer) := CaptureHold(old(View()), amount, to, now);
              View() == view && pending == old(pending) + events && r == answer
    {
      if to == ToUser(terms.user) {
        return Err(Invalid(Validation));
      }
      if progress.state != Active || View().IsDue(now) {
        return Err(Refused(HoldNotActive));
      }
      var held := View().Remaining();
      var taken := amount.GetOr(held);
      if taken == 0 {
        return Err(Invalid(Validation));
      }
      if taken > held {
        return Err(Refused(InsufficientFunds));
      }
      var version := progress.version + 1;
      var released := progress.pendingVersion;
      progress := progress.(captured := progress.captured + taken);
      progress := progress.(version := version);
      if taken == held {
        progress := progress.(state := Captured);
      } else {
        progress := progress.(pendingVersion := version);
      }
      pending := pending + [CapturedEvent(version, released, held, taken, to)];
      return Ok(taken);
    }

    method Void(now: int) returns (r: bool)
      modifies this
      ensures var (view, events, answer) := VoidHold(old(View()), now);
              View() == view && pending == old(pending) + events && r == answer
    {
      if View().IsDue(now) {
        r := Release(Expired);
      } else if progress.state == Active {
        r := Release(Voided);
      } else {
        r := false;
      }
    }

    method Expire(now: int) returns (r: bool)
      modifies this
      ensures var (view, events, answer) := ExpireHold(old(View()), now);
              View() == view && pending == old(pending) + events && r == answer
    {
      if View().IsDue(now) {
        r := Release(Expired);
      } else {
        r := false;
      }
    }

    method Release(state: HoldState) returns (r: bool)
      modifies this
      ensures var (view, events, answer) := ReleaseHold(old(View()), state);
              View() == view && pending == old(pending) + events && r == answer
    {
      var held := View().Remaining();
      var version := progress.version + 1;
      progress := progress.(version := version);
      progress := progress.(state := state);
      pending := pending + [ReleasedEvent(version, progress.pendingVersion, held, state == Expired)];
      return true;
    }
  }

  // ----- runs of one hold -----

  datatype Command =
    | DoCapture(amount: Option<u128>, to: HoldDestination, now: int)
    | DoVoid(now: int)
    | DoExpire(now: int)

  function Step(h: HoldView, c: Command): (HoldView, seq<HoldEvent>) {
    match c
    case DoCapture(amount, to, now) =>
      var (h', events, _) := CaptureHold(h, amount, to, now);
      (h', events)
    case DoVoid(now) =>
      var (h', events, _) := VoidHold(h, now);
      (h', events)
    case DoExpire(now) =>
      var (h', events, _) := ExpireHold(h, now);
      (h', events)
  }

  /** The hold and every event it raised, after a run of commands. */
  function History(h: HoldView, events: seq<HoldEvent>, commands: seq<Command>): (HoldView, seq<HoldEvent>)
    decreases |commands|
  {
    if commands == [] then (h, events)
    else
      var (h', more) := Step(h, commands[0]);
      History(h', events + more, commands[1..])
  }

  /** The reservation a history leaves standing: its version and its worth. */
  datatype Standing = Nothing | Reserved(version: nat, worth: nat)

  /** Replaying one event on what stands; `None` when it names a reservation that does not stand. */
  function ReplayEvent(s: Standing, e: HoldEvent): Option<Standing> {
    match e
    case PlacedEvent(amount, version) => if s == Nothing then Some(Reserved(version, amount)) else None
    case CapturedEvent(version, released, held, amount, _) =>
      if s != Reserved(released, held) || amount > held then None
      else if amount < held then Some(Reserved(version, held - amount))
      else Some(Nothing)
    case ReleasedEvent(_, released, held, _) => if s == Reserved(released, held) then Some(Nothing) else None
  }

  function Replay(events: seq<HoldEvent>): Option<Standing> {
    if events == [] then Some(Nothing)
    else
      var s :- Replay(events[..|events| - 1]);
      ReplayEvent(s, events[|events| - 1])
  }

  lemma ReplayAppend(events: seq<HoldEvent>, e: HoldEvent)
    requires Replay(events).Some?
    ensures Replay(events + [e]) == ReplayEvent(Replay(events).value, e)
  {
    assert (events + [e])[..|events|] == events;
  }

  function CapturedIn(events: seq<HoldEvent>): nat {
    if events == [] then 0
    else
      var last := events[|events| - 1];
      CapturedIn(events[..|events| - 1]) + if last.CapturedEvent? then last.amount else 0
  }

  function ReleasedIn(events: seq<HoldEvent>): nat {
    if events == [] then 0
    else
      var last := events[|events| - 1];
      ReleasedIn(events[..|events| - 1]) + if last.ReleasedEvent? then last.held else 0
  }

  lemma TotalsAppend(events: seq<HoldEvent>, e: HoldEvent)
    ensures CapturedIn(events + [e]) == CapturedIn(events) + if e.CapturedEvent? then e.amount else 0
    ensures ReleasedIn(events + [e]) == ReleasedIn(events) + if e.ReleasedEvent? then e.held else 0
  {
    assert (events + [e])[..|events|] == events;
  }

  /** What a hold placed and run so far keeps, between its fields and its events. */
  ghost predicate Coherent(h: HoldView, events: seq<HoldEvent>) {
    && h.terms.amount > 0
    && h.progress.captured <= h.terms.amount
    && h.progress.pendingVersion <= h.progress.version
    && (h.progress.state == Active ==> h.progress.captured < h.terms.amount)
    && Replay(events) == Some(if h.progress.state == Active then Reserved(h.progress.pendingVersion, h.Remaining()) else Nothing)
    && CapturedIn(events) == h.progress.captured
    && CapturedIn(events) + ReleasedIn(events) + h.Remaining() == h.terms.amount
  }

  lemma StepCoherent(h: HoldView, events: seq<HoldEvent>, c: Command)
    requires Coherent(h, events)
    ensures var (h', more) := Step(h, c); Coherent(h', events + more)
  {
    var (h', more) := Step(h, c);
    if more == [] {
      assert events + more == events;
    } else {
      ReplayAppend(events, more[0]);
      TotalsAppend(events, more[0]);
    }
  }

  lemma {:induction false} HistoryCoherent(h: HoldView, events: seq<HoldEvent>, commands: seq<Command>)
    requires Coherent(h, events)
    ensures var (h', all) := History(h, events, commands); Coherent(h', all) && h'.terms == h.terms
    decreases |commands|
  {
    if commands != [] {
      StepCoherent(h, events, commands[0]);
      var (h', more) := Step(h, commands[0]);
      HistoryCoherent(h', events + more, commands[1..]);
    }
  }

  /**
  Over every run from placement: replaying the events never names a reservation that does not stand;
  what stands is the one numbered `pendingVersion` and worth what remains while the hold is active,
  and nothing otherwise; and captured, released and remaining always add up to what was held.
   */
  lemma EveryHoldReplays(id: Uuid, terms: HoldTerms, commands: seq<Command>)
    requires PlaceHold(id, terms).Ok?
    ensures var (placed, first) := PlaceHold(id, terms).value;
            var (h, events) := History(placed, first, commands);
            && Replay(events) == Some(if h.progress.state == Active then Reserved(h.progress.pendingVersion, h.Remaining()) else Nothing)
            && CapturedIn(events) + ReleasedIn(events) + h.Remaining() == terms.amount
            && (h.progress.state == Active <==> h.Remaining() > 0)
  {
    var (placed, first) := PlaceHold(id, terms).value;
    assert first[..0] == [];
    HistoryCoherent(placed, first, commands);
  }

  // ----- on a shared ledger -----

  /** The fact the relay is told of an event. */
  function FactOf(h: HoldView, e: HoldEvent): Fact {
    match e
    case PlacedEvent(amount, version) => HoldPlaced(h.id, h.terms.scope, h.terms.user, amount, version)
    case CapturedEvent(version, released, held, amount, to) =>
      HoldCaptured(h.id, h.terms.scope, h.terms.user, version, released, held, amount, to)
    case ReleasedEvent(_, released, _, _) => HoldReleased(h.id, released)
  }

  predicate NamesHold(rid: ReservationId, id: Uuid) {
    rid.HoldReservation? && rid.id == id
  }

  function HoldTransfer(h: HoldView): Transfer {
    Transfer(ScopeClaim(h.terms.user, h.terms.scope), HoldClearing, h.Remaining())
  }

  /** On the ledger, the hold's one reservation stands while it is active, and none does otherwise. */
  ghost predicate StandsOn(l: State, h: HoldView) {
    && (forall i :: 0 <= i < |l.open| && NamesHold(l.open[i].id, h.id) ==>
          h.progress.state == Active && l.open[i].id == HoldReservation(h.id, h.progress.pendingVersion))
    && (h.progress.state == Active ==>
          ReservedTransfer(l.open, HoldReservation(h.id, h.progress.pendingVersion)) == Some(HoldTransfer(h)))
  }

  /** A ledger operation that is not about this hold. */
  predicate NotAbout(op: Op, id: Uuid) {
    match op
    case Post(_) => true
    case Reserve(r) => !NamesHold(r.id, id)
    case Settle(rid) => !NamesHold(rid, id)
    case Void(rid) => !NamesHold(rid, id)
  }

  lemma OtherOpsKeepStanding(l: State, h: HoldView, op: Op)
    requires StandsOn(l, h) && NotAbout(op, h.id)
    requires Apply(l, op).Some?
    ensures StandsOn(Apply(l, op).value, h)
  {
    var l' := Apply(l, op).value;
    match op {
      case Post(_) =>
      case Reserve(r) =>
        assert (l.open + [r])[..|l.open|] == l.open;
      case Settle(rid) =>
        WithoutStands(l, h, rid);
      case Void(rid) =>
        WithoutStands(l, h, rid);
    }
  }

  lemma WithoutStands(l: State, h: HoldView, rid: ReservationId)
    requires StandsOn(l, h) && !NamesHold(rid, h.id)
    ensures StandsOn(State(l.posted, Without(l.open, rid)), h)
  {
    WithoutIsSublist(l.open, rid);
    WithoutLookup(l.open, rid, HoldReservation(h.id, h.progress.pendingVersion));
    var w := Without(l.open, rid);
    forall i | 0 <= i < |w| && NamesHold(w[i].id, h.id)
      ensures h.progress.state == Active && w[i].id == HoldReservation(h.id, h.progress.pendingVersion)
    {
      assert w[i] in l.open;
    }
  }

  /** Voiding a reservation gives back to an account what it took from it. */
  lemma VoidGivesBack(l: State, rid: ReservationId, t: Transfer, k: AccountKey)
    requires DistinctIds(l.open) && ReservedTransfer(l.open, rid) == Some(t)
    ensures Available(l.(open := Without(l.open, rid)), k) == Available(l, k) + Takes(t, k)
  {
    HeldWithout(l.open, rid, k);
  }

  lemma NoneLeft(l: State, h: HoldView)
    requires StandsOn(l, h)
    ensures var w := Without(l.open, HoldReservation(h.id, h.progress.pendingVersion));
            forall i :: 0 <= i < |w| ==> !NamesHold(w[i].id, h.id)
  {
    var rid := HoldReservation(h.id, h.progress.pendingVersion);
    WithoutIsSublist(l.open, rid);
    var w := Without(l.open, rid);
    forall i | 0 <= i < |w| ensures !NamesHold(w[i].id, h.id) {
      assert w[i] in l.open;
    }
  }

  /** Voiding the hold's own reservation frees exactly what it held, and leaves none of this hold's. */
  lemma VoidFrees(l: State, h: HoldView)
    requires Guarded(l) && StandsOn(l, h) && h.progress.state == Active
    ensures var op := Op.Void(HoldReservation(h.id, h.progress.pendingVersion));
            && Apply(l, op).Some?
            && var l' := Apply(l, op).value;
               && Guarded(l')
               && Available(l', ScopeClaim(h.terms.user, h.terms.scope)) == Available(l, ScopeClaim(h.terms.user, h.terms.scope)) + h.Remaining()
               && (forall i :: 0 <= i < |l'.open| ==> !NamesHold(l'.open[i].id, h.id))
  {
    var rid := HoldReservation(h.id, h.progress.pendingVersion);
    ApplyKeepsGuard(l, Op.Void(rid));
    VoidGivesBack(l, rid, HoldTransfer(h), ScopeClaim(h.terms.user, h.terms.scope));
    NoneLeft(l, h);
  }

  lemma ReleaseSettles(l: State, h: HoldView, state: HoldState)
    requires Guarded(l) && StandsOn(l, h) && h.progress.state == Active && state != Active
    ensures var (h', events, _) := ReleaseHold(h, state);
            && ApplyChain(l, Plan(FactOf(h, events[0]))).Some?
            && var l' := ApplyChain(l, Plan(FactOf(h, events[0]))).value;
               Guarded(l') && StandsOn(l', h')
  {
    VoidFrees(l, h);
    var op := Op.Void(HoldReservation(h.id, h.progress.pendingVersion));
    var l1 := Apply(l, op).value;
    assert [op][1..] == [];
    assert ApplyChain(l1, []) == Some(l1);
  }

  /** The rest of a partly captured hold reserved anew on a ledger that holds nothing of it. */
  lemma RestReserved(l: State, h: HoldView)
    requires Guarded(l) && h.progress.state == Active && 0 < h.Remaining() <= Available(l, ScopeClaim(h.terms.user, h.terms.scope))
    requires forall i :: 0 <= i < |l.open| ==> !NamesHold(l.open[i].id, h.id)
    ensures var op := Op.Reserve(Reservation(HoldReservation(h.id, h.progress.pendingVersion), HoldTransfer(h)));
            Apply(l, op).Some? && Guarded(Apply(l, op).value) && StandsOn(Apply(l, op).value, h)
  {
    var r := Reservation(HoldReservation(h.id, h.progress.pendingVersion), HoldTransfer(h));
    ReservedTransferFinds(l.open, r.id);
    ReserveKeepsGuard(l, r);
    assert (l.open + [r])[..|l.open|] == l.open;
  }

  /** The captured part posted. */
  lemma PartPosted(l: State, h: HoldView, taken: u128, to: HoldDestination)
    requires Guarded(l) && to != ToUser(h.terms.user)
    requires 0 < taken <= Available(l, ScopeClaim(h.terms.user, h.terms.scope))
    ensures var op := Op.Post(Transfer(ScopeClaim(h.terms.user, h.terms.scope), to.Key(h.terms.scope), taken));
            && Apply(l, op).Some? && Guarded(Apply(l, op).value) && Apply(l, op).value.open == l.open
            && Available(Apply(l, op).value, ScopeClaim(h.terms.user, h.terms.scope))
               == Available(l, ScopeClaim(h.terms.user, h.terms.scope)) - taken
  {
    var t := Transfer(ScopeClaim(h.terms.user, h.terms.scope), to.Key(h.terms.scope), taken);
    PostKeepsGuard(l, t);
    PostedAppend(l.posted, t, ScopeClaim(h.terms.user, h.terms.scope));
  }

  /** The ledger operations of a capture after its void: post the part, reserve the rest. */
  function AfterVoid(h: HoldView, version: nat, taken: u128, held: u128, to: HoldDestination): seq<Op> {
    var claim := ScopeClaim(h.terms.user, h.terms.scope);
    [Op.Post(Transfer(claim, to.Key(h.terms.scope), taken))]
    + if taken < held then [Op.Reserve(Reservation(HoldReservation(h.id, version), Transfer(claim, HoldClearing, held - taken)))]
      else []
  }

  lemma RestIs(h: HoldView, h': HoldView, taken: u128, held: u128, to: HoldDestination)
    requires h'.id == h.id && h'.terms == h.terms && taken <= held
    requires taken < held ==> h'.Remaining() == held - taken
    ensures var post := Op.Post(Transfer(ScopeClaim(h.terms.user, h.terms.scope), to.Key(h.terms.scope), taken));
            AfterVoid(h, h'.progress.pendingVersion, taken, held, to)
            == if taken < held
               then [post, Op.Reserve(Reservation(HoldReservation(h.id, h'.progress.pendingVersion), HoldTransfer(h')))]
               else [post]
  {
  }

  /** What a capture does to a ledger whose reservation was voided. */
  lemma CaptureRest(l1: State, h: HoldView, h': HoldView, taken: u128, held: u128, to: HoldDestination)
    requires Guarded(l1)
    requires forall i :: 0 <= i < |l1.open| ==> !NamesHold(l1.open[i].id, h.id)
    requires h'.id == h.id && h'.terms == h.terms
    requires 0 < taken <= held <= Available(l1, ScopeClaim(h.terms.user, h.terms.scope))
    requires to != ToUser(h.terms.user)
    requires if taken < held then h'.progress.state == Active && h'.Remaining() == held - taken else h'.progress.state != Active
    ensures var rest := AfterVoid(h, h'.progress.pendingVersion, taken, held, to);
            && ApplyChain(l1, rest).Some?
            && Guarded(ApplyChain(l1, rest).value)
            && StandsOn(ApplyChain(l1, rest).value, h')
  {
    var post := Op.Post(Transfer(ScopeClaim(h.terms.user, h.terms.scope), to.Key(h.terms.scope), taken));
    PartPosted(l1, h, taken, to);
    if taken < held {
      RestReserved(Apply(l1, post).value, h');
      ChainOfTwo(l1, post, Op.Reserve(Reservation(HoldReservation(h.id, h'.progress.pendingVersion), HoldTransfer(h'))));
    } else {
      ChainOfOne(l1, post);
    }
    RestIs(h, h', taken, held, to);
  }

  lemma ChainOfOne(l: State, op: Op)
    ensures ApplyChain(l, [op]) == Apply(l, op)
  {
    assert [op][1..] == [];
    if Apply(l, op).Some? {
      assert ApplyChain(Apply(l, op).value, []) == Apply(l, op);
    }
  }

  lemma ChainOfTwo(l: State, op: Op, op': Op)
    requires Apply(l, op).Some?
    ensures ApplyChain(l, [op, op']) == Apply(Apply(l, op).value, op')
  {
    assert [op, op'][1..] == [op'];
    ChainOfOne(Apply(l, op).value, op');
  }

  /** What a capture changes, and the operations its fact stands for. */
  lemma CapturePlan(h: HoldView, amount: Option<u128>, to: HoldDestination, now: int) returns (taken: u128, held: u128)
    requires h.progress.captured <= h.terms.amount
    requires CaptureHold(h, amount, to, now).2.Ok?
    ensures held == h.Remaining() && 0 < taken <= held && to != ToUser(h.terms.user) && h.progress.state == Active
    ensures var (h', events, _) := CaptureHold(h, amount, to, now);
            && h'.id == h.id && h'.terms == h.terms
            && (if taken < held then h'.progress.state == Active && h'.Remaining() == held - taken else h'.progress.state != Active)
            && Plan(FactOf(h, events[0]))
               == [Op.Void(HoldReservation(h.id, h.progress.pendingVersion))] + AfterVoid(h, h'.progress.pendingVersion, taken, held, to)
  {
    taken, held := CaptureHold(h, amount, to, now).2.value, h.Remaining();
  }

  lemma CaptureSettles(l: State, h: HoldView, amount: Option<u128>, to: HoldDestination, now: int)
    requires Guarded(l) && StandsOn(l, h)
    requires h.progress.pendingVersion <= h.progress.version
    requires h.progress.captured <= h.terms.amount
    requires CaptureHold(h, amount, to, now).2.Ok?
    ensures var (h', events, _) := CaptureHold(h, amount, to, now);
            && ApplyChain(l, Plan(FactOf(h, events[0]))).Some?
            && var l' := ApplyChain(l, Plan(FactOf(h, events[0]))).value;
               Guarded(l') && StandsOn(l', h')
  {
    var taken, held := CapturePlan(h, amount, to, now);
    var h' := CaptureHold(h, amount, to, now).0;
    VoidFrees(l, h);
    GuardedBalances(l, ScopeClaim(h.terms.user, h.terms.scope));
    var void := Op.Void(HoldReservation(h.id, h.progress.pendingVersion));
    var l1 := Apply(l, void).value;
    CaptureRest(l1, h, h', taken, held, to);
    ChainAfter(l, void, AfterVoid(h, h'.progress.pendingVersion, taken, held, to));
  }

  lemma ChainAfter(l: State, op: Op, rest: seq<Op>)
    requires Apply(l, op).Some?
    ensures ApplyChain(l, [op] + rest) == ApplyChain(Apply(l, op).value, rest)
  {
    assert ([op] + rest)[1..] == rest;
  }

  /** A hold that stands is one the ledger carries to the end: none of its events is ever refused. */
  lemma HoldEventsAreNeverRefused(l: State, h: HoldView, events: seq<HoldEvent>, c: Command)
    requires Guarded(l) && StandsOn(l, h) && Coherent(h, events)
    ensures var (h', more) := Step(h, c);
            && |more| <= 1
            && (more != [] ==> ApplyChain(l, Plan(FactOf(h, more[0]))).Some?)
            && var l' := if more == [] then l else Relay(l, FactOf(h, more[0]));
               Guarded(l') && StandsOn(l', h')
  {
    match c
    case DoCapture(amount, to, now) =>
      if CaptureHold(h, amount, to, now).2.Ok? {
        CaptureSettles(l, h, amount, to, now);
      }
    case DoVoid(now) =>
      if h.progress.state == Active {
        ReleaseSettles(l, h, if h.IsDue(now) then Expired else Voided);
      }
    case DoExpire(now) =>
      if h.IsDue(now) {
        ReleaseSettles(l, h, Expired);
      }
  }

  lemma PlacedCoherent(id: Uuid, terms: HoldTerms)
    requires PlaceHold(id, terms).Ok?
    ensures var (h, events) := PlaceHold(id, terms).value;
            Coherent(h, events) && h.Remaining() == terms.amount && h.progress.state == Active && h.progress.pendingVersion == 1
  {
    var (h, events) := PlaceHold(id, terms).value;
    assert events[..0] == [];
  }

  lemma TooMuchIsRefused(l: State, h: HoldView)
    requires h.Remaining() > Available(l, ScopeClaim(h.terms.user, h.terms.scope))
    ensures Apply(l, Op.Reserve(Reservation(HoldReservation(h.id, h.progress.pendingVersion), HoldTransfer(h)))).None?
  {
  }

  /** A hold the ledger accepts starts out standing. */
  lemma PlacementStands(l: State, id: Uuid, terms: HoldTerms)
    requires Guarded(l) && PlaceHold(id, terms).Ok?
    requires forall i :: 0 <= i < |l.open| ==> !NamesHold(l.open[i].id, id)
    ensures var (h, events) := PlaceHold(id, terms).value;
            && (ApplyChain(l, Plan(FactOf(h, events[0]))).Some? <==>
                  terms.amount <= Available(l, ScopeClaim(terms.user, terms.scope)))
            && (ApplyChain(l, Plan(FactOf(h, events[0]))).Some? ==>
                  var l' := Relay(l, FactOf(h, events[0]));
                  Guarded(l') && StandsOn(l', h) && Coherent(h, events))
  {
    var (h, events) := PlaceHold(id, terms).value;
    PlacementPlan(id, terms);
    PlacedCoherent(id, terms);
    ChainOfOne(l, Op.Reserve(Reservation(HoldReservation(id, 1), HoldTransfer(h))));
    if terms.amount <= Available(l, ScopeClaim(terms.user, terms.scope)) {
      RestReserved(l, h);
    } else {
      TooMuchIsRefused(l, h);
    }
  }

  lemma PlacementPlan(id: Uuid, terms: HoldTerms)
    requires PlaceHold(id, terms).Ok?
    ensures var (h, events) := PlaceHold(id, terms).value;
            Plan(FactOf(h, events[0])) == [Op.Reserve(Reservation(HoldReservation(id, 1), HoldTransfer(h)))]
  {
  }

  // ----- through the outbox -----

  /** The hold as it is now, its events not relayed yet, and the ledger they will reach. */
  datatype Shared = Shared(ledger: State, hold: HoldView, outbox: seq<HoldEvent>)

  datatype SharedStep = OnHold(command: Command) | RelayNext | OnLedger(op: Op)

  /** A command on the hold, its oldest event relayed or left where it is, or anything else the ledger does. */
  function SharedNext(s: Shared, step: SharedStep): Shared {
    match step
    case OnHold(c) => s.(hold := Step(s.hold, c).0, outbox := s.outbox + Step(s.hold, c).1)
    case RelayNext =>
      if s.outbox != [] && ApplyChain(s.ledger, Plan(FactOf(s.hold, s.outbox[0]))).Some?
      then s.(ledger := ApplyChain(s.ledger, Plan(FactOf(s.hold, s.outbox[0]))).value, outbox := s.outbox[1..]) else s
    case OnLedger(op) => if NotAbout(op, s.hold.id) then s.(ledger := Apply(s.ledger, op).GetOr(s.ledger)) else s
  }

  function SharedRun(s: Shared, steps: seq<SharedStep>): Shared
    decreases |steps|
  {
    if steps == [] then s else SharedRun(SharedNext(s, steps[0]), steps[1..])
  }

  /** The waiting events are those of commands that take the hold from as it was `before` to as it is `now`. */
  ghost predicate Lags(before: HoldView, commands: seq<Command>, waiting: seq<HoldEvent>, now: HoldView)
    decreases |commands|
  {
    if commands == [] then waiting == [] && now == before
    else waiting != [] && Step(before, commands[0]).1 == [waiting[0]]
         && Lags(Step(before, commands[0]).0, commands[1..], waiting[1..], now)
  }

  /** The ledger stands where the hold was before the commands whose events wait. */
  ghost predicate Follows(s: Shared, before: HoldView, told: seq<HoldEvent>, commands: seq<Command>) {
    StandsOn(s.ledger, before) && Coherent(before, told) && Lags(before, commands, s.outbox, s.hold)
  }

  /** The placement itself still waits, and the ledger has nothing of the hold. */
  ghost predicate AwaitsPlacement(s: Shared, placed: HoldView, first: HoldEvent, commands: seq<Command>) {
    && PlaceHold(placed.id, placed.terms) == Ok((placed, [first]))
    && (forall i :: 0 <= i < |s.ledger.open| ==> !NamesHold(s.ledger.open[i].id, placed.id))
    && s.outbox != [] && s.outbox[0] == first && Lags(placed, commands, s.outbox[1..], s.hold)
  }

  ghost predicate InTouch(s: Shared) {
    && Guarded(s.ledger)
    && ((exists before, told, commands :: Follows(s, before, told, commands))
        || (exists placed, first, commands :: AwaitsPlacement(s, placed, first, commands)))
  }

  lemma StepRaisesOne(h: HoldView, c: Command)
    ensures Step(h, c).0.id == h.id && Step(h, c).0.terms == h.terms
    ensures Step(h, c) == (h, []) || |Step(h, c).1| == 1
  {
  }

  lemma {:induction false} LagsMore(before: HoldView, commands: seq<Command>, waiting: seq<HoldEvent>, now: HoldView, c: Command)
    requires Lags(before, commands, waiting, now) && |Step(now, c).1| == 1
    ensures Lags(before, commands + [c], waiting + Step(now, c).1, Step(now, c).0)
    decreases |commands|
  {
    var (all, events) := (commands + [c], waiting + Step(now, c).1);
    if commands == [] {
      assert all == [c] && all[1..] == [] && events[1..] == [];
    } else {
      LagsMore(Step(before, commands[0]).0, commands[1..], waiting[1..], now, c);
      assert all[1..] == commands[1..] + [c] && events[1..] == waiting[1..] + Step(now, c).1;
    }
  }

  lemma {:induction false} LagsKeepsTerms(before: HoldView, commands: seq<Command>, waiting: seq<HoldEvent>, now: HoldView)
    requires Lags(before, commands, waiting, now)
    ensures now.id == before.id && now.terms == before.terms
    decreases |commands|
  {
    if commands != [] {
      StepRaisesOne(before, commands[0]);
      LagsKeepsTerms(Step(before, commands[0]).0, commands[1..], waiting[1..], now);
    }
  }

  lemma CommandStaysInTouch(s: Shared, c: Command)
    requires InTouch(s)
    ensures InTouch(SharedNext(s, OnHold(c)))
  {
    StepRaisesOne(s.hold, c);
    var z := SharedNext(s, OnHold(c));
    if Step(s.hold, c).1 == [] {
      assert s.outbox + [] == s.outbox;
    } else if before, told, commands :| Follows(s, before, told, commands) {
      LagsMore(before, commands, s.outbox, s.hold, c);
      assert Follows(z, before, told, commands + [c]);
    } else {
      var placed, first, commands :| AwaitsPlacement(s, placed, first, commands);
      LagsMore(placed, commands, s.outbox[1..], s.hold, c);
      assert z.outbox[1..] == s.outbox[1..] + Step(s.hold, c).1;
      assert AwaitsPlacement(z, placed, first, commands + [c]);
    }
  }

  /** The oldest waiting event of a hold the ledger follows is never refused. */
  lemma NextEventPosts(s: Shared, before: HoldView, told: seq<HoldEvent>, commands: seq<Command>)
    requires Guarded(s.ledger) && Follows(s, before, told, commands) && s.outbox != []
    ensures ApplyChain(s.ledger, Plan(FactOf(s.hold, s.outbox[0]))).Some?
    ensures var z := SharedNext(s, RelayNext);
            Guarded(z.ledger) && Follows(z, Step(before, commands[0]).0, told + Step(before, commands[0]).1, commands[1..])
  {
    LagsKeepsTerms(before, commands, s.outbox, s.hold);
    HoldEventsAreNeverRefused(s.ledger, before, told, commands[0]);
    StepCoherent(before, told, commands[0]);
    SameFact(before, s.hold, s.outbox[0]);
  }

  lemma SameFact(h: HoldView, h': HoldView, e: HoldEvent)
    requires h.id == h'.id && h.terms == h'.terms
    ensures FactOf(h, e) == FactOf(h', e)
  {
  }

  lemma RelayStaysInTouch(s: Shared)
    requires InTouch(s)
    ensures InTouch(SharedNext(s, RelayNext))
  {
    var z := SharedNext(s, RelayNext);
    if before, told, commands :| Follows(s, before, told, commands) {
      if s.outbox != [] {
        NextEventPosts(s, before, told, commands);
      }
    } else {
      var placed, first, commands :| AwaitsPlacement(s, placed, first, commands);
      LagsKeepsTerms(placed, commands, s.outbox[1..], s.hold);
      SameFact(placed, s.hold, first);
      PlacementStands(s.ledger, placed.id, placed.terms);
      if z != s {
        assert Follows(z, placed, [first], commands);
      }
    }
  }

  lemma OtherOpsAddNothing(l: State, id: Uuid, op: Op)
    requires forall i :: 0 <= i < |l.open| ==> !NamesHold(l.open[i].id, id)
    requires NotAbout(op, id) && Apply(l, op).Some?
    ensures var open := Apply(l, op).value.open; forall i :: 0 <= i < |open| ==> !NamesHold(open[i].id, id)
  {
    if op.Settle? || op.Void? {
      WithoutIsSublist(l.open, op.id);
      var w := Without(l.open, op.id);
      assert forall i :: 0 <= i < |w| ==> w[i] in l.open;
    }
  }

  lemma OthersStayInTouch(s: Shared, op: Op)
    requires InTouch(s)
    ensures InTouch(SharedNext(s, OnLedger(op)))
  {
    if NotAbout(op, s.hold.id) && Apply(s.ledger, op).Some? {
      var z := SharedNext(s, OnLedger(op));
      ApplyKeepsGuard(s.ledger, op);
      if before, told, commands :| Follows(s, before, told, commands) {
        LagsKeepsTerms(before, commands, s.outbox, s.hold);
        OtherOpsKeepStanding(s.ledger, before, op);
        assert Follows(z, before, told, commands);
      } else {
        var placed, first, commands :| AwaitsPlacement(s, placed, first, commands);
        LagsKeepsTerms(placed, commands, s.outbox[1..], s.hold);
        OtherOpsAddNothing(s.ledger, placed.id, op);
        assert AwaitsPlacement(z, placed, first, commands);
      }
    }
  }

  lemma {:induction false} RunStaysInTouch(s: Shared, steps: seq<SharedStep>)
    requires InTouch(s)
    ensures InTouch(SharedRun(s, steps))
    decreases |steps|
  {
    if steps != [] {
      match steps[0] {
        case OnHold(c) => CommandStaysInTouch(s, c);
        case RelayNext => RelayStaysInTouch(s);
        case OnLedger(op) => OthersStayInTouch(s, op);
      }
      RunStaysInTouch(SharedNext(s, steps[0]), steps[1..]);
    }
  }

  /**
  However a hold's life interleaves with its relay and with everything else the ledger does: once its
  placement has posted, no event of it is ever refused, and whenever none waits its one reservation stands
  for exactly what remains while it is active, and none does afterwards.
   */
  lemma HoldStandsThroughAnyRun(l: State, id: Uuid, terms: HoldTerms, steps: seq<SharedStep>)
    requires Guarded(l) && PlaceHold(id, terms).Ok?
    requires forall i :: 0 <= i < |l.open| ==> !NamesHold(l.open[i].id, id)
    ensures var (placed, first) := PlaceHold(id, terms).value;
            var s := SharedRun(Shared(l, placed, first), steps);
            && Guarded(s.ledger)
            && (s.outbox == [] ==> StandsOn(s.ledger, s.hold))
            && (s.outbox != [] && !s.outbox[0].PlacedEvent? ==> ApplyChain(s.ledger, Plan(FactOf(s.hold, s.outbox[0]))).Some?)
  {
    var (placed, first) := PlaceHold(id, terms).value;
    var start := Shared(l, placed, first);
    assert Lags(placed, [], start.outbox[1..], placed);
    assert AwaitsPlacement(start, placed, first[0], []);
    RunStaysInTouch(start, steps);
    var s := SharedRun(start, steps);
    if before, told, commands :| Follows(s, before, told, commands) {
      if s.outbox != [] {
        NextEventPosts(s, before, told, commands);
      }
    }
  }
}
