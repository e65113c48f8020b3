/**
When a hold ends (domain/src/scope_ledger.rs): over every run from its placement, what a capture, a void and
the reaper do before the end set for it and from that end on.
 */
module HoldTimes {
  import opened Base
  import opened Money
  import opened Ledger
  import opened Flows
  import opened Holds

  /** The end set for a hold has come; one without an end never ends by itself. */
  predicate HasCome(end: Option<int>, now: int) {
    end.Some? && now >= end.value
  }

  /** The hold and its events after a run of commands. */
  function After(id: Uuid, terms: HoldTerms, commands: seq<Command>): (HoldView, seq<HoldEvent>)
    requires PlaceHold(id, terms).Ok?
  {
    History(PlaceHold(id, terms).value.0, PlaceHold(id, terms).value.1, commands)
  }

  /** What its events leave reserved. */
  function LeftOf(id: Uuid, terms: HoldTerms, commands: seq<Command>): nat
    requires PlaceHold(id, terms).Ok?
  {
    match Replay(After(id, terms, commands).1)
    case Some(Reserved(_, worth)) => worth
    case _ => 0
  }

  lemma Reached(id: Uuid, terms: HoldTerms, commands: seq<Command>)
    requires PlaceHold(id, terms).Ok?
    ensures var (h, events) := After(id, terms, commands);
            && Coherent(h, events) && h.terms == terms
            && LeftOf(id, terms, commands) == h.Remaining()
            && (h.progress.state == Active <==> LeftOf(id, terms, commands) > 0)
  {
    var (placed, first) := PlaceHold(id, terms).value;
    assert first[..0] == [];
    HistoryCoherent(placed, first, commands);
  }

  /** Which holds may be placed: of a positive amount, in a scope other than the platform's own; all of it is then held. */
  lemma PlacedIff(id: Uuid, terms: HoldTerms)
    ensures PlaceHold(id, terms).Ok? <==> terms.amount > 0 && terms.scope != "main"
    ensures PlaceHold(id, terms).Ok? ==> LeftOf(id, terms, []) == terms.amount
    ensures PlaceHold(id, terms).Err? ==> PlaceHold(id, terms).error == Validation
  {
    if PlaceHold(id, terms).Ok? {
      Reached(id, terms, []);
    }
  }

  /**
  A capture, after any run. It is accepted exactly when it is for someone else than the held user, something
  is left, the end has not come, and it is for a positive part of what is left; it then moves that part to
  whom it was asked for, and leaves the rest. Otherwise nothing changes.
   */
  lemma CaptureAcceptedIff(id: Uuid, terms: HoldTerms, commands: seq<Command>, amount: Option<u128>, to: HoldDestination, now: int)
    requires PlaceHold(id, terms).Ok?
    ensures var h, left := After(id, terms, commands).0, LeftOf(id, terms, commands);
            var wanted := amount.GetOr(h.Remaining());
            var (h', events, answer) := CaptureHold(h, amount, to, now);
            && (answer.Ok? <==> to != ToUser(terms.user) && 0 < wanted <= left && !HasCome(terms.expiresAt, now))
            && (amount == None ==> wanted == left)
            && (answer.Ok? ==>
                  && answer.value == wanted && h'.Remaining() == left - wanted
                  && |events| == 1 && events[0].CapturedEvent?
                  && events[0].amount == wanted && events[0].destination == to)
            && (answer.Err? ==> h' == h && events == [])
  {
    Reached(id, terms, commands);
  }

  /** Why it is refused: the reasons in the order they are found. */
  lemma CaptureRefusedFor(id: Uuid, terms: HoldTerms, commands: seq<Command>, amount: Option<u128>, to: HoldDestination, now: int)
    requires PlaceHold(id, terms).Ok?
    ensures var h, left := After(id, terms, commands).0, LeftOf(id, terms, commands);
            var answer := CaptureHold(h, amount, to, now).2;
            var reason := if to == ToUser(terms.user) then Invalid(Validation)
                          else if left == 0 || HasCome(terms.expiresAt, now) then Refused(HoldNotActive)
                          else if amount == Some(0) then Invalid(Validation)
                          else Refused(InsufficientFunds);
            answer.Err? ==> answer.error == reason
  {
    Reached(id, terms, commands);
  }

  /** A void, after any run: it releases all that is left, as an expiry exactly when the end has come. */
  lemma VoidReleases(id: Uuid, terms: HoldTerms, commands: seq<Command>, now: int)
    requires PlaceHold(id, terms).Ok?
    ensures var h, left := After(id, terms, commands).0, LeftOf(id, terms, commands);
            var (h', events, answer) := VoidHold(h, now);
            && (answer <==> left > 0)
            && h'.Remaining() == 0
            && (answer ==> |events| == 1 && events[0].ReleasedEvent? && events[0].held == left
                           && (events[0].expired <==> HasCome(terms.expiresAt, now)))
            && (!answer ==> h' == h && events == [])
  {
    Reached(id, terms, commands);
  }

  /** The reaper, after any run: it releases all that is left, as an expiry, exactly when the end has come. */
  lemma ExpiryReleasesIff(id: Uuid, terms: HoldTerms, commands: seq<Command>, now: int)
    requires PlaceHold(id, terms).Ok?
    ensures var h, left := After(id, terms, commands).0, LeftOf(id, terms, commands);
            var (h', events, answer) := ExpireHold(h, now);
            && (answer <==> left > 0 && HasCome(terms.expiresAt, now))
            && (HasCome(terms.expiresAt, now) ==> h'.Remaining() == 0)
            && (answer ==> |events| == 1 && events[0].ReleasedEvent? && events[0].held == left && events[0].expired)
            && (!answer ==> h' == h && events == [])
  {
    Reached(id, terms, commands);
  }

  // ----- over runs -----

  /** The commands up to and with the one that raised it. */
  ghost predicate RaisedAt(id: Uuid, terms: HoldTerms, commands: seq<Command>, k: nat, e: HoldEvent)
    requires PlaceHold(id, terms).Ok?
  {
    k < |commands| && e in Step(After(id, terms, commands[..k]).0, commands[k]).1
  }

  function At(c: Command): int {
    c.now
  }

  /** Over every run: what expires does so at the end or later, and nothing is captured from the end on. */
  lemma EndsWhenSet(id: Uuid, terms: HoldTerms, commands: seq<Command>, k: nat, e: HoldEvent)
    requires PlaceHold(id, terms).Ok? && RaisedAt(id, terms, commands, k, e)
    ensures e.ReleasedEvent? ==> (e.expired <==> HasCome(terms.expiresAt, At(commands[k])))
    ensures e.CapturedEvent? ==> !HasCome(terms.expiresAt, At(commands[k]))
  {
    var h := After(id, terms, commands[..k]).0;
    Reached(id, terms, commands[..k]);
    match commands[k]
    case DoCapture(amount, to, now) => CaptureAcceptedIff(id, terms, commands[..k], amount, to, now);
    case DoVoid(now) => VoidReleases(id, terms, commands[..k], now);
    case DoExpire(now) => ExpiryReleasesIff(id, terms, commands[..k], now);
  }

  /** And the events of the run are exactly the placement and what its commands raised, in their order. */
  lemma {:induction false} EventsAreRaised(id: Uuid, terms: HoldTerms, commands: seq<Command>)
    requires PlaceHold(id, terms).Ok?
    ensures forall e <- After(id, terms, commands).1 ::
              e == PlacedEvent(terms.amount, 1) || exists k: nat :: RaisedAt(id, terms, commands, k, e)
  {
    if commands != [] {
      var n := |commands| - 1;
      var before := After(id, terms, commands[..n]);
      HistorySplits(PlaceHold(id, terms).value.0, PlaceHold(id, terms).value.1, commands);
      EventsAreRaised(id, terms, commands[..n]);
      forall e <- After(id, terms, commands).1
        ensures e == PlacedEvent(terms.amount, 1) || exists k: nat :: RaisedAt(id, terms, commands, k, e)
      {
        if e in before.1 && e != PlacedEvent(terms.amount, 1) {
          var k: nat :| RaisedAt(id, terms, commands[..n], k, e);
          assert commands[..n][..k] == commands[..k];
          assert RaisedAt(id, terms, commands, k, e);
        } else if e !in before.1 {
          assert RaisedAt(id, terms, commands, n, e);
        }
      }
    }
  }

  lemma {:induction false} HistorySplits(h: HoldView, events: seq<HoldEvent>, commands: seq<Command>)
    requires commands != []
    ensures var n := |commands| - 1;
            var (before, told) := History(h, events, commands[..n]);
            History(h, events, commands) == (Step(before, commands[n]).0, told + Step(before, commands[n]).1)
    decreases |commands|
  {
    var n := |commands| - 1;
    var (h', more) := Step(h, commands[0]);
    if n > 0 {
      HistorySplits(h', events + more, commands[1..]);
      assert commands[1..][..n - 1] == commands[..n][1..];
    } else {
      assert commands[..0] == [] && commands[1..] == [];
    }
  }
}
