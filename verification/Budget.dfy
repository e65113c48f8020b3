/**
What may leave a scope's accounts in a day without the owners (domain/src/scope_operations.rs,
piggybank/core/src/infrastructure/scope_payouts.rs): automatic payouts, counted from when they are made,
and decisions of the scope, counted as long as they are live and for a day from their execution.
 */
module Budget {
  import opened Base
  import opened Money
  import Windows
  import opened Gates

  /** Where an outflow comes from; a decision past the budget is flagged when it is asked for. */
  datatype Source = Automatic(client: ClientId, maxLine: u128) | Decision(flagged: bool)

  /** An outflow asked for at `asked`; it left when it was made or executed, and is live until then. */
  datatype Outflow = Outflow(source: Source, amount: nat, asked: int, left: Option<int>) {
    /** What it counts for in the day up to `now`. */
    function CountedAt(now: int): nat {
      if left.None? || left.value > now - Windows.DAY then amount else 0
    }

    /** What of it left after `from`, up to and including `to`. */
    function LeftWithin(from: int, to: int): nat {
      if left.Some? && from < left.value <= to then amount else 0
    }
  }

  function Counted(log: seq<Outflow>, mine: Source -> bool, now: int): nat {
    if log == [] then 0
    else
      var last := log[|log| - 1];
      Counted(log[..|log| - 1], mine, now) + if mine(last.source) then last.CountedAt(now) else 0
  }

  function Left(log: seq<Outflow>, mine: Source -> bool, from: int, to: int): nat {
    if log == [] then 0
    else
      var last := log[|log| - 1];
      Left(log[..|log| - 1], mine, from, to) + if mine(last.source) then last.LeftWithin(from, to) else 0
  }

  // ----- what may happen -----

  function AllSources(): Source -> bool {
    (s: Source) => true
  }

  function PaidBy(client: ClientId): Source -> bool {
    (s: Source) => s.Automatic? && s.client == client
  }

  /** An automatic payout is refused past any ceiling; a decision never is, but past the budget it is flagged. */
  predicate PayoutPasses(p: ScopePolicy, log: seq<Outflow>, client: ClientId, total: u128, maxLine: u128, now: int) {
    var paid, out := Counted(log, PaidBy(client), now), Counted(log, AllSources(), now);
    paid < TWO128 && out < TWO128 && AdmitAutoPayout(p, total, maxLine, paid, out).Ok?
  }

  predicate Flagged(p: ScopePolicy, log: seq<Outflow>, total: u128, now: int) {
    var out := Counted(log, AllSources(), now);
    out >= TWO128 || OverScopeBudget(p, out, total)
  }

  datatype Step =
    | Pay(client: ClientId, total: u128, maxLine: u128, now: int)
    | AskDecision(total: u128, now: int)
    | Execute(index: nat, now: int)
    | Drop(index: nat)

  /**
  One step of the scope: a payout made, a decision asked for, a decision of the scope executed, or an
  outflow that stops counting: a payout that failed, or a decision that ended or went to the owners,
  where every flagged one goes.
   */
  function Take(p: ScopePolicy, log: seq<Outflow>, step: Step): seq<Outflow> {
    match step
    case Pay(client, total, maxLine, now) =>
      if PayoutPasses(p, log, client, total, maxLine, now)
      then log + [Outflow(Automatic(client, maxLine), total, now, Some(now))] else log
    case AskDecision(total, now) => log + [Outflow(Decision(Flagged(p, log, total, now)), total, now, None)]
    case Execute(index, now) =>
      if index < |log| && log[index].left.None? && log[index].source == Decision(false)
      then log[index := log[index].(left := Some(now))] else log
    case Drop(index) => if index < |log| then log[index := log[index].(amount := 0)] else log
  }

  function Run(p: ScopePolicy, log: seq<Outflow>, steps: seq<Step>): seq<Outflow>
    decreases |steps|
  {
    if steps == [] then log else Run(p, Take(p, log, steps[0]), steps[1..])
  }

  /** The clock never goes back. */
  ghost predicate Chronological(steps: seq<Step>) {
    forall i, j :: 0 <= i < j < |steps| && !steps[i].Drop? && !steps[j].Drop? ==> steps[i].now <= steps[j].now
  }

  /**
  What each step does. A payout is made, and leaves, exactly when every ceiling leaves room for it; a decision
  is always taken up, flagged exactly when the budget leaves none; and a live unflagged one leaves when executed.
   */
  lemma StepsDo(p: ScopePolicy, log: seq<Outflow>, client: ClientId, total: u128, maxLine: u128, now: int, index: nat)
    requires Counted(log, PaidBy(client), now) < TWO128 && Counted(log, AllSources(), now) < TWO128
    ensures Take(p, log, Pay(client, total, maxLine, now))
         == if total <= p.autoPayoutPerOp && maxLine <= 1_000_000_000_000_000_000_000
               && Counted(log, PaidBy(client), now) + total <= p.autoPayout24h
               && Counted(log, AllSources(), now) + total <= p.scopeBudget24h
            then log + [Outflow(Automatic(client, maxLine), total, now, Some(now))] else log
    ensures Take(p, log, AskDecision(total, now))
         == log + [Outflow(Decision(Counted(log, AllSources(), now) + total > p.scopeBudget24h), total, now, None)]
    ensures index < |log| ==>
              Take(p, log, Execute(index, now))
              == if log[index].left == None && log[index].source == Decision(false)
                 then log[index := log[index].(left := Some(now))] else log
  {
    AutoPayoutAdmittedIff(p, total, maxLine, Counted(log, PaidBy(client), now), Counted(log, AllSources(), now));
  }

  // ----- what every run keeps -----

  /** The outflow at `i` fitted the cap when it was asked for, together with what counted then. */
  ghost predicate Fitted(log: seq<Outflow>, counted: Source -> bool, cap: nat, i: nat)
    requires i < |log|
  {
    Counted(log[..i], counted, log[i].asked) + log[i].amount <= cap
  }

  /** Everything that may leave fitted; nothing leaves before it is asked for, and a flagged decision never does. */
  ghost predicate Kept(log: seq<Outflow>, mine: Source -> bool, counted: Source -> bool, cap: nat) {
    && (forall i :: 0 <= i < |log| && mine(log[i].source) && log[i].source != Decision(true) ==> Fitted(log, counted, cap, i))
    && (forall i :: 0 <= i < |log| && log[i].left.Some? ==> log[i].asked <= log[i].left.value && log[i].source != Decision(true))
  }

  /** `y` is `x` with outflows counting for no more at any time an outflow of `x` was asked for. */
  ghost predicate Eased(x: seq<Outflow>, y: seq<Outflow>) {
    && |x| == |y|
    && (forall i :: 0 <= i < |x| ==> y[i].source == x[i].source && y[i].asked == x[i].asked && y[i].amount <= x[i].amount)
    && (forall i, j :: 0 <= i < j < |x| ==> y[i].CountedAt(x[j].asked) <= x[i].CountedAt(x[j].asked))
  }

  lemma {:induction false} CountedOfEased(x: seq<Outflow>, y: seq<Outflow>, mine: Source -> bool, now: int)
    requires |x| == |y|
    requires forall i :: 0 <= i < |x| ==> y[i].source == x[i].source && y[i].CountedAt(now) <= x[i].CountedAt(now)
    ensures Counted(y, mine, now) <= Counted(x, mine, now)
  {
    if x != [] {
      CountedOfEased(x[..|x| - 1], y[..|y| - 1], mine, now);
    }
  }

  lemma EasedStaysFitted(x: seq<Outflow>, y: seq<Outflow>, counted: Source -> bool, cap: nat, i: nat)
    requires Eased(x, y) && i < |x| && Fitted(x, counted, cap, i)
    ensures Fitted(y, counted, cap, i)
  {
    CountedOfEased(x[..i], y[..i], counted, x[i].asked);
  }

  lemma EasedStaysKept(x: seq<Outflow>, y: seq<Outflow>, mine: Source -> bool, counted: Source -> bool, cap: nat)
    requires Kept(x, mine, counted, cap) && Eased(x, y)
    requires forall i :: 0 <= i < |y| && y[i].left.Some? ==> y[i].asked <= y[i].left.value && y[i].source != Decision(true)
    ensures Kept(y, mine, counted, cap)
  {
    forall i | 0 <= i < |y| && mine(y[i].source) && y[i].source != Decision(true) ensures Fitted(y, counted, cap, i) {
      EasedStaysFitted(x, y, counted, cap, i);
    }
  }

  lemma AppendedStaysFitted(log: seq<Outflow>, o: Outflow, counted: Source -> bool, cap: nat, i: nat)
    requires i < |log| && Fitted(log, counted, cap, i)
    ensures Fitted(log + [o], counted, cap, i)
  {
    assert (log + [o])[..i] == log[..i];
  }

  lemma AppendedStaysKept(log: seq<Outflow>, o: Outflow, mine: Source -> bool, counted: Source -> bool, cap: nat)
    requires Kept(log, mine, counted, cap)
    requires mine(o.source) && o.source != Decision(true) ==> Counted(log, counted, o.asked) + o.amount <= cap
    requires o.left.Some? ==> o.asked <= o.left.value && o.source != Decision(true)
    ensures Kept(log + [o], mine, counted, cap)
  {
    var z := log + [o];
    assert z[..|log|] == log;
    forall i | 0 <= i < |z| && mine(z[i].source) && z[i].source != Decision(true) ensures Fitted(z, counted, cap, i) {
      if i < |log| {
        AppendedStaysFitted(log, o, counted, cap, i);
      }
    }
  }

  /** The steps admit what is `mine` only within the cap on what then counts. */
  ghost predicate Bounds(p: ScopePolicy, mine: Source -> bool, counted: Source -> bool, cap: nat) {
    && (forall log: seq<Outflow>, client: ClientId, total: u128, maxLine: u128, now: int ::
          PayoutPasses(p, log, client, total, maxLine, now) && mine(Automatic(client, maxLine))
          ==> Counted(log, counted, now) + total <= cap)
    && (forall log: seq<Outflow>, total: u128, now: int ::
          !Flagged(p, log, total, now) && mine(Decision(false)) ==> Counted(log, counted, now) + total <= cap)
  }

  ghost predicate NotAfter(log: seq<Outflow>, steps: seq<Step>) {
    forall i, j :: 0 <= i < |log| && 0 <= j < |steps| && !steps[j].Drop? ==> log[i].asked <= steps[j].now
  }

  lemma ExecutionEases(log: seq<Outflow>, index: nat, now: int)
    requires index < |log| && log[index].left.None?
    requires forall i :: 0 <= i < |log| ==> log[i].asked <= now
    ensures Eased(log, log[index := log[index].(left := Some(now))])
  {
  }

  lemma TakeStaysKept(p: ScopePolicy, log: seq<Outflow>, step: Step, mine: Source -> bool, counted: Source -> bool, cap: nat)
    requires Bounds(p, mine, counted, cap) && Kept(log, mine, counted, cap)
    requires !step.Drop? ==> forall i :: 0 <= i < |log| ==> log[i].asked <= step.now
    ensures Kept(Take(p, log, step), mine, counted, cap)
  {
    match step
    case Pay(client, total, maxLine, now) =>
      if PayoutPasses(p, log, client, total, maxLine, now) {
        AppendedStaysKept(log, Outflow(Automatic(client, maxLine), total, now, Some(now)), mine, counted, cap);
      }
    case AskDecision(total, now) =>
      AppendedStaysKept(log, Outflow(Decision(Flagged(p, log, total, now)), total, now, None), mine, counted, cap);
    case Execute(index, now) =>
      if index < |log| && log[index].left.None? && log[index].source == Decision(false) {
        ExecutionEases(log, index, now);
        EasedStaysKept(log, log[index := log[index].(left := Some(now))], mine, counted, cap);
      }
    case Drop(index) =>
      if index < |log| {
        EasedStaysKept(log, log[index := log[index].(amount := 0)], mine, counted, cap);
      }
  }

  lemma TakeStaysEarlier(p: ScopePolicy, log: seq<Outflow>, steps: seq<Step>)
    requires steps != [] && NotAfter(log, steps) && Chronological(steps)
    ensures NotAfter(Take(p, log, steps[0]), steps[1..])
  {
    var z := Take(p, log, steps[0]);
    forall i, j | 0 <= i < |z| && 0 <= j < |steps| - 1 && !steps[1..][j].Drop? ensures z[i].asked <= steps[1..][j].now {
      assert steps[1..][j] == steps[j + 1];
      if i < |log| {
        assert z[i].asked == log[i].asked;
      }
    }
  }

  lemma {:induction false} RunStaysKept(p: ScopePolicy, log: seq<Outflow>, steps: seq<Step>,
                                        mine: Source -> bool, counted: Source -> bool, cap: nat)
    requires Bounds(p, mine, counted, cap) && Kept(log, mine, counted, cap)
    requires Chronological(steps) && NotAfter(log, steps)
    ensures Kept(Run(p, log, steps), mine, counted, cap)
    decreases |steps|
  {
    if steps != [] {
      TakeStaysKept(p, log, steps[0], mine, counted, cap);
      TakeStaysEarlier(p, log, steps);
      RunStaysKept(p, Take(p, log, steps[0]), steps[1..], mine, counted, cap);
    }
  }

  // ----- what leaves in a day -----

  /** What left in a day counts at any time up to the day's end. */
  lemma {:induction false} LeftCounts(log: seq<Outflow>, mine: Source -> bool, counted: Source -> bool, from: int, now: int)
    requires now <= from + Windows.DAY && forall s :: mine(s) ==> counted(s)
    ensures Left(log, mine, from, from + Windows.DAY) <= Counted(log, counted, now)
  {
    if log != [] {
      LeftCounts(log[..|log| - 1], mine, counted, from, now);
    }
  }

  lemma PrefixStaysKept(log: seq<Outflow>, mine: Source -> bool, counted: Source -> bool, cap: nat)
    requires log != [] && Kept(log, mine, counted, cap)
    ensures Kept(log[..|log| - 1], mine, counted, cap)
  {
    var before := log[..|log| - 1];
    forall i | 0 <= i < |before| && mine(before[i].source) && before[i].source != Decision(true) ensures Fitted(before, counted, cap, i) {
      assert Fitted(log, counted, cap, i);
      assert before[..i] == log[..i];
    }
  }

  lemma {:induction false} EveryDayFits(log: seq<Outflow>, mine: Source -> bool, counted: Source -> bool, cap: nat, from: int)
    requires Kept(log, mine, counted, cap) && forall s :: mine(s) ==> counted(s)
    ensures Left(log, mine, from, from + Windows.DAY) <= cap
  {
    if log != [] {
      var before, last := log[..|log| - 1], log[|log| - 1];
      PrefixStaysKept(log, mine, counted, cap);
      if mine(last.source) && last.LeftWithin(from, from + Windows.DAY) > 0 {
        assert Fitted(log, counted, cap, |log| - 1);
        LeftCounts(before, mine, counted, from, last.asked);
      } else {
        EveryDayFits(before, mine, counted, cap, from);
      }
    }
  }

  /**
  The scope's budget, by the day of leaving. In every window of a day of every run, the automatic payouts
  made and the decisions of the scope executed in it come to at most the budget, however long a decision
  waited and whatever failed or went to the owners in between.
   */
  lemma ScopeBudgetIsKept(p: ScopePolicy, steps: seq<Step>, from: int)
    requires Chronological(steps)
    ensures Left(Run(p, [], steps), AllSources(), from, from + 86_400) <= p.scopeBudget24h
  {
    forall log: seq<Outflow>, client: ClientId, total: u128, maxLine: u128, now: int | PayoutPasses(p, log, client, total, maxLine, now)
      ensures Counted(log, AllSources(), now) + total <= p.scopeBudget24h
    {
    }
    RunStaysKept(p, [], steps, AllSources(), AllSources(), p.scopeBudget24h);
    EveryDayFits(Run(p, [], steps), AllSources(), AllSources(), p.scopeBudget24h, from);
  }

  /** In every window of a day of every run, one client's automatic payouts stay within its own ceiling. */
  lemma AutoPayoutsAreBounded(p: ScopePolicy, steps: seq<Step>, client: ClientId, from: int)
    requires Chronological(steps)
    ensures Left(Run(p, [], steps), PaidBy(client), from, from + 86_400) <= p.autoPayout24h
  {
    forall log: seq<Outflow>, c: ClientId, total: u128, maxLine: u128, now: int
      | PayoutPasses(p, log, c, total, maxLine, now) && PaidBy(client)(Automatic(c, maxLine))
      ensures Counted(log, PaidBy(client), now) + total <= p.autoPayout24h
    {
      assert c == client;
    }
    RunStaysKept(p, [], steps, PaidBy(client), PaidBy(client), p.autoPayout24h);
    EveryDayFits(Run(p, [], steps), PaidBy(client), PaidBy(client), p.autoPayout24h, from);
  }

  /** No automatic payout is above the ceiling of one operation, and none has a line above 1000 USDT. */
  lemma {:induction false} EachAutoPayoutIsBounded(p: ScopePolicy, log: seq<Outflow>, steps: seq<Step>, i: nat)
    requires forall i :: 0 <= i < |log| && log[i].source.Automatic? ==>
               log[i].amount <= p.autoPayoutPerOp && log[i].source.maxLine <= MAX_PAYOUT_LINE
    requires i < |Run(p, log, steps)| && Run(p, log, steps)[i].source.Automatic?
    ensures Run(p, log, steps)[i].amount <= p.autoPayoutPerOp && Run(p, log, steps)[i].source.maxLine <= MAX_PAYOUT_LINE
    decreases |steps|
  {
    if steps != [] {
      EachAutoPayoutIsBounded(p, Take(p, log, steps[0]), steps[1..], i);
    }
  }
}
