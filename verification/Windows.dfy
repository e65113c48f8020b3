/**
Rolling windows: a log in order of time, whose entries may later count for less, and what a check of the
trailing day at each entry says about every day of the run.
 */
module Windows {

  const DAY: int := 86_400

  datatype Entry<K> = Entry(key: K, amount: nat, at: int)

  /** What the chosen entries come to in the window after `from`, up to and including `to`. */
  function Sum<K>(log: seq<Entry<K>>, mine: K -> bool, from: int, to: int): nat {
    if log == [] then 0
    else
      var last := log[|log| - 1];
      Sum(log[..|log| - 1], mine, from, to) + if mine(last.key) && from < last.at <= to then last.amount else 0
  }

  ghost predicate InOrder<K>(log: seq<Entry<K>>) {
    forall i, j :: 0 <= i < j < |log| ==> log[i].at <= log[j].at
  }

  /** The same cap whatever the key. */
  function Always<K>(cap: nat): K -> nat {
    (k: K) => cap
  }

  /** The entry at `i` kept within its own cap, together with the counted entries of the day before it. */
  ghost predicate KeptWithin<K>(log: seq<Entry<K>>, counted: K -> bool, cap: K -> nat, i: nat)
    requires i < |log|
  {
    Sum(log[..i], counted, log[i].at - DAY, log[i].at) + log[i].amount <= cap(log[i].key)
  }

  /** Every gated entry was kept within the cap when it was made, given what now counts. */
  ghost predicate Kept<K>(log: seq<Entry<K>>, counted: K -> bool, gated: K -> bool, cap: K -> nat) {
    && InOrder(log)
    && forall i :: 0 <= i < |log| && gated(log[i].key) ==> KeptWithin(log, counted, cap, i)
  }

  /** `y` is `x` with some entries counting for less, as a failed or released one does. */
  ghost predicate Lowered<K>(x: seq<Entry<K>>, y: seq<Entry<K>>) {
    && |x| == |y|
    && forall i :: 0 <= i < |x| ==> x[i].key == y[i].key && x[i].at == y[i].at && y[i].amount <= x[i].amount
  }

  // ----- what keeps a log kept -----

  lemma {:induction false} SumOfLowered<K>(x: seq<Entry<K>>, y: seq<Entry<K>>, mine: K -> bool, from: int, to: int)
    requires Lowered(x, y)
    ensures Sum(y, mine, from, to) <= Sum(x, mine, from, to)
  {
    if x != [] {
      SumOfLowered(x[..|x| - 1], y[..|y| - 1], mine, from, to);
    }
  }

  /** Counting for less never breaks the cap an entry was admitted under. */
  lemma LoweringKeeps<K>(x: seq<Entry<K>>, y: seq<Entry<K>>, counted: K -> bool, gated: K -> bool, cap: K -> nat)
    requires Kept(x, counted, gated, cap) && Lowered(x, y)
    ensures Kept(y, counted, gated, cap)
  {
    forall i | 0 <= i < |y| && gated(y[i].key) ensures KeptWithin(y, counted, cap, i) {
      assert KeptWithin(x, counted, cap, i);
      SumOfLowered(x[..i], y[..i], counted, y[i].at - DAY, y[i].at);
    }
  }

  lemma EarlierStaysKept<K>(log: seq<Entry<K>>, e: Entry<K>, counted: K -> bool, cap: K -> nat, i: nat)
    requires i < |log| && KeptWithin(log, counted, cap, i)
    ensures KeptWithin(log + [e], counted, cap, i)
  {
    assert (log + [e])[..i] == log[..i];
  }

  lemma LastIsKept<K>(log: seq<Entry<K>>, e: Entry<K>, counted: K -> bool, cap: K -> nat)
    requires Sum(log, counted, e.at - DAY, e.at) + e.amount <= cap(e.key)
    ensures KeptWithin(log + [e], counted, cap, |log|)
  {
    assert (log + [e])[..|log|] == log;
  }

  lemma RecordedInOrder<K>(log: seq<Entry<K>>, e: Entry<K>)
    requires InOrder(log) && (log != [] ==> log[|log| - 1].at <= e.at)
    ensures InOrder(log + [e])
  {
    forall i | 0 <= i < |log| ensures log[i].at <= e.at {
      if i < |log| - 1 {
        assert log[i].at <= log[|log| - 1].at;
      }
    }
  }

  /** A new entry keeps the log kept when it is later than all before it, and within the cap if it is gated. */
  lemma RecordingKeeps<K>(log: seq<Entry<K>>, e: Entry<K>, counted: K -> bool, gated: K -> bool, cap: K -> nat)
    requires Kept(log, counted, gated, cap)
    requires log != [] ==> log[|log| - 1].at <= e.at
    requires gated(e.key) ==> Sum(log, counted, e.at - DAY, e.at) + e.amount <= cap(e.key)
    ensures Kept(log + [e], counted, gated, cap)
  {
    var z := log + [e];
    RecordedInOrder(log, e);
    forall i | 0 <= i < |z| && gated(z[i].key) ensures KeptWithin(z, counted, cap, i) {
      if i < |log| {
        EarlierStaysKept(log, e, counted, cap, i);
      } else {
        LastIsKept(log, e, counted, cap);
      }
    }
  }

  // ----- what a kept log says -----

  lemma {:induction false} NarrowerSum<K>(log: seq<Entry<K>>, few: K -> bool, many: K -> bool, from: int, to: int, from': int, to': int)
    requires forall k :: few(k) ==> many(k)
    requires from' <= from && forall i :: 0 <= i < |log| && from < log[i].at <= to ==> log[i].at <= to'
    ensures Sum(log, few, from, to) <= Sum(log, many, from', to')
  {
    if log != [] {
      NarrowerSum(log[..|log| - 1], few, many, from, to, from', to');
    }
  }

  /** No gated entry of the day after `from` had a cap above `most`. */
  ghost predicate CapsWithin<K>(log: seq<Entry<K>>, gated: K -> bool, cap: K -> nat, from: int, most: nat) {
    forall i :: 0 <= i < |log| && gated(log[i].key) && from < log[i].at <= from + DAY ==> cap(log[i].key) <= most
  }

  /**
  Every day is within the caps of its entries, not only the days that end with an entry: in a kept log whose
  gated entries are among the counted ones, those of any window of one day come to at most the largest of
  their caps.
   */
  lemma {:induction false} EveryDayIsWithin<K>(log: seq<Entry<K>>, counted: K -> bool, gated: K -> bool, cap: K -> nat,
                                               from: int, most: nat)
    requires Kept(log, counted, gated, cap)
    requires forall k :: gated(k) ==> counted(k)
    requires CapsWithin(log, gated, cap, from, most)
    ensures Sum(log, gated, from, from + DAY) <= most
  {
    if log != [] {
      var before, last := log[..|log| - 1], log[|log| - 1];
      forall i | 0 <= i < |before| && gated(before[i].key) ensures KeptWithin(before, counted, cap, i) {
        assert KeptWithin(log, counted, cap, i);
        assert before[..i] == log[..i];
      }
      if gated(last.key) && from < last.at <= from + DAY {
        assert KeptWithin(log, counted, cap, |log| - 1);
        NarrowerSum(before, gated, counted, from, from + DAY, last.at - DAY, last.at);
      } else {
        EveryDayIsWithin(before, counted, gated, cap, from, most);
      }
    }
  }

  // ----- runs behind a gate -----

  /** What may happen to a log: a request the gate decides, or an entry coming to count for less. */
  datatype Step<K> = Ask(key: K, amount: nat, at: int) | Lower(index: nat, to: nat)

  type Gate<!K> = (seq<Entry<K>>, K, nat, int) -> bool

  function LowerAt<K>(log: seq<Entry<K>>, index: nat, to: nat): seq<Entry<K>> {
    if index < |log| && to < log[index].amount then log[index := log[index].(amount := to)] else log
  }

  function Take<K>(log: seq<Entry<K>>, step: Step<K>, gate: Gate<K>): seq<Entry<K>> {
    match step
    case Ask(key, amount, at) => if gate(log, key, amount, at) then log + [Entry(key, amount, at)] else log
    case Lower(index, to) => LowerAt(log, index, to)
  }

  function Run<K>(log: seq<Entry<K>>, steps: seq<Step<K>>, gate: Gate<K>): seq<Entry<K>>
    decreases |steps|
  {
    if steps == [] then log else Run(Take(log, steps[0], gate), steps[1..], gate)
  }

  /** Requests come in order of time. */
  ghost predicate Chronological<K>(steps: seq<Step<K>>) {
    forall i, j :: 0 <= i < j < |steps| && steps[i].Ask? && steps[j].Ask? ==> steps[i].at <= steps[j].at
  }

  ghost predicate NotAfter<K>(log: seq<Entry<K>>, steps: seq<Step<K>>) {
    forall i, j :: 0 <= i < |log| && 0 <= j < |steps| && steps[j].Ask? ==> log[i].at <= steps[j].at
  }

  /** The gate admits a gated request only within the cap on the trailing day's counted entries. */
  ghost predicate Bounds<K(!new)>(gate: Gate<K>, counted: K -> bool, gated: K -> bool, cap: K -> nat) {
    forall log, key, amount: nat, at ::
      gate(log, key, amount, at) && gated(key) ==> Sum(log, counted, at - DAY, at) + amount <= cap(key)
  }

  lemma LowerAtLowers<K>(log: seq<Entry<K>>, index: nat, to: nat)
    ensures Lowered(log, LowerAt(log, index, to))
  {
  }

  lemma TakeKeeps<K(!new)>(log: seq<Entry<K>>, step: Step<K>, gate: Gate<K>, counted: K -> bool, gated: K -> bool, cap: K -> nat)
    requires Bounds(gate, counted, gated, cap) && Kept(log, counted, gated, cap)
    requires step.Ask? && log != [] ==> log[|log| - 1].at <= step.at
    ensures Kept(Take(log, step, gate), counted, gated, cap)
  {
    match step
    case Ask(key, amount, at) =>
      if gate(log, key, amount, at) {
        RecordingKeeps(log, Entry(key, amount, at), counted, gated, cap);
      }
    case Lower(index, to) =>
      LowerAtLowers(log, index, to);
      LoweringKeeps(log, LowerAt(log, index, to), counted, gated, cap);
  }

  lemma TakeStaysEarlier<K>(log: seq<Entry<K>>, steps: seq<Step<K>>, gate: Gate<K>)
    requires steps != [] && NotAfter(log, steps) && Chronological(steps)
    ensures NotAfter(Take(log, steps[0], gate), steps[1..])
  {
    var z := Take(log, steps[0], gate);
    forall i, j | 0 <= i < |z| && 0 <= j < |steps| - 1 && steps[1..][j].Ask? ensures z[i].at <= steps[1..][j].at {
      assert steps[1..][j] == steps[j + 1];
      if i < |log| {
        assert z[i].at == log[i].at;
      }
    }
  }

  lemma {:induction false} RunKeeps<K(!new)>(log: seq<Entry<K>>, steps: seq<Step<K>>, gate: Gate<K>,
                                             counted: K -> bool, gated: K -> bool, cap: K -> nat)
    requires Bounds(gate, counted, gated, cap) && Kept(log, counted, gated, cap)
    requires Chronological(steps) && NotAfter(log, steps)
    ensures Kept(Run(log, steps, gate), counted, gated, cap)
    decreases |steps|
  {
    if steps != [] {
      TakeKeeps(log, steps[0], gate, counted, gated, cap);
      TakeStaysEarlier(log, steps, gate);
      RunKeeps(Take(log, steps[0], gate), steps[1..], gate, counted, gated, cap);
    }
  }

  /**
  A gate on the trailing day bounds every day: over every run from an empty log, with entries failing or
  being released in between, what was admitted in any window of one day comes to at most the largest cap
  it was admitted under.
   */
  lemma GateBoundsEveryDay<K(!new)>(steps: seq<Step<K>>, gate: Gate<K>, counted: K -> bool, gated: K -> bool, cap: K -> nat,
                                    from: int, most: nat)
    requires Bounds(gate, counted, gated, cap) && (forall k :: gated(k) ==> counted(k))
    requires Chronological(steps)
    requires CapsWithin(Run([], steps, gate), gated, cap, from, most)
    ensures Sum(Run([], steps, gate), gated, from, from + DAY) <= most
  {
    RunKeeps([], steps, gate, counted, gated, cap);
    EveryDayIsWithin(Run([], steps, gate), counted, gated, cap, from, most);
  }
}
