/** The shared fetch `fetchDataCached = thunky(fetchData)` (index.js:67): a
    memo slot through which every caller of the thunk attaches to one run of
    the underlying fetch and receives that run's outcome. thunky is an npm
    dependency, not part of index.js; the slot follows thunky's behaviour,
    in which a run that ends in an error is forgotten, so that the next call
    starts a new run, while a successful outcome is kept for good.
    Callbacks are identified by number; the deferral of each delivery to a
    later tick is not modelled. */
module SingleFlight {
  import opened Wrappers

  /** The slot: no run yet (or the last one failed), a run in progress with
      the callers waiting for it, or the value of a successful run. */
  datatype Slot<R, E> = NotStarted | Pending(waiters: seq<nat>) | Settled(value: R)

  /** The thunk was called by `caller`, or the running fetch answered. */
  datatype Event<R, E> = Called(caller: nat) | Answered(outcome: Result<R, E>)

  /** An outcome handed to one caller's callback. */
  datatype Delivery<R, E> = Delivery(caller: nat, outcome: Result<R, E>)

  /** What one event does: the next slot, whether the underlying fetch was
      started, and the outcomes handed out. */
  datatype Effect<R, E> = Effect(next: Slot<R, E>, started: bool, delivered: seq<Delivery<R, E>>)

  /** The callers that `ds` answers, in delivery order. */
  function Receivers<R, E>(ds: seq<Delivery<R, E>>): seq<nat>
    decreases |ds|
  {
    if ds == [] then [] else [ds[0].caller] + Receivers(ds[1..])
  }

  lemma {:induction false} ReceiversConcat<R, E>(a: seq<Delivery<R, E>>, b: seq<Delivery<R, E>>)
    ensures Receivers(a + b) == Receivers(a) + Receivers(b)
    decreases |a|
  {
    if a != [] {
      assert (a + b)[1..] == a[1..] + b;
      ReceiversConcat(a[1..], b);
    } else {
      assert a + b == b;
    }
  }

  /** Every waiter, in the order it called, receives `o`, and nobody else
      receives anything. */
  function DeliverAll<R, E>(waiters: seq<nat>, o: Result<R, E>): (ds: seq<Delivery<R, E>>)
    ensures Receivers(ds) == waiters
    ensures forall d :: d in ds ==> d.outcome == o
    decreases |waiters|
  {
    if waiters == [] then [] else [Delivery(waiters[0], o)] + DeliverAll(waiters[1..], o)
  }

  /** The callers waiting in slot `s`. */
  function Waiting<R, E>(s: Slot<R, E>): seq<nat>
  {
    if s.Pending? then s.waiters else []
  }

  /** One event on the slot. A call starts the fetch only from `NotStarted`;
      a call during a run joins the waiters; a call after a success is
      answered with the kept value. The answer of the run goes to every
      waiter, and a value is kept while an error empties the slot. */
  function Step<R, E>(s: Slot<R, E>, e: Event<R, E>): (eff: Effect<R, E>)
    ensures eff.started <==> s.NotStarted? && e.Called?
    ensures s.NotStarted? && e.Called? ==> eff.next == Pending([e.caller]) && eff.delivered == []
    ensures s.Pending? && e.Called? ==> eff.next == Pending(s.waiters + [e.caller]) && eff.delivered == []
    ensures s.Settled? && e.Called? ==> eff.delivered == [Delivery(e.caller, Success(s.value))]
    ensures s.Settled? ==> eff.next == s
    ensures s.Pending? && e.Answered? ==> Receivers(eff.delivered) == s.waiters
    ensures forall d :: d in eff.delivered ==>
      d.outcome == if s.Settled? then Success(s.value) else e.outcome
    ensures s.Pending? && e.Answered? && e.outcome.Failure? ==> eff.next == NotStarted
    ensures s.Pending? && e.Answered? && e.outcome.Success? ==> eff.next == Settled(e.outcome.value)
    ensures !s.Pending? && e.Answered? ==> eff == Effect(s, false, [])
  {
    match e
    case Called(c) =>
      (match s
       case NotStarted => Effect(Pending([c]), true, [])
       case Pending(ws) => Effect(Pending(ws + [c]), false, [])
       case Settled(v) => Effect(s, false, [Delivery(c, Success(v))]))
    case Answered(o) =>
      (match s
       case Pending(ws) =>
         Effect(if o.Failure? then NotStarted else Settled(o.value), false, DeliverAll(ws, o))
       case _ => Effect(s, false, []))  // only a running fetch answers
  }

  /** The slot, the number of fetches started and the outcomes handed out
      after a sequence of events. */
  datatype Summary<R, E> = Summary(final: Slot<R, E>, runs: nat, delivered: seq<Delivery<R, E>>)

  function Replay<R, E>(s: Slot<R, E>, trace: seq<Event<R, E>>): Summary<R, E>
    decreases |trace|
  {
    if trace == [] then Summary(s, 0, [])
    else
      var eff := Step(s, trace[0]);
      var rest := Replay(eff.next, trace[1..]);
      Summary(rest.final, rest.runs + (if eff.started then 1 else 0), eff.delivered + rest.delivered)
  }

  /** The number of runs in `trace` that ended in an error. */
  function Failures<R, E>(trace: seq<Event<R, E>>): nat
    decreases |trace|
  {
    if trace == [] then 0
    else (if trace[0].Answered? && trace[0].outcome.Failure? then 1 else 0) + Failures(trace[1..])
  }

  /** The callers of the thunk in `trace`, in calling order. */
  function CallersOf<R, E>(trace: seq<Event<R, E>>): seq<nat>
    decreases |trace|
  {
    if trace == [] then []
    else (if trace[0].Called? then [trace[0].caller] else []) + CallersOf(trace[1..])
  }

  /** The fetch is started at most once more than the number of runs that
      failed (once more only from an empty slot). */
  lemma {:induction false} RunsBound<R, E>(s: Slot<R, E>, trace: seq<Event<R, E>>)
    ensures Replay(s, trace).runs <= Failures(trace) + (if s.NotStarted? then 1 else 0)
    decreases |trace|
  {
    if trace != [] {
      RunsBound(Step(s, trace[0]).next, trace[1..]);
    }
  }

  /** Without a failed run, the fetch runs at most once, however many
      callers there are and however their calls interleave with the answer. */
  lemma RunsAtMostOnce<R, E>(trace: seq<Event<R, E>>)
    requires Failures(trace) == 0
    ensures Replay(NotStarted, trace).runs <= 1
  {
    RunsBound(NotStarted, trace);
  }

  /** Once a run has succeeded the slot keeps its value: nothing is started
      again and every later caller receives that value. */
  lemma {:induction false} SettledIsFinal<R, E>(v: R, trace: seq<Event<R, E>>)
    ensures Replay(Settled(v), trace).final == Settled(v)
    ensures Replay(Settled(v), trace).runs == 0
    ensures Receivers(Replay(Settled(v), trace).delivered) == CallersOf(trace)
    ensures forall d :: d in Replay(Settled(v), trace).delivered ==> d.outcome == Success(v)
    decreases |trace|
  {
    if trace != [] {
      SettledIsFinal(v, trace[1..]);
      ReceiversConcat(Step(Settled(v), trace[0]).delivered, Replay(Settled(v), trace[1..]).delivered);
    }
  }

  /** One event loses no caller: whoever waited or called is now answered
      or still waiting, once each. */
  lemma StepKeepsCallers<R, E>(s: Slot<R, E>, e: Event<R, E>)
    ensures multiset(Receivers(Step(s, e).delivered)) + multiset(Waiting(Step(s, e).next)) ==
      multiset(Waiting(s)) + multiset(if e.Called? then [e.caller] else [])
  {
  }

  /** No caller is lost or answered twice: over any trace, the callers
      answered plus those still waiting are exactly those that were waiting
      at the start plus those that called. */
  lemma {:induction false} NoCallerLost<R, E>(s: Slot<R, E>, trace: seq<Event<R, E>>)
    ensures multiset(Receivers(Replay(s, trace).delivered)) + multiset(Waiting(Replay(s, trace).final)) ==
      multiset(Waiting(s)) + multiset(CallersOf(trace))
    decreases |trace|
  {
    if trace != [] {
      var eff := Step(s, trace[0]);
      var rest := Replay(eff.next, trace[1..]);
      var mine: seq<nat> := if trace[0].Called? then [trace[0].caller] else [];
      NoCallerLost(eff.next, trace[1..]);
      StepKeepsCallers(s, trace[0]);
      ReceiversConcat(eff.delivered, rest.delivered);
      assert Replay(s, trace) == Summary(rest.final, rest.runs + (if eff.started then 1 else 0),
                                         eff.delivered + rest.delivered);
      assert CallersOf(trace) == mine + CallersOf(trace[1..]);
      MultisetShuffle(multiset(Receivers(eff.delivered)), multiset(Receivers(rest.delivered)),
                      multiset(Waiting(eff.next)), multiset(Waiting(rest.final)),
                      multiset(Waiting(s)), multiset(mine), multiset(CallersOf(trace[1..])));
    }
  }

  /** The bookkeeping step of `NoCallerLost`: one event's balance chained
      with the rest of the trace's. */
  lemma MultisetShuffle(a: multiset<nat>, b: multiset<nat>, wNext: multiset<nat>, wFinal: multiset<nat>,
                        w: multiset<nat>, c: multiset<nat>, cs: multiset<nat>)
    requires a + wNext == w + c
    requires b + wFinal == wNext + cs
    ensures (a + b) + wFinal == w + (c + cs)
  {
    calc {
      (a + b) + wFinal;
      a + (b + wFinal);
      a + (wNext + cs);
      (a + wNext) + cs;
      (w + c) + cs;
      w + (c + cs);
    }
  }

  /** Once a run has succeeded, every caller (those waiting at the start
      and those that called) has been answered exactly once. */
  lemma EveryCallerAnswered<R, E>(s: Slot<R, E>, trace: seq<Event<R, E>>)
    requires Replay(s, trace).final.Settled?
    ensures multiset(Receivers(Replay(s, trace).delivered)) == multiset(Waiting(s)) + multiset(CallersOf(trace))
  {
    NoCallerLost(s, trace);
  }

  /** Without a failed run, every caller that is answered receives the same
      outcome. */
  lemma {:induction false} SameOutcome<R, E>(s: Slot<R, E>, trace: seq<Event<R, E>>)
    requires Failures(trace) == 0
    ensures forall d, d' :: d in Replay(s, trace).delivered && d' in Replay(s, trace).delivered ==>
      d.outcome == d'.outcome
    decreases |trace|
  {
    if trace != [] {
      var eff := Step(s, trace[0]);
      match s
      case Settled(v) =>
        SettledIsFinal(v, trace);
      case NotStarted =>
        SameOutcome(eff.next, trace[1..]);
      case Pending(ws) =>
        if trace[0].Called? {
          SameOutcome(eff.next, trace[1..]);
        } else {
          var o := trace[0].outcome;
          SettledIsFinal(o.value, trace[1..]);
        }
    }
  }

  /** The thunk object: the slot, and ghost counters of the fetches it
      started and of the runs that failed. */
  class Thunk<R, E> {
    var slot: Slot<R, E>
    ghost var runs: nat
    ghost var failures: nat

    /** Every run is the current one or one that failed. */
    ghost predicate Valid()
      reads this
    {
      runs == failures + (if slot.NotStarted? then 0 else 1)
    }

    constructor ()
      ensures Valid() && slot == NotStarted && runs == 0
    {
      slot := NotStarted;
      runs, failures := 0, 0;
    }

    /** `thunk(callback)`: the answer is either to start the fetch, or to
        wait, or the kept value. */
    method Call(caller: nat) returns (start: bool, delivered: seq<Delivery<R, E>>)
      requires Valid()
      modifies this
      ensures Valid() && failures == old(failures)
      ensures slot == Step(old(slot), Called(caller)).next
      ensures start == Step(old(slot), Called(caller)).started
      ensures delivered == Step(old(slot), Called(caller)).delivered
      ensures runs == old(runs) + (if start then 1 else 0)
    {
      match slot
      case NotStarted =>
        slot, start, delivered := Pending([caller]), true, [];
        runs := runs + 1;
      case Pending(ws) =>
        slot, start, delivered := Pending(ws + [caller]), false, [];
      case Settled(v) =>
        start, delivered := false, [Delivery(caller, Success(v))];
    }

    /** The running fetch calls back with `outcome`: every waiter receives
        it; an error empties the slot, a value is kept. */
    method Done(outcome: Result<R, E>) returns (delivered: seq<Delivery<R, E>>)
      requires Valid() && slot.Pending?
      modifies this
      ensures Valid() && runs == old(runs)
      ensures slot == Step(old(slot), Answered(outcome)).next
      ensures delivered == Step(old(slot), Answered(outcome)).delivered
      ensures failures == old(failures) + (if outcome.Failure? then 1 else 0)
    {
      delivered := DeliverAll(slot.waiters, outcome);
      if outcome.Failure? {
        slot := NotStarted;
        failures := failures + 1;
      } else {
        slot := Settled(outcome.value);
      }
    }
  }
}
