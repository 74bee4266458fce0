/**
  Progress events: one in flight, one pending into which later ones are merged
  (agent/src/progressDelivery.ts:2-42, agent/src/runtime.ts:133-145, 289-290).
  The event loop runs one continuation at a time, so each method is one stretch of code
  between two suspensions of `drain`.
 */
module ProgressDelivery {
  import opened SourcePaths

  type Event = map<string, string>

  /** Where `drain` is suspended: not running, in its timer, in `send`, or finished with its
      `finally` still to come. */
  datatype Phase = Idle | Waiting(until: int) | Sending | Ending

  /** `lastSent` is minus infinity at first. What follows it is history: every event
      enqueued, the events sent with their times and sequence numbers, how many sends have
      settled, and before which enqueued event each send was cut off. */
  datatype State = State(
    pending: Option<Event>, phase: Phase, lastSent: Option<int>, sequence: nat,
    enqueued: seq<Event>, sent: seq<Event>, times: seq<int>, numbers: seq<nat>, settled: nat, cuts: seq<nat>)

  const INITIAL := State(None, Idle, None, 0, [], [], [], [], 0, [0])

  function Joined(pending: Option<Event>, event: Event): Event {
    if pending.Some? then pending.value + event else event
  }

  function Sent(s: State, now: int): State
    requires s.pending.Some?
  {
    State(None, Sending, Some(now), s.sequence + 1, s.enqueued, s.sent + [s.pending.value], s.times + [now],
          s.numbers + [s.sequence + 1], s.settled, s.cuts + [|s.enqueued|])
  }

  /** The head of the drain loop. */
  function Drained(s: State, interval: nat, now: int): State {
    if s.pending.None? then s.(phase := Ending)
    else if s.lastSent.Some? && s.lastSent.value + interval - now > 0 then
      s.(phase := Waiting(s.lastSent.value + interval))
    else Sent(s, now)
  }

  datatype Signal = Enqueue(event: Event) | Wake | Settle | Finalize

  predicate Enabled(s: State, signal: Signal) {
    match signal
    case Enqueue(_) => true
    case Wake => s.phase.Waiting?
    case Settle => s.phase.Sending?
    case Finalize => s.phase.Ending?
  }

  function Step(s: State, interval: nat, signal: Signal, now: int): State {
    match signal
    case Enqueue(event) =>
      var t := s.(pending := Some(Joined(s.pending, event)), enqueued := s.enqueued + [event]);
      if t.phase.Idle? then Drained(t, interval, now) else t
    case Wake => if s.phase.Waiting? && s.pending.Some? then Sent(s, now) else s
    case Settle => if s.phase.Sending? then Drained(s.(settled := s.settled + 1), interval, now) else s
    case Finalize =>
      if s.phase.Ending? && s.pending.Some? then Drained(s, interval, now)
      else if s.phase.Ending? then s.(phase := Idle)
      else s
  }

  class Delivery {
    const interval: nat
    var pending: Option<Event>
    var phase: Phase
    var lastSent: Option<int>
    var sequence: nat
    ghost var enqueued: seq<Event>
    ghost var sent: seq<Event>
    ghost var times: seq<int>
    ghost var numbers: seq<nat>
    ghost var settled: nat
    ghost var cuts: seq<nat>

    ghost function Abstract(): State
      reads this
    {
      State(pending, phase, lastSent, sequence, enqueued, sent, times, numbers, settled, cuts)
    }

    constructor (interval: nat)
      ensures Abstract() == INITIAL && this.interval == interval
    {
      this.interval := interval;
      pending, phase, lastSent, sequence := None, Idle, None, 0;
      enqueued, sent, times, numbers, settled, cuts := [], [], [], [], 0, [0];
    }

    /** Hands the pending event to `send`, which numbers it. */
    method Send(now: int)
      requires pending.Some?
      modifies this
      ensures Abstract() == Sent(old(Abstract()), now)
    {
      var event := pending.value;
      pending := None;
      lastSent := Some(now);
      sequence := sequence + 1;
      phase := Sending;
      sent, times, numbers, cuts := sent + [event], times + [now], numbers + [sequence], cuts + [|enqueued|];
    }

    method Drain(now: int)
      modifies this
      ensures Abstract() == Drained(old(Abstract()), interval, now)
    {
      if pending.None? {
        phase := Ending;
      } else if lastSent.Some? && lastSent.value + interval - now > 0 {
        phase := Waiting(lastSent.value + interval);
      } else {
        Send(now);
      }
    }

    method Enqueue(event: Event, now: int)
      modifies this
      ensures Abstract() == Step(old(Abstract()), interval, Signal.Enqueue(event), now)
    {
      pending := Some(if pending.Some? then pending.value + event else event);
      enqueued := enqueued + [event];
      if phase == Idle {
        Drain(now);
      }
    }

    /** The timer fires: what is pending by now goes out. */
    method Wake(now: int)
      requires phase.Waiting? && pending.Some?
      modifies this
      ensures Abstract() == Step(old(Abstract()), interval, Signal.Wake, now)
    {
      Send(now);
    }

    /** A send ends, well or not: failures are reported and forgotten. */
    method Settle(now: int)
      requires phase.Sending?
      modifies this
      ensures Abstract() == Step(old(Abstract()), interval, Signal.Settle, now)
    {
      settled := settled + 1;
      Drain(now);
    }

    /** The `finally` of `start`: whatever came in after the loop ended starts it again. */
    method Finalize(now: int)
      requires phase.Ending?
      modifies this
      ensures Abstract() == Step(old(Abstract()), interval, Signal.Finalize, now)
    {
      if pending.Some? {
        Drain(now);
      } else {
        phase := Idle;
      }
    }
  }

  // ---- what every run keeps ----

  function Merged(events: seq<Event>): Event {
    if events == [] then map[] else Merged(events[..|events| - 1]) + events[|events| - 1]
  }

  predicate Block(enqueued: seq<Event>, sent: seq<Event>, cuts: seq<nat>, i: nat) {
    && i < |sent| && i + 1 < |cuts| && cuts[i] < cuts[i + 1] <= |enqueued|
    && sent[i] == Merged(enqueued[cuts[i]..cuts[i + 1]])
  }

  /** Each send is the merge of a block of enqueued events, the blocks follow one another,
      and what is left over is pending. */
  ghost predicate Partition(s: State) {
    && |s.cuts| == |s.sent| + 1 && s.cuts[0] == 0 && s.cuts[|s.sent|] <= |s.enqueued|
    && (forall i: nat :: i < |s.sent| ==> Block(s.enqueued, s.sent, s.cuts, i))
    && (s.pending.None? <==> s.cuts[|s.sent|] == |s.enqueued|)
    && (s.pending.Some? ==> s.pending.value == Merged(s.enqueued[s.cuts[|s.sent|]..]))
  }

  ghost predicate Paced(s: State, interval: nat, now: int) {
    && |s.times| == |s.sent|
    && (s.sent == [] <==> s.lastSent.None?)
    && (s.sent != [] ==> s.lastSent == Some(s.times[|s.times| - 1]) && s.times[|s.times| - 1] <= now)
    && (forall i :: 0 <= i < |s.times| - 1 ==> s.times[i] + interval <= s.times[i + 1])
    && (s.phase.Waiting? ==> s.lastSent.Some? && s.phase.until == s.lastSent.value + interval)
  }

  ghost predicate Numbered(s: State) {
    && s.sequence == |s.numbers| == |s.sent|
    && forall i :: 0 <= i < |s.numbers| ==> s.numbers[i] == i + 1
  }

  /** At most one send is in flight; nothing is pending unless `drain` will see it. */
  ghost predicate Driven(s: State) {
    && s.settled + (if s.phase.Sending? then 1 else 0) == |s.sent|
    && (s.phase.Idle? ==> s.pending.None?)
    && (s.phase.Waiting? ==> s.pending.Some?)
  }

  ghost predicate Ok(s: State, interval: nat, now: int) {
    Partition(s) && Paced(s, interval, now) && Numbered(s) && Driven(s)
  }

  /** The clock does not go back, and no timer fires early. */
  predicate Timely(s: State, signal: Signal, before: int, now: int) {
    before <= now && (signal.Wake? && s.phase.Waiting? ==> s.phase.until <= now)
  }

  lemma BlockStays(
    enqueued: seq<Event>, sent: seq<Event>, cuts: seq<nat>, i: nat,
    longer: seq<Event>, sentMore: seq<Event>, cutsMore: seq<nat>)
    requires Block(enqueued, sent, cuts, i) && enqueued <= longer && sent <= sentMore && cuts <= cutsMore
    ensures Block(longer, sentMore, cutsMore, i)
  {
    hide Merged;
    assert longer[cuts[i]..cuts[i + 1]] == enqueued[cuts[i]..cuts[i + 1]];
  }

  lemma MergedMore(events: seq<Event>, event: Event)
    ensures Merged(events + [event]) == Merged(events) + event
    ensures Merged([]) + event == event
  {
    assert (events + [event])[..|events|] == events;
  }

  lemma EnqueueKeepsPartition(s: State, event: Event)
    requires Partition(s)
    ensures Partition(s.(pending := Some(Joined(s.pending, event)), enqueued := s.enqueued + [event]))
  {
    hide Merged;
    var last, longer := s.cuts[|s.sent|], s.enqueued + [event];
    assert longer[last..] == s.enqueued[last..] + [event];
    MergedMore(s.enqueued[last..], event);
    assert s.pending.None? ==> s.enqueued[last..] == [];
    forall i: nat | i < |s.sent| ensures Block(longer, s.sent, s.cuts, i) {
      BlockStays(s.enqueued, s.sent, s.cuts, i, longer, s.sent, s.cuts);
    }
    hide Block;
  }

  lemma SendKeepsPartition(s: State, now: int)
    requires Partition(s) && s.pending.Some?
    ensures Partition(Sent(s, now))
  {
    hide Merged;
    var t := Sent(s, now);
    assert s.enqueued[s.cuts[|s.sent|]..|s.enqueued|] == s.enqueued[s.cuts[|s.sent|]..];
    assert Block(t.enqueued, t.sent, t.cuts, |s.sent|);
    forall i: nat | i < |s.sent| ensures Block(t.enqueued, t.sent, t.cuts, i) {
      BlockStays(s.enqueued, s.sent, s.cuts, i, t.enqueued, t.sent, t.cuts);
    }
    assert t.enqueued[|t.enqueued|..] == [];
    hide Block;
  }

  lemma DrainKeepsOk(s: State, interval: nat, before: int, now: int)
    requires Partition(s) && Paced(s.(phase := Idle), interval, before) && Numbered(s) && before <= now
    requires s.settled == |s.sent|
    ensures Ok(Drained(s, interval, now), interval, now)
    ensures Drained(s, interval, now).enqueued == s.enqueued
  {
    hide Merged, Block;
    if s.pending.Some? {
      SendKeepsPartition(s, now);
    }
  }

  lemma StepKeepsOk(s: State, interval: nat, signal: Signal, before: int, now: int)
    requires Ok(s, interval, before) && Timely(s, signal, before, now)
    ensures Ok(Step(s, interval, signal, now), interval, now)
  {
    hide Merged, Block, Drained;
    match signal
    case Enqueue(event) =>
      EnqueueKeepsPartition(s, event);
      if s.phase.Idle? {
        DrainKeepsOk(s.(pending := Some(Joined(s.pending, event)), enqueued := s.enqueued + [event]), interval, before,
                     now);
      }
    case Wake =>
      if s.phase.Waiting? {
        SendKeepsPartition(s, now);
      }
    case Settle =>
      if s.phase.Sending? {
        DrainKeepsOk(s.(settled := s.settled + 1), interval, before, now);
      }
    case Finalize =>
      if s.phase.Ending? && s.pending.Some? {
        DrainKeepsOk(s, interval, before, now);
      }
  }

  datatype Moment = Moment(signal: Signal, now: int)

  function Now(moments: seq<Moment>): int { if moments == [] then 0 else moments[|moments| - 1].now }

  function Run(interval: nat, moments: seq<Moment>): State {
    if moments == [] then INITIAL
    else
      var last := moments[|moments| - 1];
      Step(Run(interval, moments[..|moments| - 1]), interval, last.signal, last.now)
  }

  predicate TimelyRun(interval: nat, moments: seq<Moment>) {
    moments != [] ==>
      var before, last := moments[..|moments| - 1], moments[|moments| - 1];
      TimelyRun(interval, before) && Timely(Run(interval, before), last.signal, Now(before), last.now)
  }

  lemma {:induction false} EveryRunIsOk(interval: nat, moments: seq<Moment>)
    requires TimelyRun(interval, moments)
    ensures Ok(Run(interval, moments), interval, Now(moments))
  {
    if moments == [] {
    } else {
      var before, last := moments[..|moments| - 1], moments[|moments| - 1];
      EveryRunIsOk(interval, before);
      hide Ok, Step, Timely;
      StepKeepsOk(Run(interval, before), interval, last.signal, Now(before), last.now);
    }
  }

  lemma {:induction false} MergedConcat(a: seq<Event>, b: seq<Event>)
    ensures Merged(a + b) == Merged(a) + Merged(b)
  {
    if b == [] {
      assert a + b == a;
      assert Merged(b) == map[] && Merged(a) + map[] == Merged(a);
    } else {
      hide Merged;
      var rest, event := b[..|b| - 1], b[|b| - 1];
      MergedConcat(a, rest);
      MergedMore(a + rest, event);
      MergedMore(rest, event);
      assert (a + rest) + [event] == a + b && rest + [event] == b;
      MergeIsAssociative(Merged(a), Merged(rest), event);
    }
  }

  lemma MergeIsAssociative(a: Event, b: Event, c: Event)
    ensures (a + b) + c == a + (b + c)
  {
  }

  lemma {:induction false} SentUpTo(s: State, n: nat)
    requires Partition(s) && n <= |s.sent|
    ensures s.cuts[n] <= |s.enqueued| && Merged(s.sent[..n]) == Merged(s.enqueued[..s.cuts[n]])
  {
    if n > 0 {
      SentUpTo(s, n - 1);
      assert Block(s.enqueued, s.sent, s.cuts, n - 1);
      OneMoreBlock(s.enqueued, s.sent, s.cuts, n - 1);
    }
  }

  lemma OneMoreBlock(enqueued: seq<Event>, sent: seq<Event>, cuts: seq<nat>, n: nat)
    requires Block(enqueued, sent, cuts, n) && Merged(sent[..n]) == Merged(enqueued[..cuts[n]])
    ensures Merged(sent[..n + 1]) == Merged(enqueued[..cuts[n + 1]])
  {
    hide Merged;
    MergedMore(sent[..n], sent[n]);
    MergedConcat(enqueued[..cuts[n]], enqueued[cuts[n]..cuts[n + 1]]);
    assert sent[..n + 1] == sent[..n] + [sent[n]];
    assert enqueued[..cuts[n + 1]] == enqueued[..cuts[n]] + enqueued[cuts[n]..cuts[n + 1]];
  }

  /** Nothing is lost or reordered: what was sent, with what is pending laid over it, is
      what was enqueued. */
  lemma NothingIsLost(interval: nat, moments: seq<Moment>)
    requires TimelyRun(interval, moments)
    ensures var s := Run(interval, moments);
            Merged(s.enqueued) == if s.pending.Some? then Merged(s.sent) + s.pending.value else Merged(s.sent)
  {
    EveryRunIsOk(interval, moments);
    hide Run, TimelyRun;
    Conserved(Run(interval, moments));
  }

  lemma Conserved(s: State)
    requires Partition(s)
    ensures Merged(s.enqueued) == if s.pending.Some? then Merged(s.sent) + s.pending.value else Merged(s.sent)
  {
    hide Merged, Block;
    SentUpTo(s, |s.sent|);
    var last := s.cuts[|s.sent|];
    MergedConcat(s.enqueued[..last], s.enqueued[last..]);
    assert s.sent[..|s.sent|] == s.sent && s.enqueued == s.enqueued[..last] + s.enqueued[last..];
    assert s.pending.None? ==> s.enqueued[..last] == s.enqueued;
  }

  /** How many continuations are still to run before `flush` returns, if no event comes in. */
  function Rank(s: State): nat {
    match s.phase
    case Idle => 0
    case Waiting(_) => 3
    case Sending => if s.pending.Some? then 4 else 2
    case Ending => if s.pending.Some? then 4 else 1
  }

  /** No wake-up is lost: until `drain` has ended, exactly one continuation is due, and each
      brings the end nearer. */
  lemma FlushIsNearer(s: State, interval: nat, signal: Signal, before: int, now: int)
    requires Ok(s, interval, before) && !signal.Enqueue? && Enabled(s, signal)
    ensures Rank(Step(s, interval, signal, now)) < Rank(s) <= 4
    ensures Step(s, interval, signal, now).enqueued == s.enqueued
    ensures forall other: Signal :: !other.Enqueue? && Enabled(s, other) ==> other == signal
  {
    hide Merged, Partition, Paced, Numbered;
  }

  lemma SomethingIsDue(s: State)
    requires !s.phase.Idle?
    ensures exists signal: Signal :: !signal.Enqueue? && Enabled(s, signal)
  {
    assert Enabled(s, Wake) || Enabled(s, Settle) || Enabled(s, Finalize);
  }

  /** From any point of a run `flush` returns after at most four continuations, the timers
      firing when they are due. */
  lemma {:induction false} FlushReturns(interval: nat, moments: seq<Moment>) returns (longer: seq<Moment>)
    requires TimelyRun(interval, moments)
    ensures moments <= longer && |longer| <= |moments| + Rank(Run(interval, moments)) <= |moments| + 4
    ensures TimelyRun(interval, longer)
    ensures Run(interval, longer).phase.Idle?
    ensures Run(interval, longer).enqueued == Run(interval, moments).enqueued
    decreases Rank(Run(interval, moments))
  {
    EveryRunIsOk(interval, moments);
    var s := Run(interval, moments);
    if s.phase.Idle? {
      longer := moments;
    } else {
      hide Ok, Step, Rank;
      SomethingIsDue(s);
      var signal: Signal :| !signal.Enqueue? && Enabled(s, signal);
      var now := if s.phase.Waiting? && s.phase.until > Now(moments) then s.phase.until else Now(moments);
      FlushIsNearer(s, interval, signal, Now(moments), now);
      var next := moments + [Moment(signal, now)];
      assert next[..|moments|] == moments;
      longer := FlushReturns(interval, next);
    }
  }

  /** When `flush` has returned, everything enqueued has been sent and has settled, the
      events are numbered 1 to n, the completion takes n + 1, and the sends were a full
      interval apart. */
  lemma AfterFlush(interval: nat, moments: seq<Moment>)
    requires TimelyRun(interval, moments) && Run(interval, moments).phase.Idle?
    ensures var s := Run(interval, moments);
            && Merged(s.sent) == Merged(s.enqueued) && s.pending.None? && s.settled == |s.sent|
            && |s.numbers| == |s.sent| == s.sequence
            && (forall i :: 0 <= i < |s.numbers| ==> s.numbers[i] == i + 1)
            && |s.times| == |s.sent|
            && (forall i :: 0 <= i < |s.times| - 1 ==> s.times[i] + interval <= s.times[i + 1])
  {
    EveryRunIsOk(interval, moments);
    hide Run, TimelyRun;
    Conserved(Run(interval, moments));
  }

  /** What is pending goes out at once when a full interval has passed since the last send, or
      nothing was sent yet; else the timer is set for just then. */
  lemma DrainIsPunctual(s: State, interval: nat, now: int)
    requires s.pending.Some?
    ensures var t := Drained(s, interval, now);
            if s.lastSent.None? || s.lastSent.value + interval <= now
            then t.phase.Sending? && t.sent == s.sent + [s.pending.value] && t.pending.None?
                 && t.times == s.times + [now] && t.numbers == s.numbers + [s.sequence + 1]
            else t == s.(phase := Waiting(s.lastSent.value + interval))
  {
  }

  /** At most one send is in flight at any time. */
  lemma OneInFlight(interval: nat, moments: seq<Moment>)
    requires TimelyRun(interval, moments)
    ensures Run(interval, moments).settled <= |Run(interval, moments).sent| <= Run(interval, moments).settled + 1
    ensures Run(interval, moments).pending.Some? ==> !Run(interval, moments).phase.Idle?
  {
    EveryRunIsOk(interval, moments);
    hide Run, TimelyRun, Merged, Partition, Paced, Numbered;
  }
}
