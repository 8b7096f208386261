/** The frame prefetcher: a producer thread fills a bounded queue, one consumer empties it, a sentinel
    marks the end, a source error is handed over, and close may come at any time. Every lock-protected
    operation of the queue, the event and the stored error is one atomic step. */
module Prefetch {
  import opened Types

  datatype Slot = Item(index: nat) | Sentinel

  /** The source yields `count` items and then ends, or fails. */
  datatype Source = Source(count: nat, fails: bool)

  datatype Producer =
    | Fetching               // about to ask the source
    | Offering(slot: Slot)   // about to look at the stop signal
    | Putting(slot: Slot)    // saw no stop; inside the put with timeout
    | Finished

  datatype Consumer =
    | Idle
    | Waiting                // inside get
    | Draining               // inside close, emptying the queue
    | Joining                // inside close, waiting for the thread

  datatype State = State(
    produced: nat,
    queue: seq<Slot>,
    stop: bool,
    error: bool,
    producer: Producer,
    consumer: Consumer,
    delivered: seq<nat>,
    ended: bool,             // the sentinel was taken
    raised: nat,             // how often the source error was raised
    atClose: Option<nat>)    // items delivered when close was first called

  function Init(): State { State(0, [], false, false, Fetching, Idle, [], false, 0, None) }

  datatype Action = Produce | Next | Get | Close | Drain | Join

  // ---- the steps ----

  function ProducerStep(src: Source, depth: nat, s: State): State {
    match s.producer
    case Fetching =>
      if s.produced < src.count then s.(producer := Offering(Item(s.produced)), produced := s.produced + 1)
      else s.(producer := Offering(Sentinel), error := s.error || src.fails)
    case Offering(slot) =>
      if !s.stop then s.(producer := Putting(slot))
      else if slot.Item? then s.(producer := Offering(Sentinel))
      else s.(producer := Finished)
    case Putting(slot) =>
      if |s.queue| < depth then s.(queue := s.queue + [slot], producer := if slot.Item? then Fetching else Finished)
      else s.(producer := Offering(slot))
    case Finished => s
  }

  function Taken(s: State): State
    requires s.queue != []
  {
    var rest := s.(queue := s.queue[1..], consumer := Idle);
    match s.queue[0]
    case Item(index) => rest.(delivered := s.delivered + [index])
    case Sentinel => rest.(stop := true, ended := true, error := false, raised := s.raised + if s.error then 1 else 0)
  }

  /** A step that is not enabled leaves the state as it is. */
  function Step(src: Source, depth: nat, s: State, a: Action): State {
    match a
    case Produce => ProducerStep(src, depth, s)
    case Next => if s.consumer.Idle? && !s.stop then s.(consumer := Waiting) else s
    case Get => if s.consumer.Waiting? && s.queue != [] then Taken(s) else s
    case Close =>
      if s.consumer.Idle?
      then s.(stop := true, consumer := Draining, atClose := if s.atClose.None? then Some(|s.delivered|) else s.atClose)
      else s
    case Drain =>
      if !s.consumer.Draining? then s else if s.queue != [] then s.(queue := s.queue[1..]) else s.(consumer := Joining)
    case Join => if s.consumer.Joining? then s.(consumer := Idle) else s
  }

  function Run(src: Source, depth: nat, s: State, acts: seq<Action>): State
    decreases |acts|
  {
    if acts == [] then s else Run(src, depth, Step(src, depth, s, acts[0]), acts[1..])
  }

  // ---- the invariant ----

  function InFlight(p: Producer): seq<Slot> { if p.Offering? || p.Putting? then [p.slot] else [] }

  predicate SentinelSent(p: Producer) { p.Finished? || ((p.Offering? || p.Putting?) && p.slot.Sentinel?) }

  function Items(from: nat, to: nat): seq<Slot>
    requires from <= to
  {
    seq(to - from, i requires 0 <= i < to - from => Item(from + i))
  }

  ghost predicate InOrder(delivered: seq<nat>) { forall i :: 0 <= i < |delivered| ==> delivered[i] == i }

  /** While nobody stopped: the queue and the item in flight are exactly what was fetched and not yet delivered. */
  ghost predicate Flowing(src: Source, s: State) {
    && |s.delivered| <= s.produced && s.raised == 0
    && s.queue + InFlight(s.producer) ==
       Items(|s.delivered|, s.produced) + (if SentinelSent(s.producer) then [Sentinel] else [])
    && (SentinelSent(s.producer) ==> s.produced == src.count)
    && s.error == (SentinelSent(s.producer) && src.fails)
  }

  ghost predicate Inv(src: Source, depth: nat, s: State) {
    && |s.queue| <= depth && s.produced <= src.count && InOrder(s.delivered) && |s.delivered| <= src.count
    && (s.stop <==> s.ended || s.atClose.Some?)
    && (!s.stop ==> Flowing(src, s))
    && (s.ended ==> |s.delivered| == src.count && s.raised == if src.fails then 1 else 0)
    && (!s.ended ==> s.raised == 0)
    && (s.atClose.Some? ==> |s.delivered| == s.atClose.value)
    && (s.consumer.Waiting? ==> !s.stop) && (s.consumer.Draining? || s.consumer.Joining? ==> s.stop)
  }

  lemma ProducerKeepsFlow(src: Source, depth: nat, s: State)
    requires Inv(src, depth, s) && !s.stop
    ensures Flowing(src, ProducerStep(src, depth, s))
  {
    var next := ProducerStep(src, depth, s);
    var items := Items(|s.delivered|, s.produced);
    assert s.queue + [] == s.queue && items + [] == items;
    if s.producer.Fetching? && s.produced < src.count {
      assert Items(|s.delivered|, s.produced + 1) == items + [Item(s.produced)];
      assert items + [Item(s.produced)] + [] == items + [Item(s.produced)];
    }
    if s.producer.Putting? {
      assert (s.queue + [s.producer.slot]) + [] == s.queue + [s.producer.slot];
      assert next.queue + InFlight(next.producer) == s.queue + InFlight(s.producer);
    }
  }

  lemma TakeKeepsInv(src: Source, depth: nat, s: State)
    requires Inv(src, depth, s) && s.consumer.Waiting? && s.queue != []
    ensures Inv(src, depth, Taken(s))
  {
    var line := s.queue + InFlight(s.producer);
    var items := Items(|s.delivered|, s.produced);
    assert line[0] == s.queue[0];
    assert items == [] ==> line == (if SentinelSent(s.producer) then [Sentinel] else []);
    assert items != [] ==> line[0] == items[0];
    if s.queue[0].Item? {
      assert line[0] == items[0] == Item(|s.delivered|);
      assert items[1..] == Items(|s.delivered| + 1, s.produced);
      assert line[1..] == s.queue[1..] + InFlight(s.producer);
      assert (items + (if SentinelSent(s.producer) then [Sentinel] else []))[1..] ==
             items[1..] + (if SentinelSent(s.producer) then [Sentinel] else []);
    }
  }

  lemma StepKeepsInv(src: Source, depth: nat, s: State, a: Action)
    requires Inv(src, depth, s)
    ensures Inv(src, depth, Step(src, depth, s, a))
  {
    if a.Produce? && !s.stop {
      ProducerKeepsFlow(src, depth, s);
    }
    if a.Get? && s.consumer.Waiting? && s.queue != [] {
      TakeKeepsInv(src, depth, s);
    }
  }

  lemma {:induction false} RunKeepsInv(src: Source, depth: nat, s: State, acts: seq<Action>)
    requires Inv(src, depth, s)
    ensures Inv(src, depth, Run(src, depth, s, acts))
    decreases |acts|
  {
    if acts != [] {
      StepKeepsInv(src, depth, s, acts[0]);
      RunKeepsInv(src, depth, Step(src, depth, s, acts[0]), acts[1..]);
    }
  }

  // ---- what every run guarantees ----

  /** Delivered is always a prefix of the source in order; the queue never exceeds its depth; the end comes
      only after every item, with the source error raised exactly once if there is one, and else never. */
  lemma EveryRunIsSafe(src: Source, depth: nat, acts: seq<Action>)
    ensures var s := Run(src, depth, Init(), acts);
            && |s.queue| <= depth && InOrder(s.delivered) && |s.delivered| <= src.count
            && (s.ended ==> |s.delivered| == src.count)
            && s.raised == if s.ended && src.fails then 1 else 0
  {
    assert [] + [] == Items(0, 0) + [];
    RunKeepsInv(src, depth, Init(), acts);
  }

  lemma {:induction false} StoppedStaysStopped(src: Source, depth: nat, s: State, acts: seq<Action>)
    requires Inv(src, depth, s) && s.stop && !s.consumer.Waiting?
    ensures var t := Run(src, depth, s, acts);
            t.stop && t.delivered == s.delivered && t.raised == s.raised && t.ended == s.ended
    decreases |acts|
  {
    if acts != [] {
      StepKeepsInv(src, depth, s, acts[0]);
      StoppedStaysStopped(src, depth, Step(src, depth, s, acts[0]), acts[1..]);
    }
  }

  /** Once close was called, or the end was reported, nothing more is delivered and nothing more is raised. */
  lemma NothingAfterClose(src: Source, depth: nat, before: seq<Action>, after: seq<Action>)
    ensures var s := Run(src, depth, Init(), before);
            s.atClose.Some? || s.ended ==>
              var t := Run(src, depth, s, after); t.delivered == s.delivered && t.raised == s.raised
  {
    assert [] + [] == Items(0, 0) + [];
    RunKeepsInv(src, depth, Init(), before);
    var s := Run(src, depth, Init(), before);
    if s.stop {
      StoppedStaysStopped(src, depth, s, after);
    }
  }

  // ---- nobody is stuck ----

  /** Steps the producer itself still needs before it is finished, once stop is signalled. */
  function Remaining(p: Producer): nat {
    match p
    case Finished => 0
    case Offering(slot) => if slot.Sentinel? then 1 else 2
    case Putting(slot) => if slot.Sentinel? then 2 else 4
    case Fetching => 3
  }

  /** After stop every step of the producer brings it closer to the end, whatever happens in between and
      however full the queue is: it never blocks for good on a queue nobody empties. */
  lemma StoppedProducerFinishes(src: Source, depth: nat, s: State)
    requires s.stop && !s.producer.Finished?
    ensures Remaining(ProducerStep(src, depth, s).producer) < Remaining(s.producer)
    ensures ProducerStep(src, depth, s).stop
  {
  }

  /** Producer steps until something is in an empty queue. */
  function UntilPut(p: Producer): nat {
    match p
    case Fetching => 3
    case Offering(_) => 2
    case Putting(_) => 1
    case Finished => 0
  }

  /** A consumer waiting on an empty queue: the producer is alive and each of its steps brings the next
      slot closer, so that one of its next three fills the queue. */
  lemma WaitingConsumerIsServed(src: Source, depth: nat, s: State)
    requires depth >= 1 && Inv(src, depth, s) && s.consumer.Waiting? && s.queue == []
    ensures var t := ProducerStep(src, depth, s);
            !s.producer.Finished? && (t.queue != [] || UntilPut(t.producer) < UntilPut(s.producer))
  {
    var items := Items(|s.delivered|, s.produced);
    assert s.producer.Finished? ==> |s.queue + InFlight(s.producer)| == 0;
    assert |items + (if SentinelSent(s.producer) then [Sentinel] else [])| == |items|
           + if SentinelSent(s.producer) then 1 else 0;
  }

  /** From every state that nobody stopped, the iteration can still be completed: no reachable state is dead. */
  lemma CanAlwaysFinish(src: Source, depth: nat, s: State) returns (acts: seq<Action>)
    requires depth >= 1 && Inv(src, depth, s) && !s.stop
    ensures Run(src, depth, s, acts).ended
    decreases src.count - |s.delivered|, if s.queue == [] then UntilPut(s.producer) + 1 else 0,
      if s.consumer.Idle? then 1 else 0
  {
    var a := if s.consumer.Idle? then Next else if s.queue != [] then Get else Produce;
    var t := Step(src, depth, s, a);
    StepKeepsInv(src, depth, s, a);
    if s.consumer.Waiting? && s.queue == [] {
      WaitingConsumerIsServed(src, depth, s);
    }
    var rest := [];
    if !t.ended {
      rest := CanAlwaysFinish(src, depth, t);
    }
    acts := [a] + rest;
    assert acts[1..] == rest;
  }

  // ---- the object, one method per atomic region ----

  datatype Outcome = Blocked | Delivers(index: nat) | Raises | Stops

  class PrefetchFrames {
    const src: Source
    const depth: nat
    var produced: nat
    var queue: seq<Slot>
    var stop: bool
    var error: bool
    var producer: Producer
    var consumer: Consumer
    ghost var delivered: seq<nat>
    ghost var ended: bool
    ghost var raised: nat
    ghost var atClose: Option<nat>

    ghost function View(): State
      reads this
    {
      State(produced, queue, stop, error, producer, consumer, delivered, ended, raised, atClose)
    }

    constructor (src: Source, depth: nat)
      requires depth >= 1
      ensures this.src == src && this.depth == depth && View() == Init()
    {
      this.src, this.depth := src, depth;
      produced, queue, stop, error, producer, consumer := 0, [], false, false, Fetching, Idle;
      delivered, ended, raised, atClose := [], false, 0, None;
    }

    /** One step of the pump: ask the source, look at the stop signal, or try to put with a timeout. */
    method Pump()
      modifies this
      ensures View() == Step(src, depth, old(View()), Produce)
    {
      match producer {
        case Fetching =>
          if produced < src.count {
            producer := Offering(Item(produced));
            produced := produced + 1;
          } else {
            if src.fails {
              error := true;
            }
            producer := Offering(Sentinel);
          }
        case Offering(slot) =>
          if !stop {
            producer := Putting(slot);
          } else if slot.Item? {
            producer := Offering(Sentinel);
          } else {
            producer := Finished;
          }
        case Putting(slot) =>
          if |queue| < depth {
            queue := queue + [slot];
            producer := if slot.Item? then Fetching else Finished;
          } else {
            producer := Offering(slot);
          }
        case Finished =>
      }
    }

    /** The stop check of `__next__`. */
    method Ask() returns (r: Outcome)
      modifies this`consumer
      ensures View() == Step(src, depth, old(View()), Next)
      ensures r.Stops? <==> old(consumer).Idle? && old(stop)
    {
      r := Blocked;
      if consumer.Idle? {
        if stop {
          r := Stops;
        } else {
          consumer := Waiting;
        }
      }
    }

    /** The blocking get of `__next__`. */
    method Take() returns (r: Outcome)
      modifies this
      ensures View() == Step(src, depth, old(View()), Get)
      ensures match r
              case Delivers(k) => delivered == old(delivered) + [k]
              case Raises => raised == old(raised) + 1 && ended && delivered == old(delivered)
              case Stops => ended && !old(error) && delivered == old(delivered)
              case Blocked => View() == old(View())
    {
      if !consumer.Waiting? || queue == [] {
        return Blocked;
      }
      var item := queue[0];
      queue, consumer := queue[1..], Idle;
      if item.Item? {
        delivered := delivered + [item.index];
        return Delivers(item.index);
      }
      stop, ended := true, true;
      if error {
        error, raised := false, raised + 1;
        return Raises;
      }
      return Stops;
    }

    method BeginClose()
      modifies this
      ensures View() == Step(src, depth, old(View()), Close)
    {
      if consumer.Idle? {
        stop, consumer := true, Draining;
        if atClose.None? {
          atClose := Some(|delivered|);
        }
      }
    }

    /** One round of emptying the queue without blocking. */
    method DrainOne()
      modifies this
      ensures View() == Step(src, depth, old(View()), Drain)
    {
      if consumer.Draining? {
        if queue != [] {
          queue := queue[1..];
        } else {
          consumer := Joining;
        }
      }
    }

    method EndClose()
      modifies this
      ensures View() == Step(src, depth, old(View()), Join)
    {
      if consumer.Joining? {
        consumer := Idle;
      }
    }
  }
}
