/** The ready deque, its wake handle and the one poller: the part of the runtime that client and
    server share. Every function here is one critical section under the mutex; a poll that waits is
    split where it releases the mutex. */
module Mailbox {
  import opened Common
  import opened Events
  import opened Wake

  /** What the R thread is doing. While `Waiting`, the mutex is free and completions interleave;
      `arrivals` counts the events pushed since the poll began to wait and `wakeups` the times
      the wait found the handle readable. */
  datatype Poller =
    | Idle
    | Waiting(want: Option<nat>, max: int, arrivals: nat, wakeups: nat)

  datatype Box<T> = Box(
    ready: seq<Event<T>>,
    capacity: nat,
    bytes: nat,
    poller: Poller,
    pushed: seq<Event<T>>,      // history: every event ever queued
    delivered: seq<Event<T>>)   // history: every event ever handed to R

  function Empty<T>(capacity: nat): Box<T> {
    Box([], capacity, 0, Idle, [], [])
  }

  // ---- operations ----

  function Arrive(p: Poller): Poller {
    match p
    case Idle => Idle
    case Waiting(_, _, a, _) => p.(arrivals := a + 1)
  }

  /** push_back and one signal. */
  function Push<T>(b: Box<T>, e: Event<T>): Box<T> {
    b.(ready := b.ready + [e], pushed := b.pushed + [e],
       bytes := Signal(b.capacity, b.bytes), poller := Arrive(b.poller))
  }

  function Drained<T>(b: Box<T>): Box<T> {
    b.(bytes := 0)
  }

  /** Moves one event from the deque to the batch. */
  function TakeAt<T>(b: Box<T>, pos: nat): Box<T>
    requires pos < |b.ready|
  {
    b.(ready := RemoveAt(b.ready, pos), delivered := b.delivered + [b.ready[pos]])
  }

  /** The batch loop, from iterator position `pos` with `n` more events wanted. */
  function TakeLoop<T>(b: Box<T>, pos: nat, n: int, want: Option<nat>): Box<T>
    requires pos <= |b.ready|
    decreases |b.ready| - pos
  {
    if pos == |b.ready| || n <= 0 then b
    else if !Matches(want, b.ready[pos]) then TakeLoop(b, pos + 1, n, want)
    else TakeLoop(TakeAt(b, pos), pos, n - 1, want)
  }

  /** Re-signals when events are left, and ends the poll. */
  function Rearm<T>(b: Box<T>): Box<T> {
    b.(bytes := if b.ready != [] then Signal(b.capacity, b.bytes) else b.bytes, poller := Idle)
  }

  /** The poll releases the mutex and waits on the drained handle. */
  function Park<T>(b: Box<T>, want: Option<nat>, max: int, arrivals: nat, wakeups: nat): Box<T> {
    b.(bytes := 0, poller := Waiting(want, max, arrivals, wakeups))
  }

  /** Where a section that found no match leaves the poller. */
  function NextPark(p: Poller, want: Option<nat>, max: int): Poller {
    if p.Idle? then Waiting(want, max, 0, 0) else Waiting(want, max, p.arrivals, p.wakeups + 1)
  }

  predicate Parked(p: Poller, want: Option<nat>, max: int) {
    p.Waiting? && p.want == want && p.max == max
  }

  /** At most one event was queued, and nothing else happened. */
  predicate AtMostOnePush<T(==)>(b: Box<T>, b': Box<T>) {
    b' == b || (b'.pushed != [] && b' == Push(b, b'.pushed[|b'.pushed| - 1]))
  }

  /** What the poller counts is what happened since its poll began: so many readable returns, and so many
      events pushed, never fewer. */
  predicate Counted(p: Poller, found: nat, events: int) {
    found <= events && (p.Waiting? ==> p.wakeups == found && p.arrivals == events)
  }

  lemma PushCounts<T>(b: Box<T>, b': Box<T>, found: nat, start: int)
    requires AtMostOnePush(b, b') && Counted(b.poller, found, |b.pushed| - start)
    ensures Counted(b'.poller, found, |b'.pushed| - start)
  {
  }

  lemma ParkedWaits(p: Poller, want: Option<nat>, max: int)
    requires Parked(p, want, max)
    ensures p.Waiting?
  {
  }

  // ---- invariants ----

  /** Nothing is lost, duplicated or reordered within a call, and what is queued is in arrival order
      across calls. */
  ghost predicate Conserved<T(!new)>(b: Box<T>) {
    && (forall id: nat :: Of(b.delivered, id) + Of(b.ready, id) == Of(b.pushed, id))
    && Subsequence(b.ready, b.pushed)
  }

  predicate Readable<T>(b: Box<T>) {
    b.bytes > 0
  }

  /** With no poll waiting, the handle is readable exactly while events are queued. While a poll
      waits, a matching event makes the handle readable, a readable handle means an event arrived
      since the last look, and readable returns never outnumber arrivals. */
  predicate Armed<T>(b: Box<T>) {
    && 1 <= b.capacity
    && b.bytes <= b.capacity
    && match b.poller
       case Idle => Readable(b) <==> b.ready != []
       case Waiting(want, _, arrivals, wakeups) =>
         && (HaveMatch(b.ready, want) ==> Readable(b))
         && (Readable(b) ==> b.ready != [])
         && wakeups + (if Readable(b) then 1 else 0) <= arrivals
  }

  ghost predicate BoxInv<T(!new)>(b: Box<T>) {
    Conserved(b) && Armed(b)
  }

  lemma PushInv<T(!new)>(b: Box<T>, e: Event<T>)
    requires BoxInv(b)
    ensures BoxInv(Push(b, e))
    ensures forall id: nat ::
      Of(Push(b, e).pushed, id) == Of(b.pushed, id) + (if e.id == id then [e.kind] else [])
  {
    forall id: nat
      ensures Of(Push(b, e).pushed, id) == Of(b.pushed, id) + (if e.id == id then [e.kind] else [])
      ensures Of(Push(b, e).ready, id) == Of(b.ready, id) + (if e.id == id then [e.kind] else [])
    {
      OfAppend(b.pushed, e, id);
      OfAppend(b.ready, e, id);
    }
    SubsequenceAppend(b.ready, b.pushed, e);
  }

  lemma TakeAtConserves<T(!new)>(b: Box<T>, pos: nat, want: Option<nat>)
    requires Conserved(b)
    requires pos < |b.ready| && Matches(want, b.ready[pos]) && NoneMatch(b.ready[..pos], want)
    ensures Conserved(TakeAt(b, pos))
  {
    SubsequenceRemoveAt(b.ready, b.pushed, pos);
    forall id: nat
      ensures Of(TakeAt(b, pos).delivered, id) + Of(TakeAt(b, pos).ready, id) == Of(b.pushed, id)
    {
      TakeFirstConserves(b.delivered, b.ready, pos, want, id);
    }
  }

  lemma {:induction false} TakeLoopConserves<T(!new)>(b: Box<T>, pos: nat, n: int, want: Option<nat>)
    requires Conserved(b) && pos <= |b.ready| && NoneMatch(b.ready[..pos], want)
    ensures Conserved(TakeLoop(b, pos, n, want))
    decreases |b.ready| - pos
  {
    hide Conserved, Matches;
    if pos == |b.ready| || n <= 0 {
    } else if !Matches(want, b.ready[pos]) {
      assert b.ready[..pos + 1] == b.ready[..pos] + [b.ready[pos]];
      TakeLoopConserves(b, pos + 1, n, want);
    } else {
      TakeAtConserves(b, pos, want);
      assert TakeAt(b, pos).ready[..pos] == b.ready[..pos];
      TakeLoopConserves(TakeAt(b, pos), pos, n - 1, want);
    }
  }

  /** What the batch loop computes, said without the loop: it delivers the first `n` matching events in
      order, leaves every other event where it was, and touches nothing else. */
  lemma {:induction false} TakeLoopMeaning<T>(b: Box<T>, pos: nat, n: int, want: Option<nat>)
    requires pos <= |b.ready| && NoneMatch(b.ready[..pos], want)
    ensures TakeLoop(b, pos, n, want)
         == b.(ready := RemoveFirst(b.ready, want, n), delivered := b.delivered + FirstMatching(b.ready, want, n))
    decreases |b.ready| - pos
  {
    hide Matches, Matching, FirstMatching, RemoveFirst;
    if n <= 0 {
      TakeNone(b.ready, want, n);
    } else if pos == |b.ready| {
      assert b.ready[..pos] == b.ready;
      TakeNone(b.ready, want, n);
    } else if !Matches(want, b.ready[pos]) {
      assert b.ready[..pos + 1] == b.ready[..pos] + [b.ready[pos]];
      TakeLoopMeaning(b, pos + 1, n, want);
    } else {
      TakeOne(b.ready, pos, want, n);
      assert TakeAt(b, pos).ready[..pos] == b.ready[..pos];
      TakeLoopMeaning(TakeAt(b, pos), pos, n - 1, want);
    }
  }

  /** The whole critical section at the end of a poll re-establishes the readiness contract,
      whatever the handle held and however many signals had been dropped. */
  lemma RearmArms<T>(b: Box<T>)
    requires 1 <= b.capacity && b.bytes == 0
    ensures Armed(Rearm(b)) && Rearm(b).poller == Idle
  {
  }

  /** Entering or resuming a wait that found no match loses no wake-up. */
  lemma ParkArms<T>(b: Box<T>, want: Option<nat>, max: int, arrivals: nat, wakeups: nat)
    requires 1 <= b.capacity && !HaveMatch(b.ready, want) && wakeups <= arrivals
    ensures Armed(Park(b, want, max, arrivals, wakeups))
  {
  }

  /** The whole critical section that ends a poll: drain, take the batch, re-arm. */
  function DeliverBox<T>(b: Box<T>, want: Option<nat>, max: int): Box<T> {
    Rearm(TakeLoop(Drained(b), 0, max, want))
  }

  /** Such a section hands over the first `max` matching events in order and leaves every other event
      where it was. */
  lemma DeliverBoxTakes<T>(b: Box<T>, want: Option<nat>, max: int)
    ensures DeliverBox(b, want, max).delivered == b.delivered + FirstMatching(b.ready, want, max)
    ensures DeliverBox(b, want, max).ready == RemoveFirst(b.ready, want, max)
    ensures DeliverBox(b, want, max).pushed == b.pushed
  {
    hide FirstMatching, RemoveFirst, Matches, TakeLoop;
    TakeLoopMeaning(Drained(b), 0, max, want);
  }

  /** However many signals were dropped before, such a section conserves every event and leaves the
      handle readable exactly while events are queued. */
  lemma DeliverBoxInv<T(!new)>(b: Box<T>, want: Option<nat>, max: int)
    requires BoxInv(b)
    ensures BoxInv(DeliverBox(b, want, max)) && DeliverBox(b, want, max).poller == Idle
    ensures DeliverBox(b, want, max).pushed == b.pushed
  {
    TakeLoopConserves(Drained(b), 0, max, want);
    TakeLoopMeaning(Drained(b), 0, max, want);
    RearmArms(TakeLoop(Drained(b), 0, max, want));
  }
}
