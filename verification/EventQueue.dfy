/** The deque and its wake handle as an object: the `ready` and `wake` fields that client and server
    both carry, with the loops that work on them in place. */
module EventQueue {
  import opened Common
  import opened Events
  import opened Mailbox
  import opened Wake

  /** The deque after a handler that may queue one event. */
  function Emitted<T>(b: Box<T>, id: nat, ev: Option<T>): Box<T> {
    match ev
    case None => b
    case Some(kind) => Mailbox.Push(b, Event(id, kind))
  }

  class Queue<T> {
    var ready: seq<Event<T>>
    const wake: WakeHandle
    ghost var poller: Poller
    ghost var pushed: seq<Event<T>>
    ghost var delivered: seq<Event<T>>

    ghost predicate Valid()
      reads this, wake
    {
      wake.Valid()
    }

    ghost function View(): Box<T>
      reads this, wake
    {
      Box(ready, wake.capacity, wake.bytes, poller, pushed, delivered)
    }

    constructor (capacity: nat)
      requires 1 <= capacity
      ensures Valid() && fresh(wake) && View() == Empty(capacity)
    {
      ready := [];
      wake := new WakeHandle(capacity);
      poller, pushed, delivered := Idle, [], [];
    }

    /** push_back and one signal. */
    method Push(e: Event<T>)
      requires Valid()
      modifies this, wake
      ensures Valid() && View() == Mailbox.Push(old(View()), e) && pushed == old(pushed) + [e]
    {
      ready := ready + [e];
      pushed := pushed + [e];
      poller := Arrive(poller);
      wake.SignalOnce();
    }

    method Drain()
      requires Valid()
      modifies wake
      ensures Valid() && View() == Drained(old(View()))
    {
      wake.Drain();
    }

    /** The linear search of `have_match`. */
    method SearchMatch(want: Option<nat>) returns (found: bool)
      ensures found == HaveMatch(ready, want)
    {
      var i := 0;
      while i < |ready|
        invariant 0 <= i <= |ready|
        invariant NoneMatch(ready[..i], want)
      {
        if Matches(want, ready[i]) {
          return true;
        }
        assert ready[..i + 1] == ready[..i] + [ready[i]];
        i := i + 1;
      }
      assert ready[..|ready|] == ready;
      return false;
    }

    /** Moves one event to the batch. */
    method TakeAt(pos: nat) returns (e: Event<T>)
      requires pos < |ready|
      modifies this
      ensures e == old(ready)[pos] && View() == Mailbox.TakeAt(old(View()), pos)
    {
      e := ready[pos];
      ready := ready[..pos] + ready[pos + 1..];
      delivered := delivered + [e];
    }

    method Rearm()
      requires Valid()
      modifies this`poller, wake
      ensures Valid() && View() == Mailbox.Rearm(old(View())) && poller.Idle?
    {
      poller := Idle;
      if ready != [] {
        wake.SignalOnce();
      }
    }

    /** The poll is about to release the mutex, the handle already drained. */
    ghost method Park(want: Option<nat>, max: int, arrivals: nat, wakeups: nat)
      requires wake.bytes == 0
      modifies this`poller
      ensures View() == Mailbox.Park(old(View()), want, max, arrivals, wakeups)
    {
      poller := Waiting(want, max, arrivals, wakeups);
    }

    /** The batch loop: an iterator that erases what it takes and steps over what it does not want. */
    method TakeBatch(want: Option<nat>, max: int) returns (batch: seq<Event<T>>)
      modifies this
      ensures View() == TakeLoop(old(View()), 0, max, want)
      ensures View().delivered == old(View()).delivered + batch
    {
      batch := [];
      var pos := 0;
      while pos < |ready| && |batch| < max
        invariant pos <= |ready|
        invariant TakeLoop(View(), pos, max - |batch|, want) == TakeLoop(old(View()), 0, max, want)
        invariant View().delivered == old(View()).delivered + batch
        decreases |ready| - pos
      {
        if !Matches(want, ready[pos]) {
          pos := pos + 1;
        } else {
          var e := TakeAt(pos);
          batch := batch + [e];
        }
      }
    }
  }
}
