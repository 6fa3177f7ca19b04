/** The client as the program has it: maps of stream objects and the shared queue, updated in place by
    the entry points, the completion thread and the poll. Each method is proved to take the steps of
    ClientModel, so every theorem about the model's runs is a theorem about these objects. */
module ClientRuntime {
  import opened Common
  import opened Events
  import opened Mailbox
  import opened EventQueue
  import opened CS = ClientStream
  import opened StreamRuntime
  import ClientModel
  import ClientInv
  import ClientRuns
  import ClientShutdown
  import Sums

  class ClientHandle {
    var calls: set<nat>
    var unaryTags: multiset<nat>
    var streams: map<nat, StreamState>
    const queue: Queue<EventKind>
    var nextId: nat
    var closed: bool
    var shutting: bool
    ghost var freed: map<nat, Stream>
    ghost var deleted: multiset<nat>
    ghost var unaryIds: set<nat>

    ghost function StreamsView(): map<nat, Stream>
      reads this, streams.Values
    {
      map id | id in streams :: streams[id].View()
    }

    /** The state of the machine that this heap represents. */
    ghost function View(): ClientModel.Client
      reads this, queue, queue.wake, streams.Values
    {
      ClientModel.Client(calls, unaryTags, StreamsView(), queue.View(), nextId, closed, shutting,
                         freed, deleted, unaryIds)
    }

    /** The representation is sound: distinct ids are distinct objects. What holds of the state it
        represents is ClientInv.Inv, which every step keeps. */
    ghost predicate Valid()
      reads this, queue, queue.wake, streams.Values
    {
      && queue.Valid()
      && (forall id :: id in streams ==> streams[id].View().id == id)
    }

    constructor (capacity: nat)
      requires 1 <= capacity
      ensures Valid() && View() == ClientModel.Init(capacity) && fresh(queue) && fresh(queue.wake)
      ensures streams == map[]
    {
      calls, unaryTags, streams := {}, multiset{}, map[];
      nextId, closed, shutting := 1, false, false;
      freed, deleted, unaryIds := map[], multiset{}, {};
      queue := new Queue(capacity);
      new;
      assert StreamsView() == map[];
    }

    // ---- completions: the body of the completion thread's loop, one tag at a time ----

    method Free(s: StreamState)
      requires s.View().id in streams
      modifies this`streams, this`freed, this`deleted
      ensures streams == old(streams) - {s.View().id} && freed == old(freed)[s.View().id := s.View()]
      ensures deleted == old(deleted) + multiset{s.View().id}
    {
      freed := freed[s.Id() := s.View()];
      deleted := deleted + multiset{s.Id()};
      streams := streams - {s.Id()};
    }

    method MaybeFree(s: StreamState)
      requires Valid() && s in streams.Values
      modifies this
      ensures Valid() && streams.Values <= old(streams).Values
      ensures View() == ClientModel.MaybeFree(old(View()), old(s.View()).id)
    {
      hide StreamState.View, Queue.View;
      ghost var id := s.View().id;
      assert id in StreamsView() && StreamsView()[id] == s.View();
      if s.IsFinished() {
        Free(s);
        assert StreamsView() == old(StreamsView()) - {id};
      } else {
        assert StreamsView() == old(StreamsView());
      }
    }

    /** One tag of a stream comes back. That its object can be reached through it is what
        ClientInv.TagIsLive proves of every reachable state. */
    method TagDone(id: nat, k: TagKind, ok: bool, a: Arrival)
      requires Valid() && ClientModel.Dereferenceable(View(), id, k)
      modifies this, queue, queue.wake, streams.Values
      ensures Valid() && streams.Values <= old(streams).Values
      ensures View() == ClientModel.DoTagDone(old(View()), id, k, ok, a)
      ensures var v := old(View()).streams[id];
        queue.pushed == old(queue.pushed) +
          (if k == TRead && ok && !v.broken then [Event(id, Msg(a.bytes))]
           else if k == TWrite && ok && !v.broken && |v.writeQueue| == 1 then [Event(id, Writable)]
           else if k == TFinish then [Event(id, Status(a.code))]
           else [])
    {
      hide StreamState.View, CS.OnTag, EventOf, Mailbox.Push, ClientModel.MaybeFree;
      var s := streams[id];
      assert s.View() == StreamsView()[id];
      s.OnTag(k, ok, a, shutting, queue);
      assert StreamsView() == old(StreamsView())[id := s.View()];
      MaybeFree(s);
    }

    /** The unary call's object is taken out of the map and deleted; its tag is paid off. */
    method DropUnary(id: nat)
      modifies this`unaryTags, this`calls, this`deleted
      ensures streams == old(streams) && queue.View() == old(queue.View())
      ensures unaryTags == old(unaryTags) - multiset{id} && calls == old(calls) - {id}
      ensures deleted == old(deleted) + multiset{id}
    {
      hide Queue.View;
      unaryTags := unaryTags - multiset{id};
      calls := calls - {id};
      deleted := deleted + multiset{id};
    }

    method UnaryDone(id: nat, a: Arrival)
      requires Valid()
      modifies this, queue, queue.wake
      ensures Valid() && streams == old(streams)
      ensures View() == ClientModel.DoUnaryDone(old(View()), id, a)
      ensures queue.pushed
           == old(queue.pushed) + [Event(id, Unary(a.code, if a.code == 0 then a.bytes else None))]
    {
      hide StreamState.View, Queue.View, Mailbox.Push;
      queue.Push(Event(id, ClientModel.UnaryEvent(a)));
      DropUnary(id);
      assert StreamsView() == old(StreamsView());
    }

    // ---- entry points ----

    method CallStart() returns (r: Result<nat>)
      requires Valid()
      modifies this
      ensures Valid() && streams == old(streams)
      ensures old(closed) ==> r.HandleClosed? && View() == old(View())
      ensures !old(closed) ==> r == Ok(old(nextId)) && View() == ClientModel.DoCallStart(old(View()))
      ensures !old(closed) ==>
        calls == old(calls) + {old(nextId)} && unaryTags == old(unaryTags) + multiset{old(nextId)}
    {
      hide StreamState.View;
      if closed {
        return HandleClosed;
      }
      var id := nextId;
      nextId := nextId + 1;
      calls := calls + {id};
      unaryIds := unaryIds + {id};
      unaryTags := unaryTags + multiset{id};
      r := Ok(id);
      assert StreamsView() == old(StreamsView());
    }

    method StreamStart(readCap: int, writeCap: int) returns (r: Result<nat>)
      requires Valid()
      modifies this
      ensures Valid()
      ensures forall s :: s in streams.Values ==> s in old(streams).Values || fresh(s)
      ensures old(closed) ==> r.HandleClosed? && View() == old(View())
      ensures !old(closed) ==> r == Ok(old(nextId))
      ensures !old(closed) ==> View() == ClientModel.DoStreamStart(old(View()), readCap, writeCap)
      ensures !old(closed) ==> old(nextId) in streams && fresh(streams[old(nextId)])
      ensures !old(closed) ==> streams[old(nextId)].readCap == readCap
      ensures var wide := if writeCap >= 0 then writeCap else writeCap % 0x1_0000_0000_0000_0000;
        !old(closed) ==> streams[old(nextId)].writeCap == wide
    {
      hide StreamState.View, CS.Opened;
      if closed {
        return HandleClosed;
      }
      var s := new StreamState(nextId, readCap, writeCap);
      streams := streams[nextId := s];
      assert StreamsView() == old(StreamsView())[nextId := s.View()];
      r := Ok(nextId);
      nextId := nextId + 1;
    }

    method StreamSend(id: nat, bytes: Bytes) returns (r: Result<bool>)
      requires Valid()
      modifies this, streams.Values
      ensures Valid() && streams == old(streams)
      ensures old(closed) ==> r.HandleClosed? && View() == old(View())
      ensures !old(closed) ==>
        r == Ok(id in old(streams)
                && !old(streams[id].broken) && !old(streams[id].finishPosted) && !old(streams[id].wdoneRequested)
                && |old(streams[id].writeQueue)| < old(streams[id].writeCap))
      ensures id in old(streams) ==>
        streams[id].accepted == old(streams[id].accepted) + (if r == Ok(true) then [bytes] else [])
      ensures !old(closed) ==> View() == ClientModel.DoSend(old(View()), id, bytes)
    {
      hide StreamState.View, CS.Send;
      if closed {
        return HandleClosed;
      }
      if id !in streams {
        return Ok(false);
      }
      var queued := streams[id].Send(bytes, shutting);
      assert StreamsView() == old(StreamsView())[id := streams[id].View()];
      return Ok(queued);
    }

    method StreamWritesDone(id: nat) returns (r: Result<bool>)
      requires Valid()
      modifies this, streams.Values
      ensures Valid() && streams == old(streams)
      ensures old(closed) ==> r.HandleClosed? && View() == old(View())
      ensures !old(closed) ==> r == Ok(id in old(streams) && !old(streams[id].wdoneRequested))
      ensures r == Ok(true) ==> id in streams && streams[id].wdoneRequested
      ensures !old(closed) ==> View() == ClientModel.DoHalfClose(old(View()), id)
    {
      hide StreamState.View, CS.WritesDone;
      if closed {
        return HandleClosed;
      }
      assert id in streams ==> StreamsView()[id] == streams[id].View();
      if id !in streams {
        return Ok(false);
      }
      var accepted := streams[id].HalfClose(shutting);
      assert StreamsView() == old(StreamsView())[id := streams[id].View()];
      return Ok(accepted);
    }

    method BeginShutdown()
      requires Valid()
      modifies this
      ensures Valid() && streams == old(streams)
      ensures View() == if old(closed) then old(View()) else ClientModel.DoShutdown(old(View()))
    {
      hide StreamState.View;
      if closed {
        return;
      }
      closed := true;
      shutting := true;
      assert StreamsView() == old(StreamsView());
    }

    // ---- polls ----

    method TakeOne(pos: nat) returns (e: Event<EventKind>)
      requires Valid() && pos < |queue.ready|
      modifies this, queue, streams.Values
      ensures Valid() && streams == old(streams)
      ensures queue.delivered == old(queue.delivered) + [e] && |queue.ready| == old(|queue.ready|) - 1
      ensures View() == ClientModel.DeliverAt(old(View()), pos)
    {
      hide StreamState.View, CS.Resume;
      e := queue.TakeAt(pos);
      if e.kind.Msg? && e.id in streams {
        streams[e.id].Resume(shutting);
        assert StreamsView() == old(StreamsView())[e.id := streams[e.id].View()];
      } else {
        assert StreamsView() == old(StreamsView());
      }
    }

    /** The batch loop: an iterator that erases what it takes and steps over what it does not want. */
    method TakeBatch(want: Option<nat>, max: int) returns (batch: seq<Event<EventKind>>)
      requires Valid()
      modifies this, queue, streams.Values
      ensures Valid() && streams == old(streams)
      ensures View() == ClientModel.DeliverLoop(old(View()), 0, max, want)
      ensures queue.delivered == old(queue.delivered) + batch
    {
      hide StreamState.View, ClientModel.DeliverAt, Matches;
      batch := [];
      var pos := 0;
      while pos < |queue.ready| && |batch| < max
        invariant Valid() && streams == old(streams) && pos <= |queue.ready|
        invariant ClientModel.DeliverLoop(View(), pos, max - |batch|, want)
               == ClientModel.DeliverLoop(old(View()), 0, max, want)
        invariant queue.delivered == old(queue.delivered) + batch
        decreases |queue.ready| - pos
      {
        if !Matches(want, queue.ready[pos]) {
          pos := pos + 1;
        } else {
          var e := TakeOne(pos);
          batch := batch + [e];
        }
      }
    }

    /** The critical section that ends a poll. */
    method FinishPoll(want: Option<nat>, max: int) returns (batch: seq<Event<EventKind>>)
      requires Valid()
      modifies this, queue, queue.wake, streams.Values
      ensures Valid() && streams == old(streams)
      ensures View() == ClientModel.Deliver(old(View()), want, max) && queue.poller.Idle?
      ensures queue.delivered == old(queue.delivered) + batch
    {
      hide StreamState.View, ClientModel.DeliverLoop, Mailbox.Rearm;
      DrainQueue();
      batch := TakeBatch(want, max);
      RearmQueue();
    }

    method DrainQueue()
      requires Valid()
      modifies queue.wake
      ensures Valid() && View() == old(View()).(box := Drained(old(View()).box))
    {
      hide StreamState.View;
      queue.Drain();
      assert StreamsView() == old(StreamsView());
    }

    method RearmQueue()
      requires Valid()
      modifies queue`poller, queue.wake
      ensures Valid() && View() == old(View()).(box := Mailbox.Rearm(old(View()).box)) && queue.poller.Idle?
    {
      hide StreamState.View, Mailbox.Rearm;
      queue.Rearm();
      assert StreamsView() == old(StreamsView());
    }

    // ---- the completion thread ----

    /** The completion queue owes some tag. */
    predicate Owing()
      reads this, streams.Values
    {
      unaryTags != multiset{} || exists id :: id in streams && streams[id].Owed() != multiset{}
    }

    /** One completion: any tag the queue owes, with any outcome. */
    method OneTag() returns (ghost act: ClientModel.Action)
      requires Valid() && ClientInv.Inv(View()) && Owing()
      modifies this, queue, queue.wake, streams.Values
      ensures Valid() && ClientInv.Inv(View()) && streams.Values <= old(streams).Values
      ensures act.UnaryDone? || act.TagDone?
      ensures ClientModel.Enabled(old(View()), act) && View() == ClientModel.Apply(old(View()), act)
    {
      hide StreamState.View, ClientInv.Inv, ClientModel.DoTagDone, ClientModel.DoUnaryDone;
      var unary: bool := *;
      var ok: bool := *;
      var code: int := *;
      var bytes: Option<Bytes> := *;
      var a := Arrival(bytes, code);
      if unaryTags != multiset{} && (unary || forall id :: id in streams ==> streams[id].Owed() == multiset{}) {
        var id :| id in unaryTags;
        act := ClientModel.UnaryDone(id, a);
        ClientInv.ApplyInv(View(), act);
        UnaryDone(id, a);
      } else {
        var id :| id in streams && streams[id].Owed() != multiset{};
        var k :| k in streams[id].Owed();
        act := ClientModel.TagDone(id, k, ok, a);
        OwedTag(id, k);
        ClientInv.ApplyInv(View(), act);
        TagDone(id, k, ok, a);
      }
    }

    lemma OwedTag(id: nat, k: TagKind)
      requires ClientInv.Inv(View()) && id in streams && k in streams[id].Owed()
      ensures ClientModel.Outstanding(View(), id, k) && ClientModel.Dereferenceable(View(), id, k)
    {
      hide StreamState.View;
      assert StreamsView()[id] == streams[id].View();
      assert k in streams[id].View().out;
      ClientInv.TagIsLive(View(), id, k);
    }

    /** The completion thread while the mutex is free: any number of tags, in any order, with any
        outcome. */
    method RunCompletions(ghost want: Option<nat>, ghost max: int) returns (ghost acts: seq<ClientModel.Action>)
      requires Valid() && ClientInv.Inv(View()) && Parked(queue.poller, want, max)
      modifies this, queue, queue.wake, streams.Values
      ensures Valid() && ClientInv.Inv(View()) && streams.Values <= old(streams).Values
      ensures Parked(queue.poller, want, max) && queue.delivered == old(queue.delivered)
      ensures ClientModel.ValidRun(old(View()), acts) && View() == ClientModel.Exec(old(View()), acts)
      ensures forall i :: 0 <= i < |acts| ==> ClientModel.IsCompletion(acts[i])
    {
      hide StreamState.View, ClientInv.Inv, ClientModel.Apply, ClientModel.Enabled, Parked;
      acts := [];
      var count: nat := *;
      while count > 0 && Owing()
        invariant Valid() && ClientInv.Inv(View()) && streams.Values <= old(streams).Values
        invariant Parked(queue.poller, want, max) && queue.delivered == old(queue.delivered)
        invariant ClientModel.ValidRun(old(View()), acts) && View() == ClientModel.Exec(old(View()), acts)
        invariant forall i :: 0 <= i < |acts| ==> ClientModel.IsCompletion(acts[i])
        decreases count
      {
        count := count - 1;
        ghost var before := View();
        ghost var act := OneTag();
        ClientModel.CompletionKeepsPoll(before, act, want, max);
        ClientModel.ExecSnoc(old(View()), acts, act);
        acts := acts + [act];
      }
    }

    // ---- closing ----

    /** The completion thread runs the queue dry after shutdown; it ends because every completion pays off
        one tag and nothing new is owed. */
    method RunDry() returns (ghost acts: seq<ClientModel.Action>)
      requires Valid() && ClientInv.Inv(View()) && shutting
      modifies this, queue, queue.wake, streams.Values
      ensures Valid() && ClientInv.Inv(View()) && shutting && ClientShutdown.Owed(View()) == 0
      ensures ClientModel.ValidRun(old(View()), acts) && View() == ClientModel.Exec(old(View()), acts)
    {
      hide StreamState.View, ClientInv.Inv, ClientModel.Apply, ClientModel.Enabled, ClientShutdown.Owed;
      acts := [];
      while Owing()
        invariant Valid() && ClientInv.Inv(View()) && View().shutting && streams.Values <= old(streams).Values
        invariant ClientModel.ValidRun(old(View()), acts) && View() == ClientModel.Exec(old(View()), acts)
        decreases ClientShutdown.Owed(View())
      {
        ghost var before := View();
        ghost var act := OneTag();
        ClientShutdown.ShuttingStep(before, act);
        ClientModel.ExecSnoc(old(View()), acts, act);
        acts := acts + [act];
      }
      OwingNothing();
    }

    lemma OwingNothing()
      requires !Owing()
      ensures ClientShutdown.Owed(View()) == 0
    {
      hide StreamState.View;
      var m := ClientShutdown.OwedByStream(StreamsView());
      forall id | id in m ensures m[id] == 0 {
        assert StreamsView()[id] == streams[id].View() && streams[id].Owed() == multiset{};
      }
      Sums.SumZero(m);
    }

    /** The last loops of client_shutdown(): delete and clear what the maps still hold, drop the events. */
    method DeleteRest()
      requires Valid()
      modifies this`calls, this`streams, this`deleted, queue`ready
      ensures Valid() && streams == map[]
      ensures View() == ClientShutdown.DeleteRest(old(View()))
    {
      hide StreamState.View;
      assert StreamsView().Keys == streams.Keys;
      deleted := deleted + multiset(calls) + multiset(streams.Keys);
      calls := {};
      streams := map[];
      queue.ready := [];
      assert StreamsView() == map[];
    }

    /** client_shutdown(): when it returns nothing is left, and every call and stream object ever created
        was deleted exactly once. */
    method Close() returns (ghost acts: seq<ClientModel.Action>)
      requires Valid() && queue.poller.Idle? && (closed || ClientInv.Inv(View()))
      modifies this, queue, queue.wake, streams.Values
      ensures Valid() && closed && queue.poller.Idle? && streams.Values <= old(streams).Values
      ensures old(closed) ==> View() == old(View()) && acts == []
      ensures !old(closed) ==> ClientModel.ValidRun(ClientModel.DoShutdown(old(View())), acts)
      ensures !old(closed) ==>
        View() == ClientShutdown.DeleteRest(ClientModel.Exec(ClientModel.DoShutdown(old(View())), acts))
      ensures !old(closed) ==> forall id: nat :: deleted[id] == if 1 <= id < nextId then 1 else 0
    {
      hide StreamState.View, ClientInv.Inv, ClientShutdown.Owed, ClientShutdown.DeleteRest;
      acts := [];
      if closed {
        return;
      }
      ClientInv.ApplyInv(View(), ClientModel.Shutdown);
      BeginShutdown();
      acts := RunDry();
      ghost var c := View();
      ClientShutdown.ShuttingIsIdle(c);
      DeleteRest();
      forall id: nat ensures deleted[id] == if 1 <= id < nextId then 1 else 0 {
        ClientShutdown.DrainedThenDeletedOnce(c, id);
        DeleteRestKeepsNextId(c);
      }
    }

    static lemma DeleteRestKeepsNextId(c: ClientModel.Client)
      ensures ClientShutdown.DeleteRest(c).nextId == c.nextId
    {
    }

    // ---- waiting ----

    /** A section that found no match: drain, and release the mutex. */
    method Park(want: Option<nat>, max: int)
      requires Valid()
      modifies queue`poller, queue.wake
      ensures Valid()
      ensures View() == old(View()).(box := old(View()).box.(bytes := 0,
                          poller := NextPark(old(View()).box.poller, want, max)))
    {
      hide StreamState.View;
      queue.Drain();
      queue.Park(want, max, if queue.poller.Idle? then 0 else queue.poller.arrivals,
                 if queue.poller.Idle? then 0 else queue.poller.wakeups + 1);
      assert StreamsView() == old(StreamsView());
    }

    lemma Sees()
      ensures View().box == queue.View() && View().closed == closed
      ensures queue.View().ready == queue.ready && queue.View().poller == queue.poller
      ensures queue.View().delivered == queue.delivered && queue.View().bytes == queue.wake.bytes
      ensures queue.View().pushed == queue.pushed
    {
      hide StreamState.View;
    }

    method ParkAndWait(want: Option<nat>, max: int, timeout: int) returns (ghost acts: seq<ClientModel.Action>)
      requires Valid() && ClientInv.Inv(View()) && ClientModel.AtSection(View(), want, max)
      requires timeout != 0 && !HaveMatch(View().box.ready, want)
      modifies this, queue, queue.wake, streams.Values
      ensures Valid() && ClientInv.Inv(View()) && streams.Values <= old(streams).Values
      ensures Parked(View().box.poller, want, max) && View().box.delivered == old(View()).box.delivered
      ensures ClientModel.ValidRun(old(View()), acts) && View() == ClientModel.Exec(old(View()), acts)
      ensures acts != [] && acts[0] == ClientModel.Section(old(View()), want, max, timeout, false)
      ensures forall i :: 1 <= i < |acts| ==> ClientModel.IsCompletion(acts[i])
    {
      hide StreamState.View, View, Valid, ClientInv.Inv, HaveMatch, ClientModel.Apply, ClientModel.Section,
           ClientModel.Enabled, ClientModel.IsCompletion;
      ghost var v0 := View();
      ghost var act := ClientModel.Section(v0, want, max, timeout, false);
      ClientModel.SectionParks(v0, want, max, timeout);
      ClientInv.ApplyInv(v0, act);
      ClientModel.ExecSnoc(v0, [], act);
      Park(want, max);
      assert [] + [act] == [act];
      Sees();
      var more := RunCompletions(want, max);
      Sees();
      ClientModel.ExecConcat(v0, [act], more);
      acts := [act] + more;
    }

    /** The deadline passed with the handle drained: what the final section will deliver is the same. */
    method GiveUp(want: Option<nat>, max: int)
      requires Valid()
      modifies queue.wake
      ensures Valid() && ClientModel.Deliver(View(), want, max) == ClientModel.Deliver(old(View()), want, max)
      ensures View().box.delivered == old(View()).box.delivered
    {
      hide StreamState.View, View, Valid, ClientModel.Deliver;
      ClientModel.DeliverDrains(View(), want, max);
      DrainQueue();
    }

    /** The wait loop. It ends holding the mutex, in the section `last` of a run that is in progress:
        with a match, past the deadline, or because the wait timed out or was interrupted. How many
        times the handle turns readable before that is the environment's choice. */
    method Wait(want: Option<nat>, max: int, timeout: int)
      returns (ghost acts: seq<ClientModel.Action>, ghost last: ClientModel.Action)
      requires Valid() && ClientInv.Inv(View()) && ClientModel.AtSection(View(), want, max)
      requires timeout != 0 && View().box.poller.Idle?
      modifies this, queue, queue.wake, streams.Values
      ensures Valid() && streams.Values <= old(streams).Values
      ensures ClientModel.ValidRun(old(View()), acts)
      ensures ClientModel.Waited(acts, want, max, timeout) && ClientModel.IsLast(acts, last, want, max, timeout)
      ensures View().box.delivered == old(View()).box.delivered
      ensures var c := ClientModel.Exec(old(View()), acts);
        && ClientInv.Inv(c) && ClientModel.Enabled(c, last) && c.box.delivered == old(View()).box.delivered
        && ClientModel.Apply(c, last) == ClientModel.Deliver(c, want, max)
        && ClientModel.Deliver(View(), want, max) == ClientModel.Deliver(c, want, max)
    {
      hide StreamState.View, View, Valid, ClientInv.Inv, HaveMatch, ClientModel.Apply, ClientModel.Section,
           ClientModel.Enabled, ClientModel.AtSection, Parked, ClientModel.Deliver, ClientModel.Waited,
           ClientModel.IsEntry, ClientModel.IsReturn;
      acts := [];
      WaitedNone(want, max, timeout);
      var wakeups: nat := *;
      Sees();
      var found := queue.SearchMatch(want);
      while !found
        invariant Valid() && streams.Values <= old(streams).Values
        invariant View().box.delivered == old(View()).box.delivered
        invariant ClientInv.Inv(View()) && ClientModel.AtSection(View(), want, max)
        invariant found == HaveMatch(View().box.ready, want)
        invariant ClientModel.ValidRun(old(View()), acts) && View() == ClientModel.Exec(old(View()), acts)
        invariant ClientModel.Waited(acts, want, max, timeout) && (acts == [] <==> View().box.poller.Idle?)
        decreases wakeups, !found
      {
        var expired: bool := *;
        if timeout > 0 && expired {
          last := ClientModel.Section(View(), want, max, timeout, true);
          ClientModel.SectionIsOwn(View(), want, max, timeout, true);
          ClientModel.SectionDelivers(View(), want, max, timeout, true);
          GiveUp(want, max);
          return;
        }
        ClientModel.SectionIsOwn(View(), want, max, timeout, false);
        ghost var more := ParkAndWait(want, max, timeout);
        ClientModel.ExecConcat(old(View()), acts, more);
        ClientModel.WaitedMore(acts, more, want, max, timeout);
        acts := acts + more;
        ParkedWaits(View().box.poller, want, max);
        Sees();
        var interrupted: bool := *;
        if wakeups == 0 || interrupted || queue.wake.bytes == 0 {
          last := ClientModel.PollOver;
          ClientModel.OverDelivers(View(), want, max);
          return;
        }
        wakeups := wakeups - 1;
        ClientModel.ParkedAtSection(View(), want, max);
        found := queue.SearchMatch(want);
      }
      last := ClientModel.Section(View(), want, max, timeout, false);
      ClientModel.SectionIsOwn(View(), want, max, timeout, false);
      ClientModel.SectionDelivers(View(), want, max, timeout, false);
    }

    static lemma WaitedNone(want: Option<nat>, max: int, timeout: int)
      ensures ClientModel.Waited([], want, max, timeout)
    {
    }

    /** grpc_poll() and grpc_await(): an R error on a closed client, otherwise the batch. The client has
        gone through a run made of this poll's own sections, with completions only while it waited; the
        run ends with the section that took the batch, and the batch is the first `max` matching events
        that were queued at that moment. */
    method Poll(want: Option<nat>, max: int, timeout: int)
      returns (r: Result<seq<Event<EventKind>>>, ghost acts: seq<ClientModel.Action>)
      requires Valid() && queue.poller.Idle? && (closed || ClientInv.Inv(View()))
      modifies this, queue, queue.wake, streams.Values
      ensures Valid() && streams.Values <= old(streams).Values && queue.poller.Idle?
      ensures !old(closed) ==> ClientInv.Inv(View())
      ensures old(closed) ==> r == HandleClosed && acts == [] && View() == old(View())
      ensures !old(closed) ==> r.Ok?
      ensures !old(closed) ==> ClientModel.ValidRun(old(View()), acts) && View() == ClientModel.Exec(old(View()), acts)
      ensures !old(closed) ==> ClientModel.PollRun(acts, want, max, timeout)
      ensures !old(closed) ==> ClientModel.PollGives(old(View()), acts, want, max, r.value)
      ensures !old(closed) ==> queue.delivered == old(queue.delivered) + r.value
      ensures !old(closed) ==> |r.value| <= Max(0, max)
      ensures !old(closed) && want.Some? ==> forall e :: e in r.value ==> e.id == want.value
      ensures !old(closed) ==> ClientRuns.Returns(acts) <= |queue.pushed| - |old(queue.pushed)|
    {
      hide StreamState.View, View, Valid, ClientInv.Inv, HaveMatch, ClientModel.Apply, ClientModel.Section, Matches,
           ClientModel.Enabled, ClientModel.AtSection, ClientModel.Deliver, ClientModel.Waited, ClientModel.PollRun,
           ClientModel.PollGives, FirstMatching, RemoveFirst, ClientModel.IsEntry, ClientModel.IsReturn;
      Sees();
      if closed {
        return HandleClosed, [];
      }
      acts := [];
      EntersPoll(want, max);
      WaitedNone(want, max, timeout);
      ghost var last := ClientModel.Section(View(), want, max, timeout, false);
      if timeout != 0 {
        acts, last := Wait(want, max, timeout);
      } else {
        ClientModel.SectionDelivers(View(), want, max, timeout, false);
        ClientModel.SectionIsOwn(View(), want, max, timeout, false);
      }
      ghost var c := ClientModel.Exec(old(View()), acts);
      ClientInv.ApplyInv(c, last);
      ClientInv.PollEnds(old(View()), acts, last, want, max, timeout);
      ClientInv.DeliverTakes(c, want, max);
      FirstMatchingMeans(c.box.ready, want, max);
      Sees();
      var batch := FinishPoll(want, max);
      Sees();
      assert batch == queue.delivered[|old(queue.delivered)|..];
      assert batch == FirstMatching(c.box.ready, want, max);
      acts := acts + [last];
      ClientRuns.PollReturns(old(View()), acts, want, max, timeout);
      r := Ok(batch);
    }

    lemma EntersPoll(want: Option<nat>, max: int)
      requires !closed && queue.poller.Idle?
      ensures ClientModel.AtSection(View(), want, max)
    {
      hide StreamState.View;
    }
  }
}
