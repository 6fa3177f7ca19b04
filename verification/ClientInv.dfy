/** The client's invariant and its preservation by every action. */
module ClientInv {
  import opened Common
  import opened Events
  import opened Mailbox
  import opened ClientStream
  import opened ClientModel

  // ---- per-call histories ----

  /** What an unfinished stream's owner may have been told so far. */
  predicate OpenHistory(h: seq<EventKind>) {
    forall i :: 0 <= i < |h| ==> h[i].Msg? || h[i].Writable?
  }

  /** A finished stream: messages and writables, then one status, which is last. */
  predicate ClosedHistory(h: seq<EventKind>) {
    |h| >= 1 && h[|h| - 1].Status? && OpenHistory(h[..|h| - 1])
  }

  datatype Role = PendingUnary | FinishedUnary | OpenStream | FinishedStream | Unused

  function RoleOf(c: Client, id: nat): Role {
    if id in c.calls then PendingUnary
    else if id in c.unaryIds then FinishedUnary
    else if id in c.streams then OpenStream
    else if id in c.freed then FinishedStream
    else Unused
  }

  predicate HistoryFits(role: Role, h: seq<EventKind>) {
    match role
    case PendingUnary => h == []
    case FinishedUnary => |h| == 1 && h[0].Unary? && (h[0].status != 0 ==> h[0].response.None?)
    case OpenStream => OpenHistory(h)
    case FinishedStream => ClosedHistory(h)
    case Unused => h == []
  }

  predicate HistoryOk(c: Client, id: nat) {
    HistoryFits(RoleOf(c, id), Of(c.box.pushed, id))
  }

  function Msgs(h: seq<EventKind>): nat {
    if h == [] then 0 else (if h[0].Msg? then 1 else 0) + Msgs(h[1..])
  }

  lemma {:induction false} MsgsConcat(a: seq<EventKind>, b: seq<EventKind>)
    ensures Msgs(a + b) == Msgs(a) + Msgs(b)
  {
    if a == [] {
      assert a + b == b;
    } else {
      MsgsConcat(a[1..], b);
      assert (a + b)[1..] == a[1..] + b;
    }
  }

  // ---- the invariant ----

  /** Every id handed out names exactly one object, which is either live or deleted once. */
  ghost predicate Ids(c: Client) {
    && c.nextId >= 1
    && c.closed == c.shutting
    && c.calls <= c.unaryIds
    && (forall id :: id in c.unaryIds ==> 1 <= id < c.nextId && id !in c.streams && id !in c.freed)
    && (forall id :: id in c.streams ==> 1 <= id < c.nextId && id !in c.freed)
    && (forall id :: id in c.freed ==> 1 <= id < c.nextId)
    && (forall id :: 1 <= id < c.nextId ==> id in c.unaryIds || id in c.streams || id in c.freed)
    && (forall id: nat :: c.unaryTags[id] == if id in c.calls then 1 else 0)
    && (forall id: nat :: c.deleted[id] == if 1 <= id < c.nextId && id !in c.calls && id !in c.streams then 1 else 0)
  }

  /** A stream in the map, given its events that wait in the deque. */
  predicate Live(s: Stream, id: nat, shutting: bool, queued: seq<EventKind>) {
    s.id == id && StreamInv(s, shutting) && !s.statusEmitted && s.unread == Msgs(queued)
  }

  predicate LiveStream(c: Client, id: nat)
    requires id in c.streams
  {
    Live(c.streams[id], id, c.shutting, Of(c.box.ready, id))
  }

  predicate FreedStream(s: Stream) {
    Shape(s) && s.statusEmitted && s.pending == 0 && s.out == multiset{}
  }

  ghost predicate StreamsOk(c: Client) {
    && (forall id :: id in c.streams ==> LiveStream(c, id))
    && (forall id :: id in c.freed ==> FreedStream(c.freed[id]))
  }

  /** Everything but the readiness of the wake handle, which a poll breaks and restores inside its
      critical section. */
  ghost predicate Core(c: Client) {
    && Ids(c)
    && StreamsOk(c)
    && (forall id: nat :: HistoryOk(c, id))
    && Conserved(c.box)
  }

  ghost predicate Inv(c: Client) {
    Core(c) && Armed(c.box) && (c.closed ==> c.box.poller.Idle?)
  }

  lemma InitInv(capacity: nat)
    requires 1 <= capacity
    ensures Inv(Init(capacity))
  {
  }

  // ---- entry points ----

  lemma CallStartInv(c: Client)
    requires Inv(c)
    ensures Inv(DoCallStart(c))
  {
    hide Live, FreedStream, Of;
    var c' := DoCallStart(c);
    forall id: nat ensures HistoryOk(c', id) {
      assert HistoryOk(c, id);
    }
    forall id | id in c'.streams ensures LiveStream(c', id) {
      assert LiveStream(c, id);
    }
  }

  lemma NothingQueued(c: Client, id: nat)
    requires Conserved(c.box) && Of(c.box.pushed, id) == []
    ensures Of(c.box.ready, id) == []
  {
    assert Of(c.box.delivered, id) + Of(c.box.ready, id) == Of(c.box.pushed, id);
  }

  lemma AddStreamCore(c: Client, s: Stream)
    requires Core(c) && Live(s, c.nextId, c.shutting, Of(c.box.ready, c.nextId))
    ensures Core(c.(streams := c.streams[c.nextId := s], nextId := c.nextId + 1))
  {
    hide Live, FreedStream, Of;
    var c' := c.(streams := c.streams[c.nextId := s], nextId := c.nextId + 1);
    assert HistoryOk(c, c.nextId);
    forall id: nat ensures HistoryOk(c', id) {
      assert HistoryOk(c, id);
    }
    forall id | id in c'.streams ensures LiveStream(c', id) {
      assert id in c.streams ==> LiveStream(c, id);
    }
  }

  lemma NextIdUnused(c: Client)
    requires Core(c)
    ensures Of(c.box.ready, c.nextId) == []
  {
    hide StreamsOk, Of;
    assert HistoryOk(c, c.nextId);
    assert RoleOf(c, c.nextId) == Unused;
    NothingQueued(c, c.nextId);
  }

  lemma StreamStartInv(c: Client, readCap: int, writeCap: int)
    requires Inv(c) && !c.shutting
    ensures Inv(DoStreamStart(c, readCap, writeCap))
  {
    hide Opened, StreamInv, Of, Core;
    NextIdUnused(c);
    OpenedInv(c.nextId, readCap, writeCap);
    AddStreamCore(c, Opened(c.nextId, readCap, writeCap));
  }

  /** Replacing one live stream's record by another that keeps the local invariant and agrees with
      the deque. */
  lemma ReplaceCore(c: Client, id: nat, s: Stream)
    requires Core(c) && id in c.streams
    requires Live(s, id, c.shutting, Of(c.box.ready, id))
    ensures Core(c.(streams := c.streams[id := s]))
  {
    hide Live, FreedStream, HistoryFits, Of;
    var c' := c.(streams := c.streams[id := s]);
    forall i: nat ensures HistoryOk(c', i) {
      assert HistoryOk(c, i);
    }
    forall i | i in c'.streams ensures LiveStream(c', i) {
      assert LiveStream(c, i);
    }
  }

  lemma SendMsgInv(c: Client, id: nat, bytes: Bytes)
    requires Inv(c)
    ensures Inv(DoSend(c, id, bytes))
  {
    if id in c.streams {
      assert LiveStream(c, id);
      SendInv(c.streams[id], bytes, c.shutting);
      ReplaceCore(c, id, Send(c.streams[id], bytes, c.shutting));
    }
  }

  lemma HalfCloseInv(c: Client, id: nat)
    requires Inv(c)
    ensures Inv(DoHalfClose(c, id))
  {
    if id in c.streams {
      assert LiveStream(c, id);
      WritesDoneInv(c.streams[id], c.shutting);
      ReplaceCore(c, id, WritesDone(c.streams[id], c.shutting));
    }
  }

  lemma ShutdownInv(c: Client)
    requires Inv(c) && c.box.poller.Idle?
    ensures Inv(DoShutdown(c))
  {
    hide Shape, FreedStream, HistoryFits, Of;
    var c' := DoShutdown(c);
    forall i: nat ensures HistoryOk(c', i) {
      assert HistoryOk(c, i);
    }
    forall i | i in c'.streams ensures LiveStream(c', i) {
      assert LiveStream(c, i);
    }
  }

  // ---- completions ----

  lemma UnaryDoneInv(c: Client, id: nat, a: Arrival)
    requires Inv(c) && id in c.unaryTags
    ensures Inv(DoUnaryDone(c, id, a))
  {
    hide StreamInv, FreedStream, Of, Msgs;
    var c' := DoUnaryDone(c, id, a);
    var e := Event(id, UnaryEvent(a));
    PushInv(c.box, e);
    assert id in c.calls;
    forall i: nat ensures HistoryOk(c', i) {
      assert HistoryOk(c, i);
    }
    forall i | i in c'.streams ensures LiveStream(c', i) {
      assert LiveStream(c, i);
      OfAppend(c.box.ready, e, i);
      assert Of(c.box.ready, i) + [] == Of(c.box.ready, i);
    }
  }

  /** No tag dangles: its object is in the map, and a completed write still has its buffer. */
  lemma TagIsLive(c: Client, id: nat, k: TagKind)
    requires StreamsOk(c) && Outstanding(c, id, k)
    ensures id in c.streams && k in c.streams[id].out && Dereferenceable(c, id, k)
  {
    if id in c.freed {
      assert FreedStream(c.freed[id]);
    }
    assert id in c.streams ==> LiveStream(c, id);
  }

  /** Handlers change `unread` exactly when they queue a message, and set `statusEmitted` exactly
      when they queue the status. */
  lemma OnTagEffect(s: Stream, k: TagKind, ok: bool, shutting: bool, a: Arrival)
    requires k == TWrite ==> s.writeQueue != []
    ensures var s', ev := OnTag(s, k, ok, shutting), EventOf(s, k, ok, a);
      && s'.id == s.id
      && s'.unread == s.unread + (if ev.Some? && ev.value.Msg? then 1 else 0)
      && (s'.statusEmitted <==> s.statusEmitted || k == TFinish)
      && (ev.Some? ==> (ev.value.Status? <==> k == TFinish) && !ev.value.Unary?)
      && (k == TFinish ==> ev.Some?)
  {
    hide OnStart, OnRead, OnWrite, OnWDone;
  }

  lemma HistoryGrows(h: seq<EventKind>, kind: EventKind)
    requires OpenHistory(h) && !kind.Unary?
    ensures if kind.Status? then ClosedHistory(h + [kind]) else OpenHistory(h + [kind])
  {
    assert (h + [kind])[..|h|] == h;
  }

  lemma RoleAfterPutBack(c: Client, id: nat, s: Stream, ev: Option<EventKind>, i: nat)
    requires Ids(c) && id in c.streams && (s.statusEmitted ==> s.pending == 0)
    ensures RoleOf(PutBack(c, id, s, ev), i) == if i == id && s.statusEmitted then FinishedStream else RoleOf(c, i)
  {
    hide Push;
  }

  lemma HistoryAfterPutBack(c: Client, id: nat, s: Stream, ev: Option<EventKind>, i: nat)
    requires BoxInv(c.box) && Ids(c) && id in c.streams && HistoryOk(c, i)
    requires ev.Some? ==> !ev.value.Unary?
    requires s.statusEmitted <==> ev.Some? && ev.value.Status?
    requires s.statusEmitted ==> s.pending == 0
    ensures HistoryOk(PutBack(c, id, s, ev), i)
  {
    hide Of, Push, RoleOf, PutBack, Ids, OpenHistory, ClosedHistory;
    RoleAfterPutBack(c, id, s, ev, i);
    EmitCounts(c, id, ev);
    PutBackBox(c, id, s, ev);
    var h := Of(c.box.pushed, i);
    assert h + [] == h;
    if i == id {
      IsOpenStream(c, id);
      if ev.Some? {
        HistoryGrows(h, ev.value);
      }
    }
    hide Emit;
  }

  lemma PutBackBox(c: Client, id: nat, s: Stream, ev: Option<EventKind>)
    requires id in c.streams
    ensures PutBack(c, id, s, ev).box == Emit(c, id, ev).box
  {
    hide Push;
  }

  lemma IsOpenStream(c: Client, id: nat)
    requires Ids(c) && id in c.streams
    ensures RoleOf(c, id) == OpenStream
  {
  }

  lemma IdsAfterPutBack(c: Client, id: nat, s: Stream, ev: Option<EventKind>)
    requires Ids(c) && id in c.streams
    ensures Ids(PutBack(c, id, s, ev))
  {
    hide Push;
  }

  lemma LiveAfterPutBack(c: Client, id: nat, s: Stream, ev: Option<EventKind>, i: nat)
    requires BoxInv(c.box) && id in c.streams && i in c.streams && LiveStream(c, i)
    requires i == id ==> s.id == id && StreamInv(s, c.shutting) && !s.statusEmitted
    requires i == id ==> s.unread == c.streams[id].unread + (if ev.Some? && ev.value.Msg? then 1 else 0)
    ensures i in PutBack(c, id, s, ev).streams ==> LiveStream(PutBack(c, id, s, ev), i)
  {
    EmitCounts(c, id, ev);
    hide StreamInv, Of, Msgs, Push;
  }

  /** Putting the handler's result back, with its event queued and its object freed when it is
      finished, keeps the invariant. */
  lemma PutBackInv(c: Client, id: nat, s: Stream, ev: Option<EventKind>)
    requires Inv(c) && id in c.streams && s.id == id && StreamInv(s, c.shutting)
    requires s.unread == c.streams[id].unread + (if ev.Some? && ev.value.Msg? then 1 else 0)
    requires ev.Some? ==> !ev.value.Unary?
    requires s.statusEmitted <==> ev.Some? && ev.value.Status?
    requires s.statusEmitted ==> FreedStream(s)
    ensures Inv(PutBack(c, id, s, ev))
  {
    hide StreamInv, FreedStream, LiveStream, HistoryOk, Ids, Push;
    var c' := PutBack(c, id, s, ev);
    EmitCounts(c, id, ev);
    FreedIsIdle(s);
    IdsAfterPutBack(c, id, s, ev);
    forall i: nat ensures HistoryOk(c', i) {
      HistoryAfterPutBack(c, id, s, ev, i);
    }
    forall i | i in c'.streams ensures LiveStream(c', i) {
      LiveAfterPutBack(c, id, s, ev, i);
    }
  }

  lemma FreedIsIdle(s: Stream)
    ensures FreedStream(s) ==> s.pending == 0
  {
  }

  lemma TagDoneInv(c: Client, id: nat, k: TagKind, ok: bool, a: Arrival)
    requires Inv(c) && Outstanding(c, id, k)
    ensures Inv(DoTagDone(c, id, k, ok, a))
  {
    TagIsLive(c, id, k);
    assert LiveStream(c, id);
    var s := c.streams[id];
    assert StreamInv(s, c.shutting) && !s.statusEmitted;
    OnTagInv(s, k, ok, c.shutting);
    OnTagEffect(s, k, ok, c.shutting, a);
    assert k == TFinish ==> FreedStream(OnTag(s, k, ok, c.shutting)) by {
      if k == TFinish {
        OnFinishShape(s);
      }
    }
    PutBackInv(c, id, OnTag(s, k, ok, c.shutting), EventOf(s, k, ok, a));
  }

  /** Queueing one event extends that call's history, and no other. */
  lemma EmitCounts(c: Client, id: nat, ev: Option<EventKind>)
    requires BoxInv(c.box)
    ensures BoxInv(Emit(c, id, ev).box)
    ensures Emit(c, id, ev).box.poller.Idle? == c.box.poller.Idle?
    ensures forall i: nat ::
      Of(Emit(c, id, ev).box.pushed, i) == Of(c.box.pushed, i) + (if i == id && ev.Some? then [ev.value] else [])
    ensures forall i: nat ::
      Msgs(Of(Emit(c, id, ev).box.ready, i))
      == Msgs(Of(c.box.ready, i)) + (if i == id && ev.Some? && ev.value.Msg? then 1 else 0)
  {
    if ev.Some? {
      PushInv(c.box, Event(id, ev.value));
      forall i: nat
        ensures Msgs(Of(Emit(c, id, ev).box.ready, i))
             == Msgs(Of(c.box.ready, i)) + (if i == id && ev.Some? && ev.value.Msg? then 1 else 0)
      {
        OfAppend(c.box.ready, Event(id, ev.value), i);
        MsgsConcat(Of(c.box.ready, i), [ev.value]);
        assert Of(c.box.ready, i) + [] == Of(c.box.ready, i);
      }
    }
  }

  // ---- polls ----

  /** Delivering one event keeps its stream's backlog in step with the deque. */
  lemma DeliveredLive(c: Client, pos: nat, i: nat)
    requires pos < |c.box.ready| && i in c.streams && LiveStream(c, i)
    ensures i in DeliverAt(c, pos).streams && LiveStream(DeliverAt(c, pos), i)
  {
    hide StreamInv, Of, Msgs, Resume;
    var e := c.box.ready[pos];
    DeliverCounts(c.box.ready, pos, i);
    if i == e.id && e.kind.Msg? {
      ResumeInv(c.streams[i], c.shutting);
    }
  }

  lemma DeliverAtCore(c: Client, pos: nat, want: Option<nat>)
    requires Core(c)
    requires pos < |c.box.ready| && Matches(want, c.box.ready[pos]) && NoneMatch(c.box.ready[..pos], want)
    ensures Core(DeliverAt(c, pos))
  {
    hide Live, FreedStream, HistoryFits, Of, Resume;
    var c' := DeliverAt(c, pos);
    TakeAtConserves(c.box, pos, want);
    forall i: nat ensures HistoryOk(c', i) {
      assert HistoryOk(c, i);
    }
    forall i | i in c'.streams ensures LiveStream(c', i) {
      assert LiveStream(c, i);
      DeliveredLive(c, pos, i);
    }
  }

  lemma DeliverCounts(q: seq<Event<EventKind>>, pos: nat, id: nat)
    requires pos < |q|
    ensures Msgs(Of(RemoveAt(q, pos), id))
         == Msgs(Of(q, id)) - (if q[pos].id == id && q[pos].kind.Msg? then 1 else 0)
  {
    OfSplit(q, pos, id);
    var l, r := Of(q[..pos], id), Of(q[pos + 1..], id);
    var k := if q[pos].id == id then [q[pos].kind] else [];
    MsgsConcat(l, r);
    MsgsConcat(l, k + r);
    MsgsConcat(k, r);
  }

  /** The client's batch loop does to the deque what the plain batch loop does. */
  lemma {:induction false} DeliverLoopBox(c: Client, pos: nat, n: int, want: Option<nat>)
    requires pos <= |c.box.ready|
    ensures DeliverLoop(c, pos, n, want).box == TakeLoop(c.box, pos, n, want)
    decreases |c.box.ready| - pos
  {
    if pos == |c.box.ready| || n <= 0 {
    } else if !Matches(want, c.box.ready[pos]) {
      DeliverLoopBox(c, pos + 1, n, want);
    } else {
      DeliverLoopBox(DeliverAt(c, pos), pos, n - 1, want);
    }
  }

  lemma {:induction false} DeliverLoopCore(c: Client, pos: nat, n: int, want: Option<nat>)
    requires Core(c) && pos <= |c.box.ready| && NoneMatch(c.box.ready[..pos], want)
    ensures Core(DeliverLoop(c, pos, n, want))
    decreases |c.box.ready| - pos
  {
    hide Core;
    if pos == |c.box.ready| || n <= 0 {
    } else if !Matches(want, c.box.ready[pos]) {
      assert c.box.ready[..pos + 1] == c.box.ready[..pos] + [c.box.ready[pos]];
      DeliverLoopCore(c, pos + 1, n, want);
    } else {
      DeliverAtCore(c, pos, want);
      assert DeliverAt(c, pos).box.ready[..pos] == c.box.ready[..pos];
      DeliverLoopCore(DeliverAt(c, pos), pos, n - 1, want);
    }
  }

  /** Changing only the handle or the poller leaves the core alone. */
  lemma CoreIgnoresWake(c: Client, bytes: nat, poller: Poller)
    requires Core(c)
    ensures Core(c.(box := c.box.(bytes := bytes, poller := poller)))
  {
    hide Live, FreedStream, HistoryFits, Of;
    var c' := c.(box := c.box.(bytes := bytes, poller := poller));
    forall i: nat ensures HistoryOk(c', i) {
      assert HistoryOk(c, i);
    }
    forall i | i in c'.streams ensures LiveStream(c', i) {
      assert LiveStream(c, i);
    }
  }

  lemma DeliverInv(c: Client, want: Option<nat>, max: int)
    requires Inv(c)
    ensures Inv(Deliver(c, want, max)) && Deliver(c, want, max).box.poller == Idle
  {
    hide Core, Of;
    var c0 := c.(box := Drained(c.box));
    CoreIgnoresWake(c, 0, c.box.poller);
    var c1 := DeliverLoop(c0, 0, max, want);
    DeliverLoopCore(c0, 0, max, want);
    DeliverLoopBox(c0, 0, max, want);
    TakeLoopMeaning(c0.box, 0, max, want);
    RearmArms(c1.box);
    CoreIgnoresWake(c1, Rearm(c1.box).bytes, Idle);
  }

  /** The section that ends a poll hands over the first `max` matching events in order and leaves every
      other event where it was. */
  lemma DeliverTakes(c: Client, want: Option<nat>, max: int)
    ensures Deliver(c, want, max).box.delivered == c.box.delivered + FirstMatching(c.box.ready, want, max)
    ensures Deliver(c, want, max).box.ready == RemoveFirst(c.box.ready, want, max)
    ensures Deliver(c, want, max).box.pushed == c.box.pushed
  {
    hide FirstMatching, RemoveFirst, Matches, TakeLoop, DeliverLoop;
    var c0 := c.(box := Drained(c.box));
    DeliverLoopBox(c0, 0, max, want);
    TakeLoopMeaning(c0.box, 0, max, want);
  }

  /** A run that is in progress, and the section that ends the poll, make a whole poll. */
  lemma PollEnds(c: Client, acts: seq<Action>, last: Action, want: Option<nat>, max: int, timeout: int)
    requires ValidRun(c, acts) && Enabled(Exec(c, acts), last) && (timeout == 0 ==> acts == [])
    requires Waited(acts, want, max, timeout) && IsLast(acts, last, want, max, timeout)
    requires Apply(Exec(c, acts), last) == Deliver(Exec(c, acts), want, max)
    requires Exec(c, acts).box.delivered == c.box.delivered
    ensures ValidRun(c, acts + [last]) && Exec(c, acts + [last]) == Deliver(Exec(c, acts), want, max)
    ensures PollRun(acts + [last], want, max, timeout)
    ensures PollGives(c, acts + [last], want, max, FirstMatching(Exec(c, acts).box.ready, want, max))
  {
    hide Apply, Enabled, Waited, IsLast, Deliver, FirstMatching, RemoveFirst;
    assert (acts + [last])[..|acts|] == acts;
    ExecSnoc(c, acts, last);
    DeliverTakes(Exec(c, acts), want, max);
  }

  lemma ParkInv(c: Client, want: Option<nat>, max: int, arrivals: nat, wakeups: nat)
    requires Inv(c) && !c.closed && !HaveMatch(c.box.ready, want) && wakeups <= arrivals
    ensures Inv(c.(box := Park(c.box, want, max, arrivals, wakeups)))
  {
    ParkArms(c.box, want, max, arrivals, wakeups);
    CoreIgnoresWake(c, 0, Waiting(want, max, arrivals, wakeups));
  }

  // ---- every action ----

  lemma ApplyInv(c: Client, act: Action)
    requires Inv(c) && Enabled(c, act)
    ensures Inv(Apply(c, act))
  {
    hide Deliver, DoTagDone;
    match act
    case CallStart => CallStartInv(c);
    case StreamStart(rc, wc) => StreamStartInv(c, rc, wc);
    case SendMsg(id, bytes) => SendMsgInv(c, id, bytes);
    case HalfClose(id) => HalfCloseInv(c, id);
    case UnaryDone(id, a) => UnaryDoneInv(c, id, a);
    case TagDone(id, k, ok, a) => TagDoneInv(c, id, k, ok, a);
    case PollEnter(want, max, timeout, expired) =>
      if timeout != 0 && !HaveMatch(c.box.ready, want) && !(timeout > 0 && expired) {
        ParkInv(c, want, max, 0, 0);
      } else {
        DeliverInv(c, want, max);
      }
    case PollReadable(expired) =>
      var Waiting(want, max, arrivals, wakeups) := c.box.poller;
      if !HaveMatch(c.box.ready, want) && !expired {
        ParkInv(c, want, max, arrivals, wakeups + 1);
      } else {
        DeliverInv(c, want, max);
      }
    case PollOver => DeliverInv(c, c.box.poller.want, c.box.poller.max);
    case Shutdown => ShutdownInv(c);
  }

  /** The invariant holds after every finite run of the client. */
  lemma {:induction false} RunInv(capacity: nat, acts: seq<Action>)
    requires 1 <= capacity && ValidRun(Init(capacity), acts)
    ensures Inv(Exec(Init(capacity), acts))
  {
    if acts == [] {
      InitInv(capacity);
    } else {
      var n := |acts| - 1;
      RunInv(capacity, acts[..n]);
      ApplyInv(Exec(Init(capacity), acts[..n]), acts[n]);
    }
  }
}
