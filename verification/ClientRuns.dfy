/** What the client promises over whole runs. Every theorem quantifies over all finite runs: every
    interleaving of entry points, completions in any order with any outcome, and waits that end for
    any reason. */
module ClientRuns {
  import opened Common
  import opened Events
  import opened Mailbox
  import opened ClientStream
  import opened ClientModel
  import opened ClientInv
  import opened Sums

  // ---- the wake handle ----

  /** With no poll waiting and the mutex free, the handle is readable exactly while events are
      queued, however many signals a bounded pipe dropped. */
  lemma ReadableIffQueued(capacity: nat, acts: seq<Action>)
    requires 1 <= capacity && ValidRun(Init(capacity), acts)
    requires Exec(Init(capacity), acts).box.poller == Idle
    ensures var b := Exec(Init(capacity), acts).box; Readable(b) <==> b.ready != []
  {
    RunInv(capacity, acts);
  }

  /** A wait neither misses a wake-up nor spins: a matching event makes the handle readable, and
      readable returns never outnumber the events that arrived during the wait. */
  lemma WaitNeitherMissesNorSpins(capacity: nat, acts: seq<Action>)
    requires 1 <= capacity && ValidRun(Init(capacity), acts)
    requires Exec(Init(capacity), acts).box.poller.Waiting?
    ensures var b := Exec(Init(capacity), acts).box;
      && (HaveMatch(b.ready, b.poller.want) ==> Readable(b))
      && b.poller.wakeups + (if Readable(b) then 1 else 0) <= b.poller.arrivals
  {
    RunInv(capacity, acts);
  }

  // ---- delivery ----

  /** What R was given for a call, followed by what still waits for it, is everything that was
      queued for it, in order; and that history has the shape its call promises. */
  lemma DeliveryConserved(capacity: nat, acts: seq<Action>, id: nat)
    requires 1 <= capacity && ValidRun(Init(capacity), acts)
    ensures var c := Exec(Init(capacity), acts);
      && Of(c.box.delivered, id) + Of(c.box.ready, id) == Of(c.box.pushed, id)
      && HistoryFits(RoleOf(c, id), Of(c.box.pushed, id))
  {
    RunInv(capacity, acts);
    assert HistoryOk(Exec(Init(capacity), acts), id);
  }

  /** What waits for R is in arrival order across all calls, whatever filtered takes went before. */
  lemma ArrivalOrder(capacity: nat, acts: seq<Action>)
    requires 1 <= capacity && ValidRun(Init(capacity), acts)
    ensures var b := Exec(Init(capacity), acts).box; Subsequence(b.ready, b.pushed)
  {
    hide Subsequence;
    RunInv(capacity, acts);
  }

  predicate Terminal(k: EventKind) {
    k.Unary? || k.Status?
  }

  lemma TerminalLast(role: Role, h: seq<EventKind>, i: nat)
    requires HistoryFits(role, h) && i < |h| && Terminal(h[i])
    ensures i == |h| - 1 && (role == FinishedUnary || role == FinishedStream)
  {
    assert role == FinishedStream ==> forall j :: 0 <= j < |h| - 1 ==> h[..|h| - 1][j] == h[j];
  }

  lemma TerminalPresent(role: Role, h: seq<EventKind>)
    requires HistoryFits(role, h) && (role == FinishedUnary || role == FinishedStream)
    ensures |h| >= 1 && Terminal(h[|h| - 1])
  {
  }

  /** Once R has been given a call's terminal event, nothing of that call is queued, nothing of it
      comes after, and its object is gone. */
  lemma TerminalDeliveredLast(c: Client, id: nat, i: nat)
    requires Inv(c) && i < |Of(c.box.delivered, id)| && Terminal(Of(c.box.delivered, id)[i])
    ensures i == |Of(c.box.delivered, id)| - 1 && Of(c.box.ready, id) == []
    ensures RoleOf(c, id) == FinishedUnary || RoleOf(c, id) == FinishedStream
  {
    hide StreamsOk, Ids, Of;
    var d, r, h := Of(c.box.delivered, id), Of(c.box.ready, id), Of(c.box.pushed, id);
    assert d + r == h;
    assert h[i] == d[i];
    assert HistoryOk(c, id);
    TerminalLast(RoleOf(c, id), h, i);
  }

  // ---- tags and lifetime ----

  /** No tag dangles: a stream's tag names a stream in the map that owes it, and a unary tag names a
      pending call that owes exactly one. And `pending` is the number of tags outstanding, kind by kind,
      for every stream. */
  lemma TagsAreLive(capacity: nat, acts: seq<Action>)
    requires 1 <= capacity && ValidRun(Init(capacity), acts)
    ensures var c := Exec(Init(capacity), acts);
      && (forall id, k :: Outstanding(c, id, k) ==> Dereferenceable(c, id, k) && k in c.streams[id].out)
      && (forall id :: id in c.streams ==> TagsExact(c.streams[id]))
      && (forall id :: id in c.unaryTags <==> id in c.calls)
      && (forall id :: id in c.unaryTags ==> c.unaryTags[id] == 1)
  {
    RunInv(capacity, acts);
    var c := Exec(Init(capacity), acts);
    CoreStreams(c);
    forall id, k | Outstanding(c, id, k) ensures Dereferenceable(c, id, k) && k in c.streams[id].out {
      TagIsLive(c, id, k);
    }
    forall id | id in c.streams ensures TagsExact(c.streams[id]) {
      assert LiveStream(c, id);
    }
    UnaryTagsExact(c);
    hide Inv, StreamsOk, Ids, Outstanding, Dereferenceable;
  }

  lemma UnaryTagsExact(c: Client)
    requires Ids(c)
    ensures forall id :: id in c.unaryTags <==> id in c.calls
    ensures forall id :: id in c.unaryTags ==> c.unaryTags[id] == 1
  {
    forall id: nat ensures id in c.unaryTags <==> id in c.calls {
      assert c.unaryTags[id] == if id in c.calls then 1 else 0;
    }
  }

  lemma PutBackMaps(c: Client, id: nat, s: Stream, ev: Option<EventKind>)
    requires id in c.streams
    ensures var c' := PutBack(c, id, s, ev);
      if s.pending == 0 && s.statusEmitted
      then c'.streams == c.streams - {id} && c'.freed == c.freed[id := s]
      else c'.streams == c.streams[id := s] && c'.freed == c.freed
  {
    hide Push;
    assert c.streams[id := s] - {id} == c.streams - {id};
  }

  /** What a completion handler leaves: a record that grew, freed exactly when it was Finish. */
  lemma TagDoneMaps(c: Client, id: nat, k: TagKind, ok: bool, a: Arrival)
    requires Inv(c) && Outstanding(c, id, k)
    ensures Dereferenceable(c, id, k)
    ensures var c', s := DoTagDone(c, id, k, ok, a), OnTag(c.streams[id], k, ok, c.shutting);
      if k == TFinish
      then c'.streams == c.streams - {id} && c'.freed == c.freed[id := s]
      else c'.streams == c.streams[id := s] && c'.freed == c.freed
  {
    hide Core, StreamInv, Of, Msgs, PutBack, Push;
    assert StreamsOk(c) by { CoreStreams(c); }
    TagIsLive(c, id, k);
    FinishIdle(c, id, k, ok, a);
    PutBackMaps(c, id, OnTag(c.streams[id], k, ok, c.shutting), EventOf(c.streams[id], k, ok, a));
  }

  lemma CoreStreams(c: Client)
    requires Core(c)
    ensures StreamsOk(c) && Ids(c)
  {
  }

  lemma FinishIdle(c: Client, id: nat, k: TagKind, ok: bool, a: Arrival)
    requires StreamsOk(c) && Dereferenceable(c, id, k) && k in c.streams[id].out
    ensures var s := OnTag(c.streams[id], k, ok, c.shutting);
      (s.pending == 0 && s.statusEmitted) <==> k == TFinish
  {
    hide OnStart, OnRead, OnWrite, OnWDone, Of, Msgs;
    assert LiveStream(c, id);
    OnTagEffect(c.streams[id], k, ok, c.shutting, a);
    if k == TFinish {
      OnFinishShape(c.streams[id]);
    }
  }

  /** A stream object leaves the map at its Finish completion and in no other step, during shutdown
      too. */
  lemma FreedOnlyByFinish(c: Client, act: Action, id: nat)
    requires Inv(c) && Enabled(c, act) && id in c.streams
    ensures id !in Apply(c, act).streams <==> act.TagDone? && act.id == id && act.kind == TFinish
  {
    hide Inv, DoTagDone, Deliver;
    match act
    case TagDone(i, k, ok, a) => TagDoneMaps(c, i, k, ok, a);
    case PollEnter(want, max, timeout, expired) => DeliverGrows(c, want, max, id);
    case PollReadable(expired) => DeliverGrows(c, c.box.poller.want, c.box.poller.max, id);
    case PollOver => DeliverGrows(c, c.box.poller.want, c.box.poller.max, id);
    case _ =>
  }

  /** Each object ever created is live or was deleted exactly once. */
  lemma DeletedExactlyOnce(capacity: nat, acts: seq<Action>, id: nat)
    requires 1 <= capacity && ValidRun(Init(capacity), acts)
    ensures var c := Exec(Init(capacity), acts);
      c.deleted[id] == if 1 <= id < c.nextId && id !in c.calls && id !in c.streams then 1 else 0
  {
    RunInv(capacity, acts);
  }

  // ---- logs only grow ----

  lemma ResumedTransitive(s: Stream, t: Stream, u: Stream)
    requires Resumed(s, t) && Resumed(t, u)
    ensures Resumed(s, u)
  {
    GrowsTransitive(s, t, u);
  }

  lemma DeliverAtResumes(c: Client, pos: nat, id: nat)
    requires pos < |c.box.ready|
    ensures var c' := DeliverAt(c, pos);
      && c'.streams.Keys == c.streams.Keys && c'.freed == c.freed
      && (id in c.streams ==> Resumed(c.streams[id], c'.streams[id]))
  {
    hide Resume;
  }

  lemma {:induction false} DeliverLoopGrows(c: Client, pos: nat, n: int, want: Option<nat>, id: nat)
    requires pos <= |c.box.ready|
    ensures var c' := DeliverLoop(c, pos, n, want);
      && c'.streams.Keys == c.streams.Keys && c'.freed == c.freed
      && (id in c.streams ==> Resumed(c.streams[id], c'.streams[id]))
    decreases |c.box.ready| - pos
  {
    if pos == |c.box.ready| || n <= 0 {
    } else if !Matches(want, c.box.ready[pos]) {
      DeliverLoopGrows(c, pos + 1, n, want, id);
    } else {
      var c1 := DeliverAt(c, pos);
      DeliverAtResumes(c, pos, id);
      DeliverLoopGrows(c1, pos, n - 1, want, id);
      hide Resumed, DeliverAt;
      if id in c.streams {
        ResumedTransitive(c.streams[id], c1.streams[id], DeliverLoop(c1, pos, n - 1, want).streams[id]);
      }
    }
  }

  lemma DeliverGrows(c: Client, want: Option<nat>, max: int, id: nat)
    ensures var c' := Deliver(c, want, max);
      && c'.streams.Keys == c.streams.Keys && c'.freed == c.freed
      && (id in c.streams ==> Resumed(c.streams[id], c'.streams[id]))
  {
    DeliverLoopGrows(c.(box := Drained(c.box)), 0, max, want, id);
  }

  /** The last known record of a stream, live or freed. */
  function Record(c: Client, id: nat): Option<Stream> {
    if id in c.streams then Some(c.streams[id])
    else if id in c.freed then Some(c.freed[id])
    else None
  }

  predicate RecordGrows(r: Option<Stream>, r': Option<Stream>) {
    r.Some? ==> r'.Some? && Grows(r.value, r'.value)
  }

  lemma StepGrows(c: Client, act: Action, id: nat)
    requires Inv(c) && Enabled(c, act)
    ensures RecordGrows(Record(c, id), Record(Apply(c, act), id))
  {
    hide StreamsOk, Grows, DoTagDone, Deliver, Armed, Conserved, HistoryOk, Opened;
    GrowsReflexive(c, id);
    match act
    case TagDone(i, k, ok, a) => TagDoneMaps(c, i, k, ok, a);
    case PollEnter(want, max, timeout, expired) => DeliverGrows(c, want, max, id);
    case PollReadable(expired) => DeliverGrows(c, c.box.poller.want, c.box.poller.max, id);
    case PollOver => DeliverGrows(c, c.box.poller.want, c.box.poller.max, id);
    case _ =>
  }

  lemma GrowsReflexive(c: Client, id: nat)
    ensures RecordGrows(Record(c, id), Record(c, id))
  {
  }

  /** Along every run, from any point to any later one, a stream's logs only grow, and from the
      moment Finish is posted no op is ever posted on it and no send accepted. */
  lemma {:induction false} LogsOnlyGrow(capacity: nat, acts: seq<Action>, n: nat, id: nat)
    requires 1 <= capacity && ValidRun(Init(capacity), acts) && n <= |acts|
    ensures ValidRun(Init(capacity), acts[..n])
    ensures RecordGrows(Record(Exec(Init(capacity), acts[..n]), id), Record(Exec(Init(capacity), acts), id))
  {
    var c0 := Init(capacity);
    if n == |acts| {
      assert acts[..n] == acts;
      GrowsReflexive(Exec(c0, acts), id);
    } else {
      var m := |acts| - 1;
      assert acts[..m][..n] == acts[..n];
      LogsOnlyGrow(capacity, acts[..m], n, id);
      RunInv(capacity, acts[..m]);
      var r0, r1 := Record(Exec(c0, acts[..n]), id), Record(Exec(c0, acts[..m]), id);
      StepGrows(Exec(c0, acts[..m]), acts[m], id);
      if r0.Some? {
        GrowsTransitive(r0.value, r1.value, Record(Exec(c0, acts), id).value);
      }
    }
  }

  // ---- ops, writes and backpressure ----

  lemma RecordShape(capacity: nat, acts: seq<Action>, id: nat)
    requires 1 <= capacity && ValidRun(Init(capacity), acts)
    requires Record(Exec(Init(capacity), acts), id).Some?
    ensures Shape(Record(Exec(Init(capacity), acts), id).value)
  {
    hide Shape;
    RunInv(capacity, acts);
    var c := Exec(Init(capacity), acts);
    assert id in c.streams ==> LiveStream(c, id);
    assert id in c.freed ==> FreedStream(c.freed[id]);
  }

  /** The op discipline of gRPC: one op per direction, Finish alone; and over the whole life of the
      stream, StartCall first, nothing after Finish, no write after WritesDone. */
  lemma OpDiscipline(capacity: nat, acts: seq<Action>, id: nat)
    requires 1 <= capacity && ValidRun(Init(capacity), acts)
    requires Record(Exec(Init(capacity), acts), id).Some?
    ensures var s := Record(Exec(Init(capacity), acts), id).value;
      && s.out[TRead] <= 1 && s.out[TWrite] + s.out[TWDone] <= 1
      && (TFinish in s.out ==> s.out[TFinish] == 1 && s.started && s.pending == 1)
      && OpsOk(s.ops)
      && (FinishOp in s.ops ==> s.started)
  {
    RecordShape(capacity, acts, id);
  }

  /** Writes go out in order and none is lost: accepted sends are the completed ones followed by
      the queue, posted writes are a prefix of accepted sends, and when WritesDone is posted, or
      Finish on an unbroken stream, every accepted send has completed. */
  lemma WritesConserved(capacity: nat, acts: seq<Action>, id: nat)
    requires 1 <= capacity && ValidRun(Init(capacity), acts)
    requires Record(Exec(Init(capacity), acts), id).Some?
    ensures var s := Record(Exec(Init(capacity), acts), id).value;
      && s.accepted == s.completed + s.writeQueue
      && |s.writeQueue| <= s.writeCap
      && s.completed <= Writes(s.ops) <= s.accepted
      && (WritesDoneOp in s.ops ==> s.completed == s.accepted)
      && (FinishOp in s.ops && !s.broken ==> s.completed == s.accepted)
  {
    hide Shape, Record, Exec, ValidRun, Writes;
    RecordShape(capacity, acts, id);
    ShapeConservesWrites(Record(Exec(Init(capacity), acts), id).value);
  }

  lemma ShapeConservesWrites(s: Stream)
    requires Shape(s)
    ensures s.accepted == s.completed + s.writeQueue && |s.writeQueue| <= s.writeCap
    ensures s.completed <= Writes(s.ops) <= s.accepted
    ensures WritesDoneOp in s.ops ==> s.completed == s.accepted
    ensures FinishOp in s.ops && !s.broken ==> s.completed == s.accepted
  {
    hide Writes;
    if s.writeQueue != [] {
      assert s.accepted == (s.completed + [s.writeQueue[0]]) + s.writeQueue[1..];
    }
  }

  /** The backlog the stream counts is the backlog the deque holds, and with the read in flight it
      never exceeds the cap; a cap below one acts as one. */
  lemma BackpressureExact(capacity: nat, acts: seq<Action>, id: nat)
    requires 1 <= capacity && ValidRun(Init(capacity), acts)
    requires id in Exec(Init(capacity), acts).streams
    ensures var c := Exec(Init(capacity), acts);
      var s := c.streams[id];
      && s.unread == Msgs(Of(c.box.ready, id))
      && Msgs(Of(c.box.ready, id)) + s.out[TRead] <= Max(1, s.readCap)
  {
    RunInv(capacity, acts);
    assert LiveStream(Exec(Init(capacity), acts), id);
  }

  // ---- no stream is silently stuck ----

  /** Outside shutdown, a stream with a cap of at least one either has a tag outstanding or has
      exactly `readCap` messages waiting for R. */
  lemma NeverSilentlyStuck(capacity: nat, acts: seq<Action>, id: nat)
    requires 1 <= capacity && ValidRun(Init(capacity), acts)
    requires id in Exec(Init(capacity), acts).streams && !Exec(Init(capacity), acts).shutting
    requires Exec(Init(capacity), acts).streams[id].readCap >= 1
    ensures var c := Exec(Init(capacity), acts);
      c.streams[id].out != multiset{} || Msgs(Of(c.box.ready, id)) == c.streams[id].readCap
  {
    RunInv(capacity, acts);
    var c := Exec(Init(capacity), acts);
    assert LiveStream(c, id);
  }

  /** On such a stream, a poll that takes any of those messages leaves a read outstanding. */
  lemma PollResumesReading(c: Client, id: nat, want: Option<nat>, max: int)
    requires Inv(c) && !c.shutting && id in c.streams
    requires c.streams[id].readCap >= 1 && c.streams[id].out == multiset{}
    requires Msgs(Of(Deliver(c, want, max).box.ready, id)) < Msgs(Of(c.box.ready, id))
    ensures id in Deliver(c, want, max).streams && TRead in Deliver(c, want, max).streams[id].out
  {
    var c' := Deliver(c, want, max);
    DeliverInv(c, want, max);
    DeliverGrows(c, want, max, id);
    DeliverShutting(c, want, max);
    hide Deliver, Of, Msgs, WritesOk, OpsOk, Grows;
    assert LiveStream(c, id) && LiveStream(c', id);
  }

  lemma {:induction false} DeliverLoopShutting(c: Client, pos: nat, n: int, want: Option<nat>)
    requires pos <= |c.box.ready|
    ensures DeliverLoop(c, pos, n, want).shutting == c.shutting
    decreases |c.box.ready| - pos
  {
    if pos == |c.box.ready| || n <= 0 {
    } else if !Matches(want, c.box.ready[pos]) {
      DeliverLoopShutting(c, pos + 1, n, want);
    } else {
      DeliverLoopShutting(DeliverAt(c, pos), pos, n - 1, want);
    }
  }

  lemma DeliverShutting(c: Client, want: Option<nat>, max: int)
    ensures Deliver(c, want, max).shutting == c.shutting
  {
    DeliverLoopShutting(c.(box := Drained(c.box)), 0, max, want);
  }

  predicate Stuck(c: Client, id: nat) {
    && !c.shutting && id in c.streams
    && c.streams[id].out == multiset{} && Of(c.box.ready, id) == []
  }

  /** In no run is a stream opened with this cap left with nothing outstanding and nothing to poll. */
  ghost predicate NeverSticks(readCap: int) {
    forall capacity: nat, acts: seq<Action>, id: nat ::
      1 <= capacity && ValidRun(Init(capacity), acts)
      && id in Exec(Init(capacity), acts).streams && Exec(Init(capacity), acts).streams[id].readCap == readCap
      ==> !Stuck(Exec(Init(capacity), acts), id)
  }

  const NO_DATA := Arrival(None, 0)

  function StuckRun(readCap: int): seq<Action> {
    [StreamStart(readCap, 1), TagDone(1, TStart, true, NO_DATA), TagDone(1, TRead, true, NO_DATA),
     PollEnter(None, 1, 0, false)]
  }

  lemma OneMessagePolled(c: Client, id: nat)
    requires id in c.streams && c.box.ready == [Event(id, Msg(None))] && c.streams[id].unread == 1
    requires c.streams[id].readCap <= 0
    ensures var c' := Deliver(c, None, 1);
      && c'.box.ready == [] && id in c'.streams && c'.shutting == c.shutting
      && c'.streams[id].out == c.streams[id].out && c'.streams[id].readCap == c.streams[id].readCap
  {
    hide PostRead;
    var d := DeliverAt(c.(box := Drained(c.box)), 0);
    assert d.box.ready == [];
    assert DeliverLoop(d, 0, 0, None) == d;
  }

  function Opening(readCap: int): Client {
    DoStreamStart(Init(1), readCap, 1)
  }

  lemma StuckAfterStart(readCap: int)
    ensures var c := DoTagDone(Opening(readCap), 1, TStart, true, NO_DATA);
      && 1 in c.streams && c.box == Empty(1) && !c.shutting && !c.closed
      && c.streams[1] == PostRead(Settle(Opened(1, readCap, 1), TStart).(started := true), false)
  {
  }

  lemma StuckAfterRead(readCap: int)
    requires readCap <= 0
    ensures var c := DoTagDone(Opening(readCap), 1, TStart, true, NO_DATA);
      var c' := DoTagDone(c, 1, TRead, true, NO_DATA);
      && 1 in c.streams && c.streams[1].out == multiset{TRead} && c.box == Empty(1)
      && 1 in c'.streams && c'.box.ready == [Event(1, Msg(None))] && c'.box.poller == Idle
      && !c'.shutting && !c'.closed
      && c'.streams[1].unread == 1 && c'.streams[1].readCap == readCap && c'.streams[1].out == multiset{}
  {
    StuckAfterStart(readCap);
    hide Opening;
  }

  /** `read_buffer` is not validated: with a cap below one the stream reads one message and then
      nothing is outstanding and nothing is queued. */
  lemma StuckWitness(readCap: int)
    requires readCap <= 0
    ensures ValidRun(Init(1), StuckRun(readCap))
    ensures Stuck(Exec(Init(1), StuckRun(readCap)), 1)
    ensures Exec(Init(1), StuckRun(readCap)).streams[1].readCap == readCap
  {
    hide Deliver, DoTagDone, DoStreamStart;
    var acts := StuckRun(readCap);
    var c0, c1 := Init(1), Opening(readCap);
    assert acts[..1] == [acts[0]] && acts[..2] == acts[..1] + [acts[1]];
    assert acts[..3] == acts[..2] + [acts[2]] && acts == acts[..3] + [acts[3]];
    StuckAfterRead(readCap);
    assert TStart in c1.streams[1].out by { OpeningOwesStart(readCap); }
    ExecSnoc(c0, [], acts[0]);
    ExecSnoc(c0, acts[..1], acts[1]);
    ExecSnoc(c0, acts[..2], acts[2]);
    ExecSnoc(c0, acts[..3], acts[3]);
    OneMessagePolled(Exec(c0, acts[..3]), 1);
  }

  lemma OpeningOwesStart(readCap: int)
    ensures 1 in Opening(readCap).streams && TStart in Opening(readCap).streams[1].out
  {
  }

  /** The exact condition under which streams never stick. */
  lemma NeverSticksIff(readCap: int)
    ensures NeverSticks(readCap) <==> readCap >= 1
  {
    if readCap >= 1 {
      forall capacity: nat, acts: seq<Action>, id: nat |
        1 <= capacity && ValidRun(Init(capacity), acts)
        && id in Exec(Init(capacity), acts).streams && Exec(Init(capacity), acts).streams[id].readCap == readCap
        ensures !Stuck(Exec(Init(capacity), acts), id)
      {
        if !Exec(Init(capacity), acts).shutting {
          NeverSilentlyStuck(capacity, acts, id);
        }
      }
    } else {
      StuckWitness(readCap);
    }
  }

  /** With a cap below one, no run ever posts a second read on the stream. */
  lemma ZeroCapReadsOnce(capacity: nat, acts: seq<Action>, id: nat, i: nat, j: nat)
    requires 1 <= capacity && ValidRun(Init(capacity), acts)
    requires Record(Exec(Init(capacity), acts), id).Some?
    requires Record(Exec(Init(capacity), acts), id).value.readCap <= 0
    requires i < j < |Record(Exec(Init(capacity), acts), id).value.ops|
    ensures var ops := Record(Exec(Init(capacity), acts), id).value.ops;
      !(ops[i] == ReadOp && ops[j] == ReadOp)
  {
    RecordShape(capacity, acts, id);
  }

  // ---- a wait does not spin ----

  /** How often a run's polls found the handle readable. */
  function Returns(acts: seq<Action>): nat {
    if acts == [] then 0
    else Returns(acts[..|acts| - 1]) + B(acts[|acts| - 1].PollReadable?)
  }

  lemma ReturnCounts(c: Client, act: Action, found: nat, start: int)
    requires Inv(c) && Enabled(c, act) && (act.PollReadable? || act.PollOver?)
    requires Counted(c.box.poller, found, |c.box.pushed| - start)
    ensures var b := Apply(c, act).box;
      Counted(b.poller, found + B(act.PollReadable?), |b.pushed| - start)
  {
    DeliverTakes(c, c.box.poller.want, c.box.poller.max);
    DeliverInv(c, c.box.poller.want, c.box.poller.max);
    WaitArmed(c);
    hide Inv, Deliver, HaveMatch;
  }

  lemma WaitArmed(c: Client)
    requires Inv(c)
    ensures c.box.poller.Waiting? && Readable(c.box) ==> c.box.poller.wakeups < c.box.poller.arrivals
  {
    hide Core;
  }

  lemma EntryCounts(c: Client, want: Option<nat>, max: int, timeout: int, expired: bool)
    requires Inv(c) && Enabled(c, PollEnter(want, max, timeout, expired))
    ensures var b := Apply(c, PollEnter(want, max, timeout, expired)).box;
      Counted(b.poller, 0, |b.pushed| - |c.box.pushed|)
  {
    DeliverTakes(c, want, max);
    DeliverInv(c, want, max);
    hide Inv, Deliver, HaveMatch;
  }

  /** In every poll the readable returns of its wait never outnumber the events that were pushed while it
      lasted: it is never woken for nothing, however many other calls' events are queued. */
  lemma {:induction false} ReturnsBounded(c: Client, acts: seq<Action>)
    requires Inv(c) && ValidRun(c, acts) && acts != [] && acts[0].PollEnter?
    requires forall i :: 1 <= i < |acts| ==> IsCompletion(acts[i]) || acts[i].PollReadable? || acts[i].PollOver?
    ensures var b := Exec(c, acts).box;
      Inv(Exec(c, acts)) && Counted(b.poller, Returns(acts), |b.pushed| - |c.box.pushed|)
  {
    hide Inv, Apply, Enabled, Counted;
    var n := |acts| - 1;
    if n == 0 {
      assert acts[..0] == [] && Returns([]) == 0;
      ApplyInv(c, acts[0]);
      EntryCounts(c, acts[0].want, acts[0].max, acts[0].timeout, acts[0].expired);
    } else {
      var t := Exec(c, acts[..n]);
      ReturnsBounded(c, acts[..n]);
      ApplyInv(t, acts[n]);
      if IsCompletion(acts[n]) {
        CompletionPushes(t, acts[n]);
        PushCounts(t.box, Apply(t, acts[n]).box, Returns(acts[..n]), |c.box.pushed|);
      } else {
        ReturnCounts(t, acts[n], Returns(acts[..n]), |c.box.pushed|);
      }
    }
  }

  lemma PollReturns(c: Client, acts: seq<Action>, want: Option<nat>, max: int, timeout: int)
    requires Inv(c) && ValidRun(c, acts) && PollRun(acts, want, max, timeout)
    ensures Returns(acts) <= |Exec(c, acts).box.pushed| - |c.box.pushed|
  {
    hide Inv, Apply, Enabled, IsCompletion, Exec, ValidRun;
    var n := |acts| - 1;
    assert n > 0 ==> acts[..n][0] == acts[0];
    forall i | 1 <= i < |acts| ensures IsCompletion(acts[i]) || acts[i].PollReadable? || acts[i].PollOver? {
      assert i < n ==> acts[..n][i] == acts[i];
    }
    ReturnsBounded(c, acts);
  }
}
