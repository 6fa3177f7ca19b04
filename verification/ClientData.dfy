/** What the events and writes of a client carry. Each law ties the data in the machine's logs to the actions
    of the run: the bytes and statuses that completions brought, and the bytes that callers sent. */
module ClientData {
  import opened Common
  import opened Events
  import opened Mailbox
  import opened ClientStream
  import opened ClientModel
  import opened ClientInv
  import opened ClientRuns

  // ---- what a run brought for one call ----

  /** What one action has R told about the call `id`: the message that a good read brought on an unbroken
      stream, "writable" when a good write was the last one queued, the status that Finish brought, and
      the whole outcome of a unary call, whose response counts only when its status is OK. */
  function Tells(c: Client, act: Action, id: nat): seq<EventKind> {
    match act
    case UnaryDone(i, a) =>
      if i == id then [Unary(a.code, if a.code == 0 then a.bytes else None)] else []
    case TagDone(i, k, ok, a) =>
      if i != id || id !in c.streams then []
      else if k == TRead && ok && !c.streams[id].broken then [Msg(a.bytes)]
      else if k == TWrite && ok && !c.streams[id].broken && |c.streams[id].writeQueue| == 1 then [Writable]
      else if k == TFinish then [Status(a.code)]
      else []
    case _ => []
  }

  /** The bytes of a send that is taken: the stream is in the map, neither broken, finishing nor half-closed,
      and its queue has room. */
  function Takes(c: Client, act: Action, id: nat): seq<Bytes> {
    match act
    case SendMsg(i, bytes) =>
      if i == id && id in c.streams
         && !c.streams[id].broken && !c.streams[id].finishPosted && !c.streams[id].wdoneRequested
         && |c.streams[id].writeQueue| < c.streams[id].writeCap
      then [bytes] else []
    case _ => []
  }

  /** A start, write or half-close that did not go well. */
  predicate Breaks(act: Action, id: nat) {
    act.TagDone? && act.id == id && !act.ok && (act.kind == TStart || act.kind == TWrite || act.kind == TWDone)
  }

  // ---- step by step ----

  lemma PutBackPushed(c: Client, id: nat, s: Stream, ev: Option<EventKind>)
    requires id in c.streams
    ensures PutBack(c, id, s, ev).box.pushed
         == c.box.pushed + (if ev.Some? then [Event(id, ev.value)] else [])
  {
  }

  lemma TagDonePushed(c: Client, id: nat, k: TagKind, ok: bool, a: Arrival)
    requires Dereferenceable(c, id, k)
    ensures var s := c.streams[id];
      DoTagDone(c, id, k, ok, a).box.pushed == c.box.pushed +
        (if k == TRead && ok && !s.broken then [Event(id, Msg(a.bytes))]
         else if k == TWrite && ok && !s.broken && |s.writeQueue| == 1 then [Event(id, Writable)]
         else if k == TFinish then [Event(id, Status(a.code))]
         else [])
  {
    hide OnTag, PutBack;
    PutBackPushed(c, id, OnTag(c.streams[id], k, ok, c.shutting), EventOf(c.streams[id], k, ok, a));
  }

  lemma OfOne(q: seq<Event<EventKind>>, more: seq<Event<EventKind>>, id: nat)
    requires |more| <= 1
    ensures Of(q + more, id) == Of(q, id) + (if more != [] && more[0].id == id then [more[0].kind] else [])
  {
    if more == [] {
      assert q + more == q;
    } else {
      assert more == [more[0]];
      OfAppend(q, more[0], id);
    }
  }

  /** One step adds to a call's history exactly what its action tells. */
  lemma StepTells(c: Client, act: Action, id: nat)
    requires Inv(c) && Enabled(c, act)
    ensures Of(Apply(c, act).box.pushed, id) == Of(c.box.pushed, id) + Tells(c, act, id)
  {
    hide Inv, DoTagDone, Deliver, Of;
    assert Of(c.box.pushed, id) + [] == Of(c.box.pushed, id);
    match act
    case TagDone(i, k, ok, a) =>
      TagDoneMaps(c, i, k, ok, a);
      TagDonePushed(c, i, k, ok, a);
      var s := c.streams[i];
      OfOne(c.box.pushed, if k == TRead && ok && !s.broken then [Event(i, Msg(a.bytes))]
                          else if k == TWrite && ok && !s.broken && |s.writeQueue| == 1 then [Event(i, Writable)]
                          else if k == TFinish then [Event(i, Status(a.code))]
                          else [], id);
    case UnaryDone(i, a) =>
      OfOne(c.box.pushed, [Event(i, Unary(a.code, if a.code == 0 then a.bytes else None))], id);
    case PollEnter(want, max, timeout, expired) => DeliverTakes(c, want, max);
    case PollReadable(expired) => DeliverTakes(c, c.box.poller.want, c.box.poller.max);
    case PollOver => DeliverTakes(c, c.box.poller.want, c.box.poller.max);
    case _ =>
  }

  // A handler's effect on the data of its stream.

  lemma OnStartData(s: Stream, ok: bool, shutting: bool)
    ensures var t := OnStart(s, ok, shutting);
      t.accepted == s.accepted && t.completed == s.completed && (t.broken <==> s.broken || !ok)
  {
    hide Grows, PostRead, Pump, TryFinish;
  }

  lemma OnReadData(s: Stream, ok: bool, shutting: bool)
    ensures var t := OnRead(s, ok, shutting);
      t.accepted == s.accepted && t.completed == s.completed && (t.broken <==> s.broken)
  {
    hide Grows, PostRead, TryFinish;
  }

  lemma OnWriteData(s: Stream, ok: bool, shutting: bool)
    requires s.writeQueue != []
    ensures var t := OnWrite(s, ok, shutting);
      && t.accepted == s.accepted && (t.broken <==> s.broken || !ok)
      && t.completed == s.completed + (if ok && !s.broken then [s.writeQueue[0]] else [])
  {
    hide Grows, Pump, TryFinish;
  }

  lemma OnWDoneData(s: Stream, ok: bool, shutting: bool)
    ensures var t := OnWDone(s, ok, shutting);
      t.accepted == s.accepted && t.completed == s.completed && (t.broken <==> s.broken || !ok)
  {
    hide Grows, TryFinish;
  }

  lemma OnTagData(s: Stream, k: TagKind, ok: bool, shutting: bool)
    requires k == TWrite ==> s.writeQueue != []
    ensures var t := OnTag(s, k, ok, shutting);
      && t.accepted == s.accepted
      && (t.broken <==> s.broken || (!ok && (k == TStart || k == TWrite || k == TWDone)))
      && t.completed == s.completed + (if k == TWrite && ok && !s.broken then [s.writeQueue[0]] else [])
  {
    hide Grows, OnStart, OnRead, OnWrite, OnWDone;
    assert s.completed + [] == s.completed;
    match k
    case TStart => OnStartData(s, ok, shutting);
    case TRead => OnReadData(s, ok, shutting);
    case TWrite => OnWriteData(s, ok, shutting);
    case TWDone => OnWDoneData(s, ok, shutting);
    case TFinish =>
  }

  lemma SendData(s: Stream, bytes: Bytes, shutting: bool)
    ensures var t := Send(s, bytes, shutting);
      && t.completed == s.completed && (t.broken <==> s.broken) && (t.wdoneRequested <==> s.wdoneRequested)
      && t.accepted == s.accepted +
           (if !s.broken && !s.finishPosted && !s.wdoneRequested && |s.writeQueue| < s.writeCap then [bytes] else [])
  {
    hide Grows, Pump;
    assert s.accepted + [] == s.accepted;
  }

  lemma WritesDoneData(s: Stream, shutting: bool)
    ensures var t := WritesDone(s, shutting);
      t.accepted == s.accepted && t.completed == s.completed && (t.broken <==> s.broken) && t.wdoneRequested
  {
    hide Grows, Pump;
  }

  // ---- one step on a stream's record ----

  /** The sends taken so far; none before the stream exists. */
  function AcceptedOf(r: Option<Stream>): seq<Bytes> {
    if r.Some? then r.value.accepted else []
  }

  function CompletedOf(r: Option<Stream>): seq<Bytes> {
    if r.Some? then r.value.completed else []
  }

  predicate BrokenIs(r: Option<Stream>) {
    r.Some? && r.value.broken
  }

  /** The write that a good completion finishes. */
  function Finishes(c: Client, act: Action, id: nat): seq<Bytes> {
    if act.TagDone? && act.id == id && act.kind == TWrite && act.ok
       && id in c.streams && !c.streams[id].broken && c.streams[id].writeQueue != []
    then [c.streams[id].writeQueue[0]] else []
  }

  /** What one step does to a stream's data, `r` before and `r'` after. */
  predicate DataMoves(c: Client, act: Action, id: nat, r: Option<Stream>, r': Option<Stream>) {
    && AcceptedOf(r') == AcceptedOf(r) + Takes(c, act, id)
    && CompletedOf(r') == CompletedOf(r) + Finishes(c, act, id)
    && (BrokenIs(r') <==> BrokenIs(r) || Breaks(act, id))
  }

  lemma TagDoneData(c: Client, i: nat, k: TagKind, ok: bool, a: Arrival, id: nat)
    requires Inv(c) && Outstanding(c, i, k)
    ensures DataMoves(c, TagDone(i, k, ok, a), id, Record(c, id), Record(DoTagDone(c, i, k, ok, a), id))
  {
    hide Inv, DoTagDone, OnTag;
    TagDoneMaps(c, i, k, ok, a);
    NotFreed(c, i);
    var r := Record(c, id);
    assert AcceptedOf(r) + [] == AcceptedOf(r) && CompletedOf(r) + [] == CompletedOf(r);
    if id == i {
      OnTagData(c.streams[i], k, ok, c.shutting);
      assert Record(DoTagDone(c, i, k, ok, a), i) == Some(OnTag(c.streams[i], k, ok, c.shutting));
      hide Record;
    } else {
      assert Record(DoTagDone(c, i, k, ok, a), id) == r;
      hide Record;
    }
  }

  lemma NotFreed(c: Client, id: nat)
    requires Inv(c) && id in c.streams
    ensures id !in c.freed
  {
  }

  lemma DeliveredData(c: Client, want: Option<nat>, max: int, id: nat)
    requires Inv(c)
    ensures var r, r' := Record(c, id), Record(Deliver(c, want, max), id);
      AcceptedOf(r') == AcceptedOf(r) && CompletedOf(r') == CompletedOf(r) && (BrokenIs(r') <==> BrokenIs(r))
  {
    hide Inv, Deliver, Grows;
    DeliverGrows(c, want, max, id);
  }

  lemma NothingMoves(c: Client, act: Action, id: nat, r: Option<Stream>)
    requires !act.SendMsg? && !act.TagDone?
    ensures DataMoves(c, act, id, r, r)
  {
    assert AcceptedOf(r) + [] == AcceptedOf(r) && CompletedOf(r) + [] == CompletedOf(r);
  }

  lemma SendMoves(c: Client, i: nat, bytes: Bytes, id: nat)
    ensures DataMoves(c, SendMsg(i, bytes), id, Record(c, id), Record(DoSend(c, i, bytes), id))
  {
    hide Send;
    var r := Record(c, id);
    assert AcceptedOf(r) + [] == AcceptedOf(r) && CompletedOf(r) + [] == CompletedOf(r);
    if i in c.streams {
      SendData(c.streams[i], bytes, c.shutting);
    }
  }

  lemma HalfCloseMoves(c: Client, i: nat, id: nat)
    ensures DataMoves(c, HalfClose(i), id, Record(c, id), Record(DoHalfClose(c, i), id))
  {
    hide WritesDone;
    var r := Record(c, id);
    assert AcceptedOf(r) + [] == AcceptedOf(r) && CompletedOf(r) + [] == CompletedOf(r);
    if i in c.streams {
      WritesDoneData(c.streams[i], c.shutting);
    }
  }

  lemma StartMoves(c: Client, rc: int, wc: int, id: nat)
    requires c.nextId !in c.streams && c.nextId !in c.freed
    ensures DataMoves(c, StreamStart(rc, wc), id, Record(c, id), Record(DoStreamStart(c, rc, wc), id))
  {
    hide Opened;
    var r := Record(c, id);
    assert AcceptedOf(r) + [] == AcceptedOf(r) && CompletedOf(r) + [] == CompletedOf(r);
    OpenedData(c.nextId, rc, wc);
  }

  lemma NextIdFree(c: Client)
    requires Inv(c)
    ensures c.nextId !in c.streams && c.nextId !in c.freed
  {
  }

  /** A new stream has taken nothing and finished nothing, and has its caller's caps; a negative write cap is
      read as an unsigned 64-bit number. */
  lemma OpenedData(id: nat, readCap: int, writeCap: int)
    ensures var s := Opened(id, readCap, writeCap);
      && s.accepted == [] && s.completed == [] && !s.broken && !s.wdoneRequested && s.readCap == readCap
      && s.writeCap == if writeCap >= 0 then writeCap else writeCap % 0x1_0000_0000_0000_0000
  {
  }

  lemma StepData(c: Client, act: Action, id: nat)
    requires Inv(c) && Enabled(c, act)
    ensures DataMoves(c, act, id, Record(c, id), Record(Apply(c, act), id))
  {
    NextIdFree(c);
    hide Inv, DoTagDone, Deliver, Record, DataMoves;
    match act
    case TagDone(i, k, ok, a) => TagDoneData(c, i, k, ok, a, id);
    case SendMsg(i, bytes) => SendMoves(c, i, bytes, id);
    case HalfClose(i) => HalfCloseMoves(c, i, id);
    case StreamStart(rc, wc) => StartMoves(c, rc, wc, id);
    case PollEnter(want, max, timeout, expired) => PollMoves(c, act, want, max, id);
    case PollReadable(expired) => PollMoves(c, act, c.box.poller.want, c.box.poller.max, id);
    case PollOver => PollMoves(c, act, c.box.poller.want, c.box.poller.max, id);
    case _ =>
      SameRecord(c, Apply(c, act), id);
      NothingMoves(c, act, id, Record(c, id));
  }

  lemma PollMoves(c: Client, act: Action, want: Option<nat>, max: int, id: nat)
    requires Inv(c) && (act.PollEnter? || act.PollReadable? || act.PollOver?)
    ensures DataMoves(c, act, id, Record(c, id), Record(Deliver(c, want, max), id))
    ensures forall b: Box<EventKind> :: DataMoves(c, act, id, Record(c, id), Record(c.(box := b), id))
  {
    hide Inv, Deliver;
    DeliveredData(c, want, max, id);
    NothingMoves(c, act, id, Record(c, id));
  }

  lemma SameRecord(c: Client, d: Client, id: nat)
    ensures c.streams == d.streams && c.freed == d.freed ==> Record(c, id) == Record(d, id)
  {
  }

  // ---- whole runs ----

  /** Everything the actions of a run told about one call, in order. */
  ghost function Told(c0: Client, acts: seq<Action>, id: nat): seq<EventKind>
    requires ValidRun(c0, acts)
  {
    if acts == [] then []
    else
      var n := |acts| - 1;
      Told(c0, acts[..n], id) + Tells(Exec(c0, acts[..n]), acts[n], id)
  }

  /** The payloads of the sends that were taken, in order. */
  ghost function Sent(c0: Client, acts: seq<Action>, id: nat): seq<Bytes>
    requires ValidRun(c0, acts)
  {
    if acts == [] then []
    else
      var n := |acts| - 1;
      Sent(c0, acts[..n], id) + Takes(Exec(c0, acts[..n]), acts[n], id)
  }

  ghost predicate Broke(acts: seq<Action>, id: nat) {
    exists i :: 0 <= i < |acts| && Breaks(acts[i], id)
  }

  /** In every run a call's history, delivered and still queued, is exactly what the actions told: the bytes
      that good reads brought, "writable" when the queue ran empty, the status that Finish or the unary
      call brought. */
  lemma {:induction false} HistoryIsTold(capacity: nat, acts: seq<Action>, id: nat)
    requires 1 <= capacity && ValidRun(Init(capacity), acts)
    ensures Of(Exec(Init(capacity), acts).box.pushed, id) == Told(Init(capacity), acts, id)
  {
    hide Apply, Tells, Of;
    if acts == [] {
      EmptyHistory(capacity, id);
    } else {
      var n := |acts| - 1;
      HistoryIsTold(capacity, acts[..n], id);
      RunInv(capacity, acts[..n]);
      hide Inv;
      StepTells(Exec(Init(capacity), acts[..n]), acts[n], id);
    }
  }

  lemma EmptyHistory(capacity: nat, id: nat)
    ensures Of(Init(capacity).box.pushed, id) == []
  {
  }

  /** In every run the sends a stream accepted are exactly the bytes of the sends that were taken, and it is
      broken exactly when a start, a write or a half-close of its own came back bad. */
  lemma {:induction false} AcceptedIsSent(capacity: nat, acts: seq<Action>, id: nat)
    requires 1 <= capacity && ValidRun(Init(capacity), acts)
    ensures var r := Record(Exec(Init(capacity), acts), id);
      AcceptedOf(r) == Sent(Init(capacity), acts, id) && (BrokenIs(r) <==> Broke(acts, id))
  {
    hide Apply, Takes, Record, AcceptedOf, BrokenIs, Breaks, CompletedOf, Finishes;
    if acts == [] {
      NothingAtFirst(capacity, id);
    } else {
      var n := |acts| - 1;
      AcceptedIsSent(capacity, acts[..n], id);
      RunInv(capacity, acts[..n]);
      hide Inv;
      StepData(Exec(Init(capacity), acts[..n]), acts[n], id);
      BrokeSnoc(acts, id);
    }
  }

  lemma NothingAtFirst(capacity: nat, id: nat)
    ensures AcceptedOf(Record(Init(capacity), id)) == [] && !BrokenIs(Record(Init(capacity), id))
  {
  }

  lemma BrokeSnoc(acts: seq<Action>, id: nat)
    requires acts != []
    ensures Broke(acts, id) <==> Broke(acts[..|acts| - 1], id) || Breaks(acts[|acts| - 1], id)
  {
    hide Breaks;
    var n := |acts| - 1;
    if i :| 0 <= i < |acts| && Breaks(acts[i], id) {
      assert i < n ==> acts[..n][i] == acts[i];
    }
    if i :| 0 <= i < n && Breaks(acts[..n][i], id) {
      assert acts[i] == acts[..n][i];
    }
  }

  // ---- messages and statuses, from the actions alone ----

  /** The payloads of the messages in a history. */
  function Payloads(h: seq<EventKind>): seq<Option<Bytes>> {
    if h == [] then []
    else
      var n := |h| - 1;
      Payloads(h[..n]) + (if h[n].Msg? then [h[n].payload] else [])
  }

  /** The bytes that the stream's good reads brought before anything of it broke. */
  ghost function Arrivals(acts: seq<Action>, id: nat): seq<Option<Bytes>> {
    if acts == [] then []
    else
      var n, act := |acts| - 1, acts[|acts| - 1];
      Arrivals(acts[..n], id) +
        (if act.TagDone? && act.id == id && act.kind == TRead && act.ok && !Broke(acts[..n], id)
         then [act.arrival.bytes] else [])
  }

  lemma {:induction false} PayloadsConcat(a: seq<EventKind>, b: seq<EventKind>)
    ensures Payloads(a + b) == Payloads(a) + Payloads(b)
  {
    if b == [] {
      assert a + b == a;
    } else {
      var n := |b| - 1;
      PayloadsConcat(a, b[..n]);
      assert (a + b)[..|a + b| - 1] == a + b[..n];
    }
  }

  lemma PayloadsTold(c: Client, act: Action, id: nat)
    requires Inv(c) && Enabled(c, act)
    ensures Payloads(Tells(c, act, id)) ==
      if act.TagDone? && act.id == id && act.kind == TRead && act.ok && !BrokenIs(Record(c, id))
      then [act.arrival.bytes] else []
  {
    hide Inv;
    var h := Tells(c, act, id);
    assert h != [] ==> h[..0] == [] && h == [h[0]];
    if act.TagDone? {
      OwedInMap(c, act.id, act.kind);
    }
    hide Outstanding;
  }

  lemma OwedInMap(c: Client, id: nat, k: TagKind)
    requires Inv(c) && Outstanding(c, id, k)
    ensures id in c.streams
  {
    CoreStreams(c);
    hide Inv, Core, Ids;
    TagIsLive(c, id, k);
  }

  /** In every run the messages a stream's owner is given are, in order, the bytes that its good reads brought
      before anything of it broke. */
  lemma {:induction false} MessagesAreArrivals(capacity: nat, acts: seq<Action>, id: nat)
    requires 1 <= capacity && ValidRun(Init(capacity), acts)
    ensures Payloads(Of(Exec(Init(capacity), acts).box.pushed, id)) == Arrivals(acts, id)
  {
    hide Apply, Of, Payloads, Tells, Enabled, Record, BrokenIs, Broke;
    if acts == [] {
      EmptyHistory(capacity, id);
      NoPayloads();
    } else {
      var n := |acts| - 1;
      var c := Exec(Init(capacity), acts[..n]);
      MessagesAreArrivals(capacity, acts[..n], id);
      RunInv(capacity, acts[..n]);
      hide Inv;
      AcceptedIsSent(capacity, acts[..n], id);
      StepTells(c, acts[n], id);
      PayloadsConcat(Of(c.box.pushed, id), Tells(c, acts[n], id));
      PayloadsTold(c, acts[n], id);
    }
  }

  lemma NoPayloads()
    ensures Payloads([]) == []
  {
  }

  /** The outcome of a call: the status its Finish brought, or for a unary call its status and, when that is
      OK, its response. */
  predicate IsOutcome(act: Action, id: nat, last: EventKind) {
    match act
    case UnaryDone(i, a) => i == id && last == Unary(a.code, if a.code == 0 then a.bytes else None)
    case TagDone(i, k, _, a) => i == id && k == TFinish && last == Status(a.code)
    case _ => false
  }

  lemma OutcomeTold(c: Client, act: Action, id: nat)
    requires Inv(c) && Enabled(c, act)
    requires (act.UnaryDone? && act.id == id) || (act.TagDone? && act.id == id && act.kind == TFinish)
    ensures |Tells(c, act, id)| == 1 && IsOutcome(act, id, Tells(c, act, id)[0])
    ensures act.UnaryDone? ==> Of(c.box.pushed, id) == []
  {
    if act.TagDone? {
      OwedInMap(c, id, TFinish);
      hide Inv;
    } else {
      assert HistoryOk(c, id);
      assert c.unaryTags[id] == 1;
      hide StreamsOk, Of;
    }
  }

  /** What follows an outcome in a history: nothing. */
  lemma OutcomeStays(c: Client, id: nat, h: seq<EventKind>, more: seq<EventKind>)
    requires Inv(c) && Of(c.box.pushed, id) == h + more && h != [] && Terminal(h[|h| - 1])
    ensures more == []
  {
    assert HistoryOk(c, id);
    hide Inv, Of, HistoryFits;
    assert (h + more)[|h| - 1] == h[|h| - 1];
    TerminalLast(RoleOf(c, id), h + more, |h| - 1);
  }

  /** In every run, once a call's outcome has come, its history ends with exactly that outcome; a unary call's
      history is that outcome and nothing else. */
  lemma {:induction false} OutcomeReported(capacity: nat, acts: seq<Action>, id: nat, i: nat)
    requires 1 <= capacity && ValidRun(Init(capacity), acts) && i < |acts|
    requires (acts[i].UnaryDone? && acts[i].id == id) || (acts[i].TagDone? && acts[i].id == id && acts[i].kind == TFinish)
    ensures var h := Of(Exec(Init(capacity), acts).box.pushed, id);
      h != [] && IsOutcome(acts[i], id, h[|h| - 1]) && (acts[i].UnaryDone? ==> |h| == 1)
  {
    hide Apply, Of, Tells, Enabled, Inv;
    var n := |acts| - 1;
    var c := Exec(Init(capacity), acts[..n]);
    RunInv(capacity, acts[..n]);
    RunInv(capacity, acts);
    StepTells(c, acts[n], id);
    if i == n {
      OutcomeTold(c, acts[n], id);
    } else {
      OutcomeReported(capacity, acts[..n], id, i);
      OutcomeStays(Exec(Init(capacity), acts), id, Of(c.box.pushed, id), Tells(c, acts[n], id));
    }
  }

  /** The good writes before anything of the stream broke. */
  ghost function GoodWrites(acts: seq<Action>, id: nat): nat {
    if acts == [] then 0
    else
      var n, act := |acts| - 1, acts[|acts| - 1];
      GoodWrites(acts[..n], id) +
        B(act.TagDone? && act.id == id && act.kind == TWrite && act.ok && !Broke(acts[..n], id))
  }

  lemma FinishesOne(c: Client, act: Action, id: nat)
    requires Inv(c) && Enabled(c, act)
    ensures |Finishes(c, act, id)|
         == B(act.TagDone? && act.id == id && act.kind == TWrite && act.ok && !BrokenIs(Record(c, id)))
  {
    InvStreams(c);
    hide Inv, StreamsOk;
    if act.TagDone? {
      TagIsLive(c, act.id, act.kind);
    }
    hide Outstanding;
  }

  lemma InvStreams(c: Client)
    requires Inv(c)
    ensures StreamsOk(c)
  {
  }

  /** In every run a stream has completed as many writes as came back good before anything of it broke. */
  lemma {:induction false} CompletedCounted(capacity: nat, acts: seq<Action>, id: nat)
    requires 1 <= capacity && ValidRun(Init(capacity), acts)
    ensures |CompletedOf(Record(Exec(Init(capacity), acts), id))| == GoodWrites(acts, id)
  {
    hide Apply, Record, AcceptedOf, BrokenIs, CompletedOf, Finishes, Broke, Enabled, Inv, Takes;
    if acts == [] {
      NoneCompleted(capacity, id);
    } else {
      var n := |acts| - 1;
      var c := Exec(Init(capacity), acts[..n]);
      CompletedCounted(capacity, acts[..n], id);
      RunInv(capacity, acts[..n]);
      StepData(c, acts[n], id);
      AcceptedIsSent(capacity, acts[..n], id);
      FinishesOne(c, acts[n], id);
    }
  }

  lemma NoneCompleted(capacity: nat, id: nat)
    ensures CompletedOf(Record(Init(capacity), id)) == []
  {
  }
}
