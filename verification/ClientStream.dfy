/** One client stream: the flags of `stream_state`, the ops its helpers post, and the invariant that
    every helper and completion handler keeps. The functions take the record the helper works on
    and the client's `shutting` flag, and return the record it leaves behind. */
module ClientStream {
  import opened Common
  import opened Events

  /** The completion-queue tags of one stream object. */
  datatype TagKind = TStart | TRead | TWrite | TWDone | TFinish

  /** The ops handed to gRPC. */
  datatype Op = StartOp | ReadOp | WriteOp(payload: Bytes) | WritesDoneOp | FinishOp

  datatype EventKind =
    | Unary(status: int, response: Option<Bytes>)
    | Msg(payload: Option<Bytes>)
    | Writable
    | Status(code: int)

  datatype Stream = Stream(
    id: nat,
    pending: int,
    started: bool,
    readInflight: bool,
    writeInflight: bool,
    wdoneInflight: bool,
    wdoneRequested: bool,
    wdoneSent: bool,
    readsClosed: bool,
    broken: bool,
    wantFinish: bool,
    finishPosted: bool,
    statusEmitted: bool,
    unread: int,
    readCap: int,
    writeCap: nat,
    writeQueue: seq<Bytes>,
    out: multiset<TagKind>,     // this object's tags that the completion queue still owes
    ops: seq<Op>,               // history: ops posted, in order
    accepted: seq<Bytes>,       // history: sends that returned TRUE
    completed: seq<Bytes>)      // history: writes whose completion was good

  /** `(size_t) Rf_asInteger(write_cap)`: a negative cap wraps to a huge one. */
  function SizeT(x: int): nat {
    if x >= 0 then x else x % 0x1_0000_0000_0000_0000
  }

  function Post(s: Stream, k: TagKind, op: Op): Stream {
    s.(pending := s.pending + 1, out := s.out + multiset{k}, ops := s.ops + [op])
  }

  function Opened(id: nat, readCap: int, writeCap: int): (r: Stream)
    ensures r.id == id && r.unread == 0 && !r.statusEmitted
  {
    Post(Stream(id, 0, false, false, false, false, false, false, false, false, false, false, false,
                0, readCap, SizeT(writeCap), [], multiset{}, [], [], []),
         TStart, StartOp)
  }

  /** How the record of one stream may change: its logs grow, and after Finish nothing is posted. */
  predicate Grows(s: Stream, t: Stream) {
    && t.id == s.id && t.readCap == s.readCap && t.writeCap == s.writeCap
    && s.ops <= t.ops && s.accepted <= t.accepted && s.completed <= t.completed
    && (s.finishPosted ==> t.finishPosted && t.ops == s.ops && t.accepted == s.accepted)
    && (s.wdoneRequested ==> t.wdoneRequested && t.accepted == s.accepted)
    && (s.broken ==> t.broken && NoHalfClose(s, t))
  }

  /** No WritesDone was posted in between. */
  predicate NoHalfClose(s: Stream, t: Stream) {
    WritesDoneOp in t.ops ==> WritesDoneOp in s.ops
  }

  lemma GrowsTransitive(s: Stream, t: Stream, u: Stream)
    requires Grows(s, t) && Grows(t, u)
    ensures Grows(s, u)
  {
  }

  /** What a poll does to a stream: it may post a read, and nothing else. */
  predicate Resumed(s: Stream, t: Stream) {
    && Grows(s, t) && t.started == s.started && t.wantFinish == s.wantFinish && t.finishPosted == s.finishPosted
    && SameData(s, t)
  }

  /** Nothing the caller handed over, and nothing a completion decided, has changed. */
  predicate SameData(s: Stream, t: Stream) {
    && t.accepted == s.accepted && t.completed == s.completed && t.writeQueue == s.writeQueue
    && (t.broken <==> s.broken) && (t.wdoneRequested <==> s.wdoneRequested)
  }

  // ---- helpers that run under the mutex ----

  function PostRead(s: Stream, shutting: bool): (r: Stream)
    ensures r.unread == s.unread && r.statusEmitted == s.statusEmitted
    ensures Resumed(s, r)
    ensures shutting ==> r == s
  {
    if shutting || s.readInflight || s.readsClosed || s.broken || s.finishPosted || !s.started then s
    else Post(s.(readInflight := true), TRead, ReadOp)
  }

  function Pump(s: Stream, shutting: bool): (r: Stream)
    ensures r.unread == s.unread && r.statusEmitted == s.statusEmitted
    ensures Grows(s, r) && SameData(s, r)
    ensures shutting ==> r == s
  {
    if shutting || !s.started || s.broken || s.finishPosted then s
    else if !s.writeInflight && s.writeQueue != [] then
      Post(s.(writeInflight := true), TWrite, WriteOp(s.writeQueue[0]))
    else if !s.writeInflight && s.writeQueue == [] && s.wdoneRequested && !s.wdoneSent
         && !s.wdoneInflight then
      Post(s.(wdoneInflight := true), TWDone, WritesDoneOp)
    else s
  }

  function TryFinish(s: Stream, shutting: bool): (r: Stream)
    ensures r.unread == s.unread && r.statusEmitted == s.statusEmitted
    ensures Grows(s, r) && SameData(s, r)
    ensures shutting ==> r == s
  {
    if shutting || !s.wantFinish || s.finishPosted then s
    else if s.readInflight || s.writeInflight || s.wdoneInflight then s
    else if !s.started then s
    else Post(s.(finishPosted := true), TFinish, FinishOp)
  }

  // ---- completion handlers ----

  function Settle(s: Stream, k: TagKind): Stream {
    s.(pending := s.pending - 1, out := s.out - multiset{k})
  }

  function OnStart(s: Stream, ok: bool, shutting: bool): (r: Stream)
    ensures r.unread == s.unread && r.statusEmitted == s.statusEmitted
    ensures Grows(s, r)
    ensures shutting ==> r.out == s.out - multiset{TStart} && r.ops == s.ops
  {
    var t := Settle(s, TStart);
    if ok then TryFinish(Pump(PostRead(t.(started := true), shutting), shutting), shutting)
    else TryFinish(t.(broken := true, started := true, wantFinish := true), shutting)
  }

  function OnRead(s: Stream, ok: bool, shutting: bool): (r: Stream)
    ensures r.unread == s.unread + B(ok && !s.broken) && r.statusEmitted == s.statusEmitted
    ensures Grows(s, r)
    ensures shutting ==> r.out == s.out - multiset{TRead} && r.ops == s.ops
  {
    var t := Settle(s, TRead).(readInflight := false);
    if ok && !t.broken then
      var u := t.(unread := t.unread + 1);
      TryFinish(if u.unread < u.readCap then PostRead(u, shutting) else u, shutting)
    else TryFinish(t.(readsClosed := true, wantFinish := true), shutting)
  }

  /** The write at the front of the queue completed. */
  function Pop(s: Stream): (r: Stream)
    requires s.writeQueue != []
    ensures r.unread == s.unread && r.statusEmitted == s.statusEmitted && r.out == s.out && r.ops == s.ops
    ensures Grows(s, r) && r.id == s.id && r.writeQueue == s.writeQueue[1..]
  {
    s.(writeQueue := s.writeQueue[1..], completed := s.completed + [s.writeQueue[0]])
  }

  function OnWrite(s: Stream, ok: bool, shutting: bool): (r: Stream)
    requires s.writeQueue != []
    ensures r.unread == s.unread && r.statusEmitted == s.statusEmitted
    ensures Grows(s, r)
    ensures shutting ==> r.out == s.out - multiset{TWrite} && r.ops == s.ops
  {
    var t := Settle(s, TWrite).(writeInflight := false);
    if ok && !t.broken then
      TryFinish(Pump(Pop(t), shutting), shutting)
    else TryFinish(t.(broken := true, wantFinish := true), shutting)
  }

  function OnWDone(s: Stream, ok: bool, shutting: bool): (r: Stream)
    ensures r.unread == s.unread && r.statusEmitted == s.statusEmitted
    ensures Grows(s, r)
    ensures shutting ==> r.out == s.out - multiset{TWDone} && r.ops == s.ops
  {
    var t := Settle(s, TWDone).(wdoneInflight := false, wdoneSent := true);
    TryFinish(if ok then t else t.(broken := true, wantFinish := true), shutting)
  }

  function OnFinish(s: Stream): (r: Stream)
    ensures Grows(s, r)
  {
    Settle(s, TFinish).(statusEmitted := true)
  }

  /** What a completion carries besides its tag: the bytes read, if they could be copied, and the
      status that Finish filled in. */
  datatype Arrival = Arrival(bytes: Option<Bytes>, code: int)

  function OnTag(s: Stream, k: TagKind, ok: bool, shutting: bool): (r: Stream)
    requires k == TWrite ==> s.writeQueue != []
    ensures Grows(s, r)
    ensures shutting ==> r.out == s.out - multiset{k} && r.ops == s.ops
  {
    match k
    case TStart => OnStart(s, ok, shutting)
    case TRead => OnRead(s, ok, shutting)
    case TWrite => OnWrite(s, ok, shutting)
    case TWDone => OnWDone(s, ok, shutting)
    case TFinish => OnFinish(s)
  }

  /** The event a completion queues, if any. */
  function EventOf(s: Stream, k: TagKind, ok: bool, a: Arrival): Option<EventKind> {
    match k
    case TRead => if ok && !s.broken then Some(Msg(a.bytes)) else None
    case TWrite => if ok && !s.broken && |s.writeQueue| == 1 then Some(Writable) else None
    case TFinish => Some(Status(a.code))
    case _ => None
  }

  // ---- entry points ----

  predicate SendRefused(s: Stream) {
    s.broken || s.finishPosted || s.wdoneRequested || |s.writeQueue| >= s.writeCap
  }

  function Send(s: Stream, bytes: Bytes, shutting: bool): (r: Stream)
    ensures Grows(s, r)
  {
    if SendRefused(s) then s
    else Pump(s.(writeQueue := s.writeQueue + [bytes], accepted := s.accepted + [bytes]), shutting)
  }

  function WritesDone(s: Stream, shutting: bool): (r: Stream)
    ensures Grows(s, r)
  {
    if s.wdoneRequested then s else Pump(s.(wdoneRequested := true), shutting)
  }

  /** A poll took one of the stream's messages. */
  function Resume(s: Stream, shutting: bool): (r: Stream)
    ensures r.unread == s.unread - 1 && r.statusEmitted == s.statusEmitted
    ensures Resumed(s, r)
  {
    var t := s.(unread := s.unread - 1);
    if t.unread < t.readCap then PostRead(t, shutting) else t
  }

  // ---- invariant ----

  /** The payloads of the Write ops, in posting order. */
  function Writes(ops: seq<Op>): seq<Bytes> {
    if ops == [] then []
    else
      var n := |ops| - 1;
      Writes(ops[..n]) + (if ops[n].WriteOp? then [ops[n].payload] else [])
  }

  lemma WritesAppend(ops: seq<Op>, op: Op)
    ensures Writes(ops + [op]) == Writes(ops) + (if op.WriteOp? then [op.payload] else [])
  {
    assert (ops + [op])[..|ops|] == ops;
  }

  /** `pending` is exact, tag by tag. */
  predicate TagsExact(s: Stream) {
    && s.out[TStart] == B(!s.started)
    && s.out[TRead] == B(s.readInflight)
    && s.out[TWrite] == B(s.writeInflight)
    && s.out[TWDone] == B(s.wdoneInflight)
    && s.out[TFinish] == B(s.finishPosted && !s.statusEmitted)
    && s.pending == |s.out|
    && s.pending == B(!s.started) + B(s.readInflight) + B(s.writeInflight) + B(s.wdoneInflight)
                  + B(s.finishPosted && !s.statusEmitted)
  }

  predicate FlagsOk(s: Stream) {
    && (!s.started ==> !s.readInflight && !s.writeInflight && !s.wdoneInflight && !s.finishPosted
                       && !s.wdoneSent && !s.broken && !s.wantFinish && s.unread == 0)
    && (s.finishPosted ==> s.wantFinish && !s.readInflight && !s.writeInflight && !s.wdoneInflight)
    && (s.statusEmitted ==> s.finishPosted)
    && (s.writeInflight ==> s.writeQueue != [])
    && (s.wdoneInflight || s.wdoneSent ==> s.wdoneRequested && s.writeQueue == [] && !s.writeInflight)
    && (s.wdoneInflight ==> !s.wdoneSent)
    && (s.broken ==> !s.writeInflight && !s.wdoneInflight)
    && (s.readsClosed ==> !s.readInflight)
    && (s.wantFinish <==> s.broken || s.readsClosed)
    && 0 <= s.unread
    && s.unread + B(s.readInflight) <= Max(1, s.readCap)
  }

  /** Accepted sends are the completed ones followed by the queue, and what was posted is a prefix
      of what was accepted. */
  predicate WritesOk(s: Stream) {
    && s.accepted == s.completed + s.writeQueue
    && |s.writeQueue| <= s.writeCap
    && (s.writeInflight ==> s.writeQueue != [] && Writes(s.ops) == s.completed + [s.writeQueue[0]])
    && (!s.writeInflight && !s.broken ==> Writes(s.ops) == s.completed)
    && (Writes(s.ops) == s.completed
        || (s.writeQueue != [] && Writes(s.ops) == s.completed + [s.writeQueue[0]]))
    && (s.finishPosted && !s.broken ==> s.writeQueue == [])
  }

  /** The language of op logs: StartCall first and only first, Finish last and only last, nothing
      but reads and Finish after WritesDone. */
  predicate OpsOk(ops: seq<Op>) {
    && |ops| >= 1
    && (forall i :: 0 <= i < |ops| ==> (ops[i] == StartOp <==> i == 0))
    && (forall i :: 0 <= i < |ops| - 1 ==> ops[i] != FinishOp)
    && (forall i, j :: 0 <= i < j < |ops| && ops[i] == WritesDoneOp ==> ops[j] == ReadOp || ops[j] == FinishOp)
  }

  /** With a cap below one, the read posted at the start is the only one. */
  predicate ReadsOk(s: Stream) {
    s.readCap <= 0 ==> forall i, j :: 0 <= i < j < |s.ops| && s.ops[i] == ReadOp ==> s.ops[j] != ReadOp
  }

  predicate Shape(s: Stream) {
    && TagsExact(s) && FlagsOk(s) && WritesOk(s) && OpsOk(s.ops) && ReadsOk(s)
    && (FinishOp in s.ops <==> s.finishPosted)
    && (WritesDoneOp in s.ops <==> s.wdoneInflight || s.wdoneSent)
    && (ReadOp in s.ops ==> s.started)
    && (!s.started ==> s.ops == [StartOp])
  }

  /** Outside shutdown, everything that could be posted has been. */
  predicate PumpedDry(s: Stream) {
    s.started && !s.broken && !s.finishPosted ==>
      && (s.writeQueue != [] ==> s.writeInflight)
      && (s.writeQueue == [] && s.wdoneRequested && !s.wdoneSent ==> s.wdoneInflight)
  }

  predicate ReadsDriven(s: Stream) {
    s.started && !s.wantFinish && !s.readInflight ==> s.unread >= s.readCap
  }

  predicate FinishDriven(s: Stream) {
    s.started && s.wantFinish && !s.readInflight && !s.writeInflight && !s.wdoneInflight ==> s.finishPosted
  }

  predicate Driven(s: Stream) {
    PumpedDry(s) && ReadsDriven(s) && FinishDriven(s)
  }

  predicate StreamInv(s: Stream, shutting: bool) {
    Shape(s) && (!shutting ==> Driven(s))
  }

  // ---- every helper and handler keeps it ----

  lemma OpenedInv(id: nat, readCap: int, writeCap: int)
    ensures StreamInv(Opened(id, readCap, writeCap), false)
  {
    WritesAppend([], StartOp);
  }

  lemma PostReadShape(s: Stream, shutting: bool)
    requires Shape(s) && s.unread < Max(1, s.readCap)
    requires s.readCap <= 0 ==> ReadOp !in s.ops
    ensures Shape(PostRead(s, shutting))
    ensures PumpedDry(s) ==> PumpedDry(PostRead(s, shutting))
    ensures FinishDriven(s) ==> FinishDriven(PostRead(s, shutting))
    ensures !shutting ==> ReadsDriven(PostRead(s, shutting))
  {
    hide Grows, Resumed, Writes;
    WritesAppend(s.ops, ReadOp);
  }

  lemma PumpShape(s: Stream, shutting: bool)
    requires Shape(s)
    ensures Shape(Pump(s, shutting))
    ensures ReadsDriven(s) ==> ReadsDriven(Pump(s, shutting))
    ensures FinishDriven(s) ==> FinishDriven(Pump(s, shutting))
    ensures !shutting ==> PumpedDry(Pump(s, shutting))
  {
    hide Grows, Resumed, Writes;
    if s.writeQueue != [] {
      WritesAppend(s.ops, WriteOp(s.writeQueue[0]));
    } else {
      WritesAppend(s.ops, WritesDoneOp);
    }
  }

  lemma TryFinishInv(s: Stream, shutting: bool)
    requires Shape(s) && (!shutting ==> PumpedDry(s) && ReadsDriven(s))
    ensures StreamInv(TryFinish(s, shutting), shutting)
  {
    hide Grows, Resumed, Writes;
    WritesAppend(s.ops, FinishOp);
  }

  lemma SendInv(s: Stream, bytes: Bytes, shutting: bool)
    requires StreamInv(s, shutting)
    ensures StreamInv(Send(s, bytes, shutting), shutting)
  {
    hide Pump;
    if !SendRefused(s) {
      PumpShape(s.(writeQueue := s.writeQueue + [bytes], accepted := s.accepted + [bytes]), shutting);
    }
  }

  lemma WritesDoneInv(s: Stream, shutting: bool)
    requires StreamInv(s, shutting)
    ensures StreamInv(WritesDone(s, shutting), shutting)
  {
    hide Pump;
    if !s.wdoneRequested {
      PumpShape(s.(wdoneRequested := true), shutting);
    }
  }

  lemma ResumeInv(s: Stream, shutting: bool)
    requires StreamInv(s, shutting) && s.unread >= 1
    ensures StreamInv(Resume(s, shutting), shutting)
  {
    hide PostRead, Grows, Resumed, Writes;
    var t := s.(unread := s.unread - 1);
    if t.unread < t.readCap {
      PostReadShape(t, shutting);
    }
  }

  lemma OnStartInv(s: Stream, ok: bool, shutting: bool)
    requires StreamInv(s, shutting) && TStart in s.out
    ensures StreamInv(OnStart(s, ok, shutting), shutting)
  {
    hide PostRead, Pump, TryFinish;
    var t := Settle(s, TStart);
    if ok {
      var u := t.(started := true);
      PostReadShape(u, shutting);
      var v := PostRead(u, shutting);
      PumpShape(v, shutting);
      TryFinishInv(Pump(v, shutting), shutting);
    } else {
      TryFinishInv(t.(broken := true, started := true, wantFinish := true), shutting);
    }
  }

  lemma OnReadInv(s: Stream, ok: bool, shutting: bool)
    requires StreamInv(s, shutting) && TRead in s.out
    ensures StreamInv(OnRead(s, ok, shutting), shutting)
  {
    hide PostRead, Grows, Resumed, Writes, TryFinish;
    var t := Settle(s, TRead).(readInflight := false);
    if ok && !t.broken {
      var u := t.(unread := t.unread + 1);
      if u.unread < u.readCap {
        PostReadShape(u, shutting);
        TryFinishInv(PostRead(u, shutting), shutting);
      } else {
        TryFinishInv(u, shutting);
      }
    } else {
      TryFinishInv(t.(readsClosed := true, wantFinish := true), shutting);
    }
  }

  lemma OnWriteInv(s: Stream, ok: bool, shutting: bool)
    requires StreamInv(s, shutting) && TWrite in s.out
    ensures StreamInv(OnWrite(s, ok, shutting), shutting)
  {
    hide Pump, TryFinish;
    var t := Settle(s, TWrite).(writeInflight := false);
    if ok && !t.broken {
      var u := Pop(t);
      PumpShape(u, shutting);
      TryFinishInv(Pump(u, shutting), shutting);
    } else {
      TryFinishInv(t.(broken := true, wantFinish := true), shutting);
    }
  }

  lemma OnWDoneInv(s: Stream, ok: bool, shutting: bool)
    requires StreamInv(s, shutting) && TWDone in s.out
    ensures StreamInv(OnWDone(s, ok, shutting), shutting)
  {
    hide TryFinish;
    var t := Settle(s, TWDone).(wdoneInflight := false, wdoneSent := true);
    TryFinishInv(if ok then t else t.(broken := true, wantFinish := true), shutting);
  }

  lemma OnFinishShape(s: Stream)
    requires Shape(s) && TFinish in s.out
    ensures Shape(OnFinish(s)) && OnFinish(s).pending == 0 && OnFinish(s).out == multiset{}
  {
  }

  /** Every completion handler keeps the stream invariant. */
  lemma OnTagInv(s: Stream, k: TagKind, ok: bool, shutting: bool)
    requires StreamInv(s, shutting) && k in s.out
    ensures k == TWrite ==> s.writeQueue != []
    ensures StreamInv(OnTag(s, k, ok, shutting), shutting)
  {
    hide OnStart, OnRead, OnWrite, OnWDone;
    match k
    case TStart => OnStartInv(s, ok, shutting);
    case TRead => OnReadInv(s, ok, shutting);
    case TWrite => OnWriteInv(s, ok, shutting);
    case TWDone => OnWDoneInv(s, ok, shutting);
    case TFinish => OnFinishShape(s);
  }
}
