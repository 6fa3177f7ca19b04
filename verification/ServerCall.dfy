/** One server call: the flags of `sv_call`, the ops its helpers post, and the invariant that every
    helper, completion handler and entry point keeps. An accept slot is a call whose `id` is still 0. */
module ServerCall {
  import opened Common
  import opened Events

  /** The completion-queue tags of one call object. */
  datatype TagKind = TAccept | TRead | TWrite | TDone | TFinish

  /** The terminal op: WriteAndFinish when there is a last message, Finish when there is none. */
  datatype Final = Final(write: Option<Bytes>, code: int)

  datatype Op = ReadOp | WriteOp(payload: Bytes) | TerminalOp(final: Final)

  datatype EventKind = Request(payload: Bytes) | Cancelled | Msg(payload: Bytes) | ClientDone | Writable

  const WRITE_CAP: nat := 16

  datatype Call = Call(
    oid: nat,                   // which object this is
    id: nat,
    pending: int,
    delivered: bool,
    replied: bool,
    dead: bool,
    readInflight: bool,
    writeInflight: bool,
    finishPosted: bool,
    writeQueue: seq<Bytes>,
    final: Final,
    out: multiset<TagKind>,     // this object's tags that the completion queue still owes
    acceptBack: bool,           // history: the accept tag has come back
    doneBack: bool,             // history: the done tag has come back
    finishBack: bool,           // history: the terminal's tag has come back
    aborted: bool,              // history: the terminal was accepted with drain = FALSE
    ops: seq<Op>,               // history: ops posted, in order
    accepted: seq<Bytes>,       // history: sends that returned TRUE
    completed: seq<Bytes>,      // history: writes whose completion was good
    readsAccepted: nat,         // history: reads that returned TRUE
    readResults: nat,           // history: stream_msg and client_done events queued
    repliedAt: nat)             // history: events queued for the call when its terminal was accepted

  /** The terminal fields before any terminal was requested. */
  const NO_FINAL := Final(None, 0)

  function Owe(c: Call, k: TagKind): Call {
    c.(pending := c.pending + 1, out := c.out + multiset{k})
  }

  function Post(c: Call, k: TagKind, op: Op): Call {
    c.(pending := c.pending + 1, out := c.out + multiset{k}, ops := c.ops + [op])
  }

  function Settle(c: Call, k: TagKind): Call {
    c.(pending := c.pending - 1, out := c.out - multiset{k})
  }

  /** A fresh accept slot: RequestCall is outstanding, and the done tag is not live yet. */
  function Slot(oid: nat): (r: Call)
    ensures r.oid == oid && r.id == 0 && r.pending == 1
  {
    Call(oid, 0, 1, false, false, false, false, false, false, [], NO_FINAL, multiset{TAccept},
         false, false, false, false, [], [], [], 0, 0, 0)
  }

  /** How a call's record may change: its logs grow; after the terminal nothing is posted; after an
      abortive finish no write is. */
  predicate Grows(c: Call, d: Call) {
    && d.oid == c.oid && (c.id != 0 ==> d.id == c.id)
    && c.ops <= d.ops && c.accepted <= d.accepted && c.completed <= d.completed
    && (c.finishPosted ==> d.finishPosted && d.ops == c.ops)
    && (c.replied ==> d.replied && d.accepted == c.accepted && d.final == c.final && d.repliedAt == c.repliedAt)
    && (c.aborted ==> d.aborted)
    && (c.dead ==> d.dead)
    && (c.doneBack ==> d.doneBack)
  }

  lemma GrowsTransitive(c: Call, d: Call, e: Call)
    requires Grows(c, d) && Grows(d, e)
    ensures Grows(c, e)
  {
  }

  /** The same object of the same call, with no tag paid off. */
  predicate SameObject(c: Call, d: Call) {
    d.oid == c.oid && d.id == c.id && d.pending >= c.pending
  }

  /** The flags that decide what a call's owner is told. */
  predicate SameTold(c: Call, d: Call) {
    d.delivered == c.delivered && d.replied == c.replied && d.doneBack == c.doneBack
    && d.readResults == c.readResults
  }

  // ---- the pump ----

  /** Posts the write of the front of the queue. */
  function PostWrite(c: Call): (r: Call)
    requires c.writeQueue != [] && !c.finishPosted
    ensures Grows(c, r) && SameObject(c, r) && SameTold(c, r)
  {
    Post(c.(writeInflight := true), TWrite, WriteOp(c.writeQueue[0]))
  }

  /** Posts WriteAndFinish or Finish. */
  function PostTerminal(c: Call): (r: Call)
    requires !c.finishPosted
    ensures Grows(c, r) && SameObject(c, r) && SameTold(c, r)
  {
    Post(c.(finishPosted := true), TFinish, TerminalOp(c.final))
  }

  /** One write at a time; when the queue is empty and a terminal was requested, post it. */
  function Pump(c: Call, shutting: bool): (r: Call)
    ensures Grows(c, r) && SameObject(c, r) && SameTold(c, r)
    ensures shutting ==> r == c
  {
    if shutting || c.dead || c.finishPosted then c
    else if c.writeInflight then c
    else if c.writeQueue != [] then PostWrite(c)
    else if c.replied then PostTerminal(c)
    else c
  }

  // ---- completion handlers ----

  /** What a completion carries besides its tag: the bytes read, if they could be copied. */
  datatype Arrival = Arrival(bytes: Option<Bytes>)

  /** A failed copy leaves the event's request string empty. */
  function Payload(a: Arrival): Bytes {
    if a.bytes.Some? then a.bytes.value else []
  }

  /** RequestCall matched an RPC: the call gets its id, the done tag becomes live, and the first read
      is posted unless the server is shutting down. */
  function OnAccept(c: Call, id: nat, shutting: bool): (r: Call)
    requires c.id == 0
    ensures !c.finishPosted ==> Grows(c, r)
    ensures r.id == id && r.readResults == c.readResults && r.pending >= c.pending
    ensures shutting ==> r.out == c.out - multiset{TAccept} + multiset{TDone} && r.ops == c.ops
  {
    var d := Owe(Settle(c, TAccept).(acceptBack := true, id := id), TDone);
    if shutting then d.(dead := true) else Post(d.(readInflight := true), TRead, ReadOp)
  }

  /** A good read of a live call delivers it; on a call already delivered every read yields a result,
      good or not; a read that fails before delivery kills the call. */
  function OnRead(c: Call, ok: bool): (r: Call)
    ensures Grows(c, r) && r.id == c.id && r.out == c.out - multiset{TRead} && r.ops == c.ops
  {
    var d := Settle(c, TRead).(readInflight := false);
    d.(delivered := c.delivered || (ok && !c.dead),
       dead := c.dead || (!ok && !c.delivered),
       readResults := c.readResults + B(c.delivered && !c.dead))
  }

  function OnWrite(c: Call, ok: bool, shutting: bool): (r: Call)
    requires c.writeQueue != []
    ensures Grows(c, r) && r.id == c.id && SameTold(c, r)
    ensures shutting ==> r.out == c.out - multiset{TWrite} && r.ops == c.ops
  {
    var d := Settle(c, TWrite).(writeInflight := false);
    if ok && !d.dead then
      Pump(d.(writeQueue := d.writeQueue[1..], completed := d.completed + [d.writeQueue[0]]), shutting)
    else d.(dead := true)
  }

  function OnDone(c: Call): (r: Call)
    ensures Grows(c, r) && r.id == c.id && r.out == c.out - multiset{TDone} && r.ops == c.ops
    ensures r.readResults == c.readResults
  {
    var d := Settle(c, TDone).(doneBack := true);
    if d.delivered && !d.replied then d.(dead := true) else d
  }

  function OnFinish(c: Call): (r: Call)
    ensures Grows(c, r) && r.id == c.id && r.out == c.out - multiset{TFinish} && r.ops == c.ops
    ensures r.readResults == c.readResults
  {
    Settle(c, TFinish).(finishBack := true)
  }

  /** Every handler but accept's. */
  function OnTag(c: Call, k: TagKind, ok: bool, shutting: bool): (r: Call)
    requires k != TAccept && (k == TWrite ==> c.writeQueue != [])
    ensures Grows(c, r) && r.id == c.id && r.oid == c.oid
    ensures shutting ==> r.out == c.out - multiset{k} && r.ops == c.ops
  {
    match k
    case TRead => OnRead(c, ok)
    case TWrite => OnWrite(c, ok, shutting)
    case TDone => OnDone(c)
    case TFinish => OnFinish(c)
  }

  /** The event a completion queues, if any. */
  function EventOf(c: Call, k: TagKind, ok: bool, a: Arrival): Option<EventKind> {
    match k
    case TRead =>
      if ok && !c.dead then Some(if !c.delivered then Request(Payload(a)) else Msg(Payload(a)))
      else if c.delivered && !c.dead then Some(ClientDone)
      else None
    case TWrite => if ok && !c.dead && |c.writeQueue| == 1 && !c.replied then Some(Writable) else None
    case TDone => if c.delivered && !c.replied then Some(Cancelled) else None
    case _ => None
  }

  // ---- entry points ----

  predicate TerminalRefused(c: Call) {
    !c.delivered || c.replied || c.dead
  }

  /** `at` is the number of events queued for the call so far. */
  function Reply(c: Call, final: Final, at: nat, shutting: bool): (r: Call)
    ensures Grows(c, r) && SameObject(c, r) && r.readResults == c.readResults
  {
    if TerminalRefused(c) then c
    else Pump(c.(replied := true, repliedAt := at, final := final), shutting)
  }

  /** What an abortive finish keeps of the queue: a write already posted cannot be recalled. */
  function Kept(c: Call): seq<Bytes> {
    if c.writeInflight && c.writeQueue != [] then c.writeQueue[..1] else []
  }

  function Aborted(c: Call): Call {
    c.(writeQueue := Kept(c), aborted := true)
  }

  /** The call with its terminal accepted, before the pump. */
  function Ending(c: Call, code: int, drain: bool, at: nat): Call {
    var d := c.(replied := true, repliedAt := at, final := Final(None, code));
    if drain then d else Aborted(d)
  }

  function Finish(c: Call, code: int, drain: bool, at: nat, shutting: bool): (r: Call)
    ensures Grows(c, r) && SameObject(c, r) && r.readResults == c.readResults
  {
    if TerminalRefused(c) then c else Pump(Ending(c, code, drain, at), shutting)
  }

  predicate ReadRefused(c: Call) {
    !c.delivered || c.dead || c.readInflight || c.finishPosted
  }

  function Read(c: Call): (r: Call)
    ensures Grows(c, r) && SameObject(c, r) && r.readResults == c.readResults
  {
    if ReadRefused(c) then c
    else Post(c.(readInflight := true, readsAccepted := c.readsAccepted + 1), TRead, ReadOp)
  }

  predicate SendRefused(c: Call) {
    !c.delivered || c.dead || c.replied || |c.writeQueue| >= WRITE_CAP
  }

  function Send(c: Call, bytes: Bytes, shutting: bool): (r: Call)
    ensures Grows(c, r) && SameObject(c, r) && r.readResults == c.readResults
  {
    if SendRefused(c) then c
    else Pump(c.(writeQueue := c.writeQueue + [bytes], accepted := c.accepted + [bytes]), shutting)
  }

  // ---- invariant ----

  /** The payloads of the Write ops, in posting order. */
  function Writes(ops: seq<Op>): seq<Bytes> {
    if ops == [] then []
    else
      var n := |ops| - 1;
      Writes(ops[..n]) + (if ops[n].WriteOp? then [ops[n].payload] else [])
  }

  lemma WritesAppend(ops: seq<Op>, op: Op)
    ensures Writes(ops + [op]) == Writes(ops) + (if op.WriteOp? then [op.payload] else [])
  {
    assert (ops + [op])[..|ops|] == ops;
  }

  /** `pending` is exact, tag by tag; the done tag counts only from the accept on. */
  predicate TagsExact(c: Call) {
    && c.out[TAccept] == B(!c.acceptBack)
    && c.out[TRead] == B(c.readInflight)
    && c.out[TWrite] == B(c.writeInflight)
    && c.out[TDone] == B(c.id != 0 && !c.doneBack)
    && c.out[TFinish] == B(c.finishPosted && !c.finishBack)
    && c.pending == |c.out|
    && c.pending == B(!c.acceptBack) + B(c.readInflight) + B(c.writeInflight)
                  + B(c.id != 0 && !c.doneBack) + B(c.finishPosted && !c.finishBack)
  }

  predicate FlagsOk(c: Call) {
    && (c.id != 0 ==> c.acceptBack)
    && (c.id == 0 ==> !c.readInflight && !c.delivered && !c.dead && !c.doneBack && c.ops == [])
    && (!c.delivered ==> !c.replied && !c.writeInflight && c.accepted == [] && c.readsAccepted == 0)
    && (!c.replied ==> !c.finishPosted && !c.aborted)
    && (c.finishPosted ==> !c.writeInflight && c.writeQueue == [] && !c.dead)
    && (c.finishBack ==> c.finishPosted)
    && (c.writeInflight ==> c.writeQueue != [])
    && (c.aborted ==> |c.writeQueue| <= 1 && (c.writeQueue != [] ==> c.writeInflight || c.dead))
  }

  /** Posted writes are a prefix of accepted sends, and nothing but an abortive finish drops any. */
  predicate WritesOk(c: Call) {
    && c.completed + c.writeQueue <= c.accepted
    && (!c.aborted ==> c.accepted == c.completed + c.writeQueue)
    && |c.writeQueue| <= WRITE_CAP
    && (c.writeInflight ==> c.writeQueue != [] && Writes(c.ops) == c.completed + [c.writeQueue[0]])
    && (!c.writeInflight && !c.dead ==> Writes(c.ops) == c.completed)
    && (Writes(c.ops) == c.completed
        || (c.writeQueue != [] && Writes(c.ops) == c.completed + [c.writeQueue[0]]))
  }

  /** Each accepted read yields exactly one result. */
  predicate ReadsOk(c: Call) {
    && c.readResults <= c.readsAccepted
    && (c.delivered && !c.dead ==> c.readsAccepted == c.readResults + B(c.readInflight))
  }

  /** The terminal, if posted, is the one requested, and it is the last op. */
  predicate OpsOk(c: Call) {
    && (forall i :: 0 <= i < |c.ops| - 1 ==> !c.ops[i].TerminalOp?)
    && (c.finishPosted <==> c.ops != [] && c.ops[|c.ops| - 1].TerminalOp?)
    && (c.finishPosted ==> c.ops[|c.ops| - 1] == TerminalOp(c.final))
  }

  predicate Shape(c: Call) {
    TagsExact(c) && FlagsOk(c) && WritesOk(c) && ReadsOk(c) && OpsOk(c)
  }

  /** Outside shutdown, no accepted write or terminal is forgotten. */
  predicate Driven(c: Call) {
    && (!c.dead && !c.finishPosted && c.writeQueue != [] ==> c.writeInflight)
    && (c.replied && !c.dead ==> c.finishPosted || c.writeInflight)
  }

  predicate CallInv(c: Call, shutting: bool) {
    Shape(c) && (!shutting ==> Driven(c))
  }

  // ---- every helper, handler and entry point keeps it ----

  lemma SlotInv(oid: nat)
    ensures CallInv(Slot(oid), false)
  {
  }

  lemma PumpInv(c: Call, shutting: bool)
    requires Shape(c)
    ensures CallInv(Pump(c, shutting), shutting)
  {
    hide Grows, Writes;
    if c.writeQueue != [] {
      WritesAppend(c.ops, WriteOp(c.writeQueue[0]));
    } else {
      WritesAppend(c.ops, TerminalOp(c.final));
    }
  }

  lemma OnAcceptInv(c: Call, id: nat, shutting: bool)
    requires CallInv(c, shutting) && TAccept in c.out && id != 0
    ensures CallInv(OnAccept(c, id, shutting), shutting)
  {
    hide Grows, Writes;
    WritesAppend(c.ops, ReadOp);
  }

  lemma OnReadInv(c: Call, ok: bool, shutting: bool)
    requires CallInv(c, shutting) && TRead in c.out
    ensures CallInv(OnRead(c, ok), shutting)
  {
    hide Grows, Writes;
    OnReadWrites(c, ok, shutting);
    hide WritesOk, OpsOk, Driven;
  }

  lemma OnReadWrites(c: Call, ok: bool, shutting: bool)
    requires CallInv(c, shutting) && TRead in c.out
    ensures WritesOk(OnRead(c, ok)) && OpsOk(OnRead(c, ok)) && (!shutting ==> Driven(OnRead(c, ok)))
  {
    hide Grows, Writes, TagsExact;
  }

  lemma OnWriteInv(c: Call, ok: bool, shutting: bool)
    requires CallInv(c, shutting) && TWrite in c.out
    ensures CallInv(OnWrite(c, ok, shutting), shutting)
  {
    hide Grows, Writes, Pump;
    var d := Settle(c, TWrite).(writeInflight := false);
    if ok && !d.dead {
      PumpInv(d.(writeQueue := d.writeQueue[1..], completed := d.completed + [d.writeQueue[0]]), shutting);
    }
  }

  lemma OnDoneInv(c: Call, shutting: bool)
    requires CallInv(c, shutting) && TDone in c.out
    ensures CallInv(OnDone(c), shutting)
  {
    hide Grows, Writes;
  }

  lemma OnFinishInv(c: Call, shutting: bool)
    requires CallInv(c, shutting) && TFinish in c.out
    ensures CallInv(OnFinish(c), shutting)
  {
    hide Grows, Writes;
  }

  /** Every completion handler keeps the call invariant. */
  lemma OnTagInv(c: Call, k: TagKind, ok: bool, shutting: bool)
    requires CallInv(c, shutting) && k in c.out && k != TAccept
    ensures k == TWrite ==> c.writeQueue != []
    ensures CallInv(OnTag(c, k, ok, shutting), shutting)
  {
    hide OnRead, OnWrite, OnDone, OnFinish, Grows;
    match k
    case TRead => OnReadInv(c, ok, shutting);
    case TWrite => OnWriteInv(c, ok, shutting);
    case TDone => OnDoneInv(c, shutting);
    case TFinish => OnFinishInv(c, shutting);
  }

  lemma ReplyInv(c: Call, final: Final, at: nat, shutting: bool)
    requires CallInv(c, shutting)
    ensures CallInv(Reply(c, final, at, shutting), shutting)
  {
    hide Grows, Writes, Pump;
    if !TerminalRefused(c) {
      PumpInv(c.(replied := true, repliedAt := at, final := final), shutting);
    }
  }

  lemma FinishInv(c: Call, code: int, drain: bool, at: nat, shutting: bool)
    requires CallInv(c, shutting)
    ensures CallInv(Finish(c, code, drain, at, shutting), shutting)
  {
    hide Grows, Writes, Pump;
    if !TerminalRefused(c) {
      PumpInv(Ending(c, code, drain, at), shutting);
    }
  }

  lemma ReadInv(c: Call, shutting: bool)
    requires CallInv(c, shutting)
    ensures CallInv(Read(c), shutting)
  {
    hide Grows, Writes;
    WritesAppend(c.ops, ReadOp);
  }

  lemma SendInv(c: Call, bytes: Bytes, shutting: bool)
    requires CallInv(c, shutting)
    ensures CallInv(Send(c, bytes, shutting), shutting)
  {
    hide Grows, Writes, Pump;
    if !SendRefused(c) {
      PumpInv(c.(writeQueue := c.writeQueue + [bytes], accepted := c.accepted + [bytes]), shutting);
    }
  }
}
