/** The whole server as a state machine. An `Action` is one critical section under the mutex: an R
    entry point, a completion, or the part of a poll between two releases of the mutex. Call objects
    are named by `oid`, the identity that a tag carries; an id is assigned at accept. */
module ServerModel {
  import opened Common
  import opened Events
  import opened Mailbox
  import opened ServerCall

  datatype Server = Server(
    window: int,                    // accept_window
    maxActive: int,                 // max_active
    live: map<nat, Call>,           // allocated call objects, accept slots included
    active: map<nat, nat>,          // id to object, from accept until freed
    accepts: int,                   // accepts_outstanding
    nextId: nat,
    nextOid: nat,
    closed: bool,
    shutting: bool,
    box: Box<EventKind>,
    freed: map<nat, Call>,          // history: the last state of each freed object
    deleted: multiset<nat>,         // history: every delete
    owner: map<nat, nat>,           // history: id to object, for every id ever assigned
    lag: nat)                       // history: objects freed without a refill since the last refill

  function Blank(window: int, maxActive: int, capacity: nat): Server {
    Server(window, maxActive, map[], map[], 0, 1, 0, false, false, Empty(capacity), map[], multiset{}, map[], 0)
  }

  datatype Action =
    | ReplyTo(id: nat, final: Final)
    | FinishCall(id: nat, code: int, drain: bool)
    | ReadFrom(id: nat)
    | SendTo(id: nat, bytes: Bytes)
    | TagDone(oid: nat, kind: TagKind, ok: bool, arrival: Arrival)
    | PollEnter(want: Option<nat>, max: int, timeout: int, expired: bool)
    | PollReadable(expired: bool)
    | PollOver
    | Shutdown

  // ---- admission ----

  predicate HasRoom(s: Server) {
    !s.shutting && s.accepts < s.window && |s.active| + s.accepts < s.maxActive
  }

  function AddSlot(s: Server): Server {
    s.(live := s.live[s.nextOid := Slot(s.nextOid)], nextOid := s.nextOid + 1, accepts := s.accepts + 1)
  }

  function PostAccepts(s: Server): Server
    decreases s.window - s.accepts
  {
    if HasRoom(s) then PostAccepts(AddSlot(s)) else s
  }

  /** PostAccepts, noting that a refill happened. */
  function Refill(s: Server): Server {
    PostAccepts(s).(lag := 0)
  }

  function Init(window: int, maxActive: int, capacity: nat): Server {
    Refill(Blank(window, maxActive, capacity))
  }

  // ---- completions ----

  function Emit(s: Server, id: nat, ev: Option<EventKind>): Server {
    match ev
    case None => s
    case Some(kind) => s.(box := Push(s.box, Event(id, kind)))
  }

  function MaybeFree(s: Server, oid: nat): Server
    requires oid in s.live
  {
    var c := s.live[oid];
    if c.pending == 0 then
      s.(active := if c.id != 0 then s.active - {c.id} else s.active,
         live := s.live - {oid}, freed := s.freed[oid := c], deleted := s.deleted + multiset{oid})
    else s
  }

  /** Queues the handler's event, stores its record and frees the object if no tag is left. */
  function PutBack(s: Server, oid: nat, c: Call, ev: Option<EventKind>): Server {
    MaybeFree(Emit(s, c.id, ev).(live := s.live[oid := c]), oid)
  }

  function AcceptOk(s: Server, oid: nat): Server
    requires oid in s.live && s.live[oid].id == 0
  {
    s.(live := s.live[oid := OnAccept(s.live[oid], s.nextId, s.shutting)],
       active := s.active[s.nextId := oid], owner := s.owner[s.nextId := oid],
       nextId := s.nextId + 1, accepts := s.accepts - 1)
  }

  function AcceptFailed(s: Server, oid: nat): Server
    requires oid in s.live
  {
    var c := Settle(s.live[oid], TAccept).(acceptBack := true);
    PutBack(s, oid, c, None).(accepts := s.accepts - 1, lag := s.lag + 1)
  }

  /** The tag's object is reached through the tag; that it is still there, that an accept tag belongs
      to a slot and that a completed write still has its buffer, is `TagIsLive`. */
  predicate Dereferenceable(s: Server, oid: nat, k: TagKind) {
    && oid in s.live
    && (k == TWrite ==> s.live[oid].writeQueue != [])
    && (k == TAccept ==> s.live[oid].id == 0)
  }

  /** What follows a handler once its call is back in place, or freed: the done and finish branches
      refill, the read and write branches do not. */
  function AfterHandler(t: Server, oid: nat, k: TagKind): Server {
    if k == TDone || k == TFinish then Refill(t)
    else t.(lag := if oid in t.live then t.lag else t.lag + 1)
  }

  /** Completions after accept. */
  function Handled(s: Server, oid: nat, k: TagKind, ok: bool, a: Arrival): Server
    requires Dereferenceable(s, oid, k) && k != TAccept
  {
    var c := s.live[oid];
    AfterHandler(PutBack(s, oid, OnTag(c, k, ok, s.shutting), EventOf(c, k, ok, a)), oid, k)
  }

  function DoTagDone(s: Server, oid: nat, k: TagKind, ok: bool, a: Arrival): Server {
    if !Dereferenceable(s, oid, k) then s
    else if k == TAccept then (if ok then Refill(AcceptOk(s, oid)) else AcceptFailed(s, oid))
    else Handled(s, oid, k, ok, a)
  }

  // ---- entry points ----

  /** The call an entry point finds in `active`, if any. */
  predicate Found(s: Server, id: nat) {
    id in s.active && s.active[id] in s.live
  }

  function Update(s: Server, id: nat, c: Call): Server
    requires Found(s, id)
  {
    s.(live := s.live[s.active[id] := c])
  }

  /** How many events the call's owner has been sent so far. */
  function Sent(s: Server, id: nat): nat {
    |Of(s.box.pushed, id)|
  }

  function DoReply(s: Server, id: nat, final: Final): Server {
    if !Found(s, id) then s
    else Update(s, id, Reply(s.live[s.active[id]], final, Sent(s, id), s.shutting))
  }

  function DoFinish(s: Server, id: nat, code: int, drain: bool): Server {
    if !Found(s, id) then s
    else Update(s, id, Finish(s.live[s.active[id]], code, drain, Sent(s, id), s.shutting))
  }

  function DoRead(s: Server, id: nat): Server {
    if !Found(s, id) then s else Update(s, id, Read(s.live[s.active[id]]))
  }

  function DoSend(s: Server, id: nat, bytes: Bytes): Server {
    if !Found(s, id) then s else Update(s, id, Send(s.live[s.active[id]], bytes, s.shutting))
  }

  function DoPollEnter(s: Server, want: Option<nat>, max: int, timeout: int, expired: bool): Server {
    if timeout != 0 && !HaveMatch(s.box.ready, want) && !(timeout > 0 && expired) then
      s.(box := Park(s.box, want, max, 0, 0))
    else s.(box := DeliverBox(s.box, want, max))
  }

  function DoPollReadable(s: Server, expired: bool): Server
    requires s.box.poller.Waiting?
  {
    var Waiting(want, max, arrivals, wakeups) := s.box.poller;
    if !HaveMatch(s.box.ready, want) && !expired then
      s.(box := Park(s.box, want, max, arrivals, wakeups + 1))
    else s.(box := DeliverBox(s.box, want, max))
  }

  function DoPollOver(s: Server): Server
    requires s.box.poller.Waiting?
  {
    s.(box := DeliverBox(s.box, s.box.poller.want, s.box.poller.max))
  }

  function DoShutdown(s: Server): Server {
    s.(closed := true, shutting := true)
  }

  // ---- runs ----

  /** The completion queue owes this tag, whether or not the object it points to still exists. */
  predicate Outstanding(s: Server, oid: nat, k: TagKind) {
    || (oid in s.live && k in s.live[oid].out)
    || (oid in s.freed && k in s.freed[oid].out)
  }

  predicate Enabled(s: Server, act: Action) {
    match act
    case TagDone(oid, k, _, _) => Outstanding(s, oid, k)
    case PollReadable(_) => s.box.poller.Waiting? && Readable(s.box)
    case PollOver => s.box.poller.Waiting?
    case _ => s.box.poller.Idle? && !s.closed
  }

  function Apply(s: Server, act: Action): Server
    requires Enabled(s, act)
  {
    match act
    case ReplyTo(id, final) => DoReply(s, id, final)
    case FinishCall(id, code, drain) => DoFinish(s, id, code, drain)
    case ReadFrom(id) => DoRead(s, id)
    case SendTo(id, bytes) => DoSend(s, id, bytes)
    case TagDone(oid, k, ok, a) => DoTagDone(s, oid, k, ok, a)
    case PollEnter(want, max, timeout, expired) => DoPollEnter(s, want, max, timeout, expired)
    case PollReadable(expired) => DoPollReadable(s, expired)
    case PollOver => DoPollOver(s)
    case Shutdown => DoShutdown(s)
  }

  ghost predicate ValidRun(s: Server, acts: seq<Action>)
    decreases |acts|, 0
  {
    acts != [] ==>
      var n := |acts| - 1;
      ValidRun(s, acts[..n]) && Enabled(Exec(s, acts[..n]), acts[n])
  }

  ghost function Exec(s: Server, acts: seq<Action>): Server
    requires ValidRun(s, acts)
    decreases |acts|, 1
  {
    if acts == [] then s
    else
      var n := |acts| - 1;
      Apply(Exec(s, acts[..n]), acts[n])
  }

  lemma ExecSnoc(s: Server, acts: seq<Action>, act: Action)
    requires ValidRun(s, acts) && Enabled(Exec(s, acts), act)
    ensures ValidRun(s, acts + [act]) && Exec(s, acts + [act]) == Apply(Exec(s, acts), act)
  {
    assert (acts + [act])[..|acts|] == acts;
  }

  lemma {:induction false} ExecConcat(s: Server, a: seq<Action>, b: seq<Action>)
    requires ValidRun(s, a) && ValidRun(Exec(s, a), b)
    ensures ValidRun(s, a + b) && Exec(s, a + b) == Exec(Exec(s, a), b)
  {
    hide Apply;
    if b == [] {
      assert a + b == a;
    } else {
      var n := |b| - 1;
      ExecConcat(s, a, b[..n]);
      ExecSnoc(s, a + b[..n], b[n]);
      assert (a + b[..n]) + [b[n]] == a + b;
    }
  }

  // ---- the sections of one poll ----

  /** The critical section that ends every poll. */
  function Deliver(s: Server, want: Option<nat>, max: int): Server {
    s.(box := DeliverBox(s.box, want, max))
  }

  /** The mutex is held by a poll for these arguments: it has just been entered, or its wait has just
      found the handle readable. */
  predicate AtSection(s: Server, want: Option<nat>, max: int) {
    match s.box.poller
    case Idle => !s.closed
    case Waiting(w, m, _, _) => w == want && m == max && Readable(s.box)
  }

  /** The action that this section of the poll is. */
  function Section(s: Server, want: Option<nat>, max: int, timeout: int, expired: bool): Action {
    if s.box.poller.Idle? then PollEnter(want, max, timeout, expired) else PollReadable(expired)
  }

  /** A section that finds a match, was not asked to wait, or is past its deadline ends the poll. */
  lemma SectionDelivers(s: Server, want: Option<nat>, max: int, timeout: int, expired: bool)
    requires AtSection(s, want, max)
    requires HaveMatch(s.box.ready, want) || (timeout > 0 && expired) || (timeout == 0 && s.box.poller.Idle?)
    ensures Enabled(s, Section(s, want, max, timeout, expired))
    ensures Apply(s, Section(s, want, max, timeout, expired)) == Deliver(s, want, max)
  {
    hide HaveMatch, DeliverBox;
  }

  /** A section that finds no match and is not past its deadline parks the poll. */
  lemma SectionParks(s: Server, want: Option<nat>, max: int, timeout: int)
    requires AtSection(s, want, max) && timeout != 0 && !HaveMatch(s.box.ready, want)
    ensures Enabled(s, Section(s, want, max, timeout, false))
    ensures Apply(s, Section(s, want, max, timeout, false))
         == s.(box := s.box.(bytes := 0, poller := NextPark(s.box.poller, want, max)))
  {
    hide HaveMatch, DeliverBox;
  }

  /** The poll that waits in `s` still waits in `t`, and R was handed nothing. */
  predicate StillParked(s: Server, t: Server) {
    && (s.box.poller.Waiting? ==> Parked(t.box.poller, s.box.poller.want, s.box.poller.max))
    && t.box.delivered == s.box.delivered && t.closed == s.closed
  }

  lemma PutBackKeepsPoll(s: Server, oid: nat, c: Call, ev: Option<EventKind>)
    requires oid in s.live
    ensures StillParked(s, PutBack(s, oid, c, ev))
  {
  }

  /** Completions leave a waiting poll waiting, and hand nothing to R. */
  lemma CompletionKeepsPoll(s: Server, act: Action)
    requires Enabled(s, act) && act.TagDone?
    ensures StillParked(s, Apply(s, act))
  {
    hide OnTag, EventOf, OnAccept, PostAccepts, PutBack, Refill;
    var oid := act.oid;
    if Dereferenceable(s, oid, act.kind) {
      var c := s.live[oid];
      if act.kind == TAccept && act.ok {
        RefillFrame(AcceptOk(s, oid));
      } else if act.kind == TAccept {
        PutBackKeepsPoll(s, oid, Settle(c, TAccept).(acceptBack := true), None);
      } else {
        var d, ev := OnTag(c, act.kind, act.ok, s.shutting), EventOf(c, act.kind, act.ok, act.arrival);
        PutBackKeepsPoll(s, oid, d, ev);
        RefillFrame(PutBack(s, oid, d, ev));
      }
    }
  }

  lemma {:induction false} PostAcceptsBox(s: Server)
    ensures PostAccepts(s).box == s.box && PostAccepts(s).closed == s.closed && PostAccepts(s).owner == s.owner
    decreases s.window - s.accepts
  {
    if HasRoom(s) {
      PostAcceptsBox(AddSlot(s));
    }
  }

  lemma RefillFrame(s: Server)
    ensures Refill(s).box == s.box && Refill(s).closed == s.closed && Refill(s).owner == s.owner
  {
    PostAcceptsBox(s);
  }

  lemma OverDelivers(s: Server, want: Option<nat>, max: int)
    requires Parked(s.box.poller, want, max)
    ensures Enabled(s, PollOver) && Apply(s, PollOver) == Deliver(s, want, max)
  {
    hide DeliverBox;
  }

  lemma ParkedAtSection(s: Server, want: Option<nat>, max: int)
    requires Parked(s.box.poller, want, max) && Readable(s.box)
    ensures AtSection(s, want, max)
  {
  }

  lemma DeliverDrains(s: Server, want: Option<nat>, max: int)
    ensures Deliver(s.(box := Drained(s.box)), want, max) == Deliver(s, want, max)
  {
    hide TakeLoop, Rearm;
    assert Drained(Drained(s.box)) == Drained(s.box);
  }

  // ---- whole polls ----

  predicate IsCompletion(act: Action) {
    act.TagDone?
  }

  /** The section that enters this poll. */
  predicate IsEntry(act: Action, want: Option<nat>, max: int, timeout: int) {
    act.PollEnter? && act.want == want && act.max == max && act.timeout == timeout
  }

  /** The section after the wait found the handle readable; only a poll with a deadline can be past it. */
  predicate IsReturn(act: Action, timeout: int) {
    act.PollReadable? && (act.expired ==> timeout > 0)
  }

  /** The run of a poll that still waits: it was entered, and since then there were only completions and
      its own returns. */
  predicate Waited(acts: seq<Action>, want: Option<nat>, max: int, timeout: int) {
    && (acts != [] ==> IsEntry(acts[0], want, max, timeout))
    && forall i :: 1 <= i < |acts| ==> IsCompletion(acts[i]) || IsReturn(acts[i], timeout)
  }

  /** The section that ends a poll after that run. */
  predicate IsLast(acts: seq<Action>, last: Action, want: Option<nat>, max: int, timeout: int) {
    if acts == [] then IsEntry(last, want, max, timeout) else IsReturn(last, timeout) || last.PollOver?
  }

  /** A whole poll: its own sections, with completions only while it waits; a poll with no timeout is one
      section and lets nothing in between. */
  predicate PollRun(acts: seq<Action>, want: Option<nat>, max: int, timeout: int) {
    && acts != []
    && Waited(acts[..|acts| - 1], want, max, timeout)
    && IsLast(acts[..|acts| - 1], acts[|acts| - 1], want, max, timeout)
    && (timeout == 0 ==> |acts| == 1)
  }

  lemma WaitedMore(acts: seq<Action>, more: seq<Action>, want: Option<nat>, max: int, timeout: int)
    requires Waited(acts, want, max, timeout) && more != []
    requires if acts == [] then IsEntry(more[0], want, max, timeout) else IsReturn(more[0], timeout)
    requires forall i :: 1 <= i < |more| ==> IsCompletion(more[i])
    ensures Waited(acts + more, want, max, timeout)
  {
    hide IsCompletion, IsReturn, IsEntry;
    forall i | 1 <= i < |acts + more| ensures IsCompletion((acts + more)[i]) || IsReturn((acts + more)[i], timeout) {
      if i >= |acts| {
        assert (acts + more)[i] == more[i - |acts|];
      }
    }
  }

  lemma SectionIsOwn(s: Server, want: Option<nat>, max: int, timeout: int, expired: bool)
    requires expired ==> timeout > 0
    ensures var act := Section(s, want, max, timeout, expired);
      if s.box.poller.Idle? then IsEntry(act, want, max, timeout) else IsReturn(act, timeout)
  {
  }

  /** The run ends with the section that takes the batch, and the batch is the first matching events that
      were queued at that moment, none having been handed over since the poll began. */
  ghost predicate PollGives(s: Server, acts: seq<Action>, want: Option<nat>, max: int, batch: seq<Event<EventKind>>) {
    && acts != [] && ValidRun(s, acts)
    && var before := Exec(s, acts[..|acts| - 1]);
       && Exec(s, acts) == Deliver(before, want, max)
       && before.box.delivered == s.box.delivered
       && batch == FirstMatching(before.box.ready, want, max)
       && Exec(s, acts).box.delivered == s.box.delivered + batch
       && Exec(s, acts).box.ready == RemoveFirst(before.box.ready, want, max)
  }

  lemma PutBackPushes(s: Server, oid: nat, c: Call, ev: Option<EventKind>)
    requires oid in s.live
    ensures AtMostOnePush(s.box, PutBack(s, oid, c, ev).box)
  {
  }

  /** A completion queues at most one event. */
  lemma CompletionPushes(s: Server, act: Action)
    requires Enabled(s, act) && IsCompletion(act)
    ensures AtMostOnePush(s.box, Apply(s, act).box)
  {
    hide OnTag, EventOf, OnAccept, PostAccepts, PutBack, Refill;
    var oid := act.oid;
    if Dereferenceable(s, oid, act.kind) {
      var c := s.live[oid];
      if act.kind == TAccept && act.ok {
        RefillFrame(AcceptOk(s, oid));
      } else if act.kind == TAccept {
        PutBackPushes(s, oid, Settle(c, TAccept).(acceptBack := true), None);
      } else {
        var d, ev := OnTag(c, act.kind, act.ok, s.shutting), EventOf(c, act.kind, act.ok, act.arrival);
        PutBackPushes(s, oid, d, ev);
        RefillFrame(PutBack(s, oid, d, ev));
      }
    }
  }
}
