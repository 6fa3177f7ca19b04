/** The whole client as a state machine. An `Action` is one critical section under the mutex: an R
    entry point, a completion, or the part of a poll between two releases of the mutex. The choices
    of the environment (which tag completes, whether it is ok, what it carries, when a wait ends)
    are the arguments of the action. */
module ClientModel {
  import opened Common
  import opened Events
  import opened Mailbox
  import opened ClientStream

  datatype Client = Client(
    calls: set<nat>,                // unary calls, until completed
    unaryTags: multiset<nat>,       // unary tags that the completion queue still owes
    streams: map<nat, Stream>,      // until freed
    box: Box<EventKind>,
    nextId: nat,
    closed: bool,
    shutting: bool,
    freed: map<nat, Stream>,        // history: the last state of each freed stream object
    deleted: multiset<nat>,         // history: every delete of a call or stream object
    unaryIds: set<nat>)             // history: ids handed out to unary calls

  function Init(capacity: nat): Client {
    Client({}, multiset{}, map[], Empty(capacity), 1, false, false, map[], multiset{}, {})
  }

  datatype Action =
    | CallStart
    | StreamStart(readCap: int, writeCap: int)
    | SendMsg(id: nat, bytes: Bytes)
    | HalfClose(id: nat)
    | UnaryDone(id: nat, arrival: Arrival)
    | TagDone(id: nat, kind: TagKind, ok: bool, arrival: Arrival)
    | PollEnter(want: Option<nat>, max: int, timeout: int, expired: bool)
    | PollReadable(expired: bool)
    | PollOver
    | Shutdown

  // ---- critical sections ----

  function DoCallStart(c: Client): Client {
    c.(calls := c.calls + {c.nextId}, unaryTags := c.unaryTags + multiset{c.nextId},
       unaryIds := c.unaryIds + {c.nextId}, nextId := c.nextId + 1)
  }

  function DoStreamStart(c: Client, readCap: int, writeCap: int): Client {
    c.(streams := c.streams[c.nextId := Opened(c.nextId, readCap, writeCap)], nextId := c.nextId + 1)
  }

  function DoSend(c: Client, id: nat, bytes: Bytes): Client {
    if id !in c.streams then c
    else c.(streams := c.streams[id := Send(c.streams[id], bytes, c.shutting)])
  }

  /** What a half-close answers. */
  predicate AcceptsHalfClose(c: Client, id: nat) {
    id in c.streams && !c.streams[id].wdoneRequested
  }

  function DoHalfClose(c: Client, id: nat): Client {
    if id !in c.streams then c
    else c.(streams := c.streams[id := WritesDone(c.streams[id], c.shutting)])
  }

  function UnaryEvent(a: Arrival): EventKind {
    Unary(a.code, if a.code == 0 then a.bytes else None)
  }

  function DoUnaryDone(c: Client, id: nat, a: Arrival): Client {
    c.(unaryTags := c.unaryTags - multiset{id}, box := Push(c.box, Event(id, UnaryEvent(a))),
       calls := c.calls - {id}, deleted := c.deleted + multiset{id})
  }

  function Emit(c: Client, id: nat, ev: Option<EventKind>): Client {
    match ev
    case None => c
    case Some(kind) => c.(box := Push(c.box, Event(id, kind)))
  }

  function MaybeFree(c: Client, id: nat): Client
    requires id in c.streams
  {
    var s := c.streams[id];
    if s.pending == 0 && s.statusEmitted then
      c.(streams := c.streams - {id}, freed := c.freed[id := s], deleted := c.deleted + multiset{id})
    else c
  }

  /** Queues the handler's event, stores its record and frees the object if it is finished. */
  function PutBack(c: Client, id: nat, s: Stream, ev: Option<EventKind>): Client {
    MaybeFree(Emit(c, id, ev).(streams := c.streams[id := s]), id)
  }

  /** The tag's object is reached through the tag; that it is still there, and that a completed
      write still has its buffer, is `TagsAreLive`. */
  predicate Dereferenceable(c: Client, id: nat, k: TagKind) {
    id in c.streams && (k == TWrite ==> c.streams[id].writeQueue != [])
  }

  function DoTagDone(c: Client, id: nat, k: TagKind, ok: bool, a: Arrival): Client {
    if !Dereferenceable(c, id, k) then c
    else
      var s := c.streams[id];
      PutBack(c, id, OnTag(s, k, ok, c.shutting), EventOf(s, k, ok, a))
  }

  /** The effect on its stream of delivering one event. */
  function Delivered(c: Client, e: Event<EventKind>): Client {
    if e.kind.Msg? && e.id in c.streams then
      c.(streams := c.streams[e.id := Resume(c.streams[e.id], c.shutting)])
    else c
  }

  function DeliverAt(c: Client, pos: nat): Client
    requires pos < |c.box.ready|
  {
    Delivered(c.(box := TakeAt(c.box, pos)), c.box.ready[pos])
  }

  function DeliverLoop(c: Client, pos: nat, n: int, want: Option<nat>): Client
    requires pos <= |c.box.ready|
    decreases |c.box.ready| - pos
  {
    if pos == |c.box.ready| || n <= 0 then c
    else if !Matches(want, c.box.ready[pos]) then DeliverLoop(c, pos + 1, n, want)
    else DeliverLoop(DeliverAt(c, pos), pos, n - 1, want)
  }

  /** The critical section that ends every poll: drain, take the batch, re-arm. */
  function Deliver(c: Client, want: Option<nat>, max: int): Client {
    var c1 := DeliverLoop(c.(box := Drained(c.box)), 0, max, want);
    c1.(box := Rearm(c1.box))
  }

  function DoPollEnter(c: Client, want: Option<nat>, max: int, timeout: int, expired: bool): Client {
    if timeout != 0 && !HaveMatch(c.box.ready, want) && !(timeout > 0 && expired) then
      c.(box := Park(c.box, want, max, 0, 0))
    else Deliver(c, want, max)
  }

  function DoPollReadable(c: Client, expired: bool): Client
    requires c.box.poller.Waiting?
  {
    var Waiting(want, max, arrivals, wakeups) := c.box.poller;
    if !HaveMatch(c.box.ready, want) && !expired then
      c.(box := Park(c.box, want, max, arrivals, wakeups + 1))
    else Deliver(c, want, max)
  }

  function DoPollOver(c: Client): Client
    requires c.box.poller.Waiting?
  {
    Deliver(c, c.box.poller.want, c.box.poller.max)
  }

  function DoShutdown(c: Client): Client {
    c.(closed := true, shutting := true)
  }

  // ---- runs ----

  /** The completion queue owes this tag, whether or not the object it points to still exists. */
  predicate Outstanding(c: Client, id: nat, k: TagKind) {
    || (id in c.streams && k in c.streams[id].out)
    || (id in c.freed && k in c.freed[id].out)
  }

  /** R runs entry points one at a time and none on a closed client; every tag that was posted and
      has not come back may come back next. */
  predicate Enabled(c: Client, act: Action) {
    match act
    case UnaryDone(id, _) => id in c.unaryTags
    case TagDone(id, k, _, _) => Outstanding(c, id, k)
    case PollReadable(_) => c.box.poller.Waiting? && Readable(c.box)
    case PollOver => c.box.poller.Waiting?
    case _ => c.box.poller.Idle? && !c.closed
  }

  function Apply(c: Client, act: Action): Client
    requires Enabled(c, act)
  {
    match act
    case CallStart => DoCallStart(c)
    case StreamStart(rc, wc) => DoStreamStart(c, rc, wc)
    case SendMsg(id, bytes) => DoSend(c, id, bytes)
    case HalfClose(id) => DoHalfClose(c, id)
    case UnaryDone(id, a) => DoUnaryDone(c, id, a)
    case TagDone(id, k, ok, a) => DoTagDone(c, id, k, ok, a)
    case PollEnter(want, max, timeout, expired) => DoPollEnter(c, want, max, timeout, expired)
    case PollReadable(expired) => DoPollReadable(c, expired)
    case PollOver => DoPollOver(c)
    case Shutdown => DoShutdown(c)
  }

  ghost predicate ValidRun(c: Client, acts: seq<Action>)
    decreases |acts|, 0
  {
    acts != [] ==>
      var n := |acts| - 1;
      ValidRun(c, acts[..n]) && Enabled(Exec(c, acts[..n]), acts[n])
  }

  ghost function Exec(c: Client, acts: seq<Action>): Client
    requires ValidRun(c, acts)
    decreases |acts|, 1
  {
    if acts == [] then c
    else
      var n := |acts| - 1;
      Apply(Exec(c, acts[..n]), acts[n])
  }

  lemma ExecSnoc(c: Client, acts: seq<Action>, act: Action)
    requires ValidRun(c, acts) && Enabled(Exec(c, acts), act)
    ensures ValidRun(c, acts + [act]) && Exec(c, acts + [act]) == Apply(Exec(c, acts), act)
  {
    assert (acts + [act])[..|acts|] == acts;
  }

  lemma {:induction false} ExecConcat(c: Client, a: seq<Action>, b: seq<Action>)
    requires ValidRun(c, a) && ValidRun(Exec(c, a), b)
    ensures ValidRun(c, a + b) && Exec(c, a + b) == Exec(Exec(c, a), b)
  {
    hide Apply;
    if b == [] {
      assert a + b == a;
    } else {
      var n := |b| - 1;
      ExecConcat(c, a, b[..n]);
      ExecSnoc(c, a + b[..n], b[n]);
      assert (a + b[..n]) + [b[n]] == a + b;
    }
  }

  // ---- the sections of one poll ----

  /** The mutex is held by a poll for these arguments: it has just been entered, or its wait has just
      found the handle readable. */
  predicate AtSection(c: Client, want: Option<nat>, max: int) {
    match c.box.poller
    case Idle => !c.closed
    case Waiting(w, m, _, _) => w == want && m == max && Readable(c.box)
  }

  /** The action that this section of the poll is. */
  function Section(c: Client, want: Option<nat>, max: int, timeout: int, expired: bool): Action {
    if c.box.poller.Idle? then PollEnter(want, max, timeout, expired) else PollReadable(expired)
  }

  /** A section that finds a match, was not asked to wait, or is past its deadline ends the poll. */
  lemma SectionDelivers(c: Client, want: Option<nat>, max: int, timeout: int, expired: bool)
    requires AtSection(c, want, max)
    requires HaveMatch(c.box.ready, want) || (timeout > 0 && expired) || (timeout == 0 && c.box.poller.Idle?)
    ensures Enabled(c, Section(c, want, max, timeout, expired))
    ensures Apply(c, Section(c, want, max, timeout, expired)) == Deliver(c, want, max)
  {
    hide HaveMatch, Deliver;
  }

  /** A section that finds no match and is not past its deadline parks the poll. */
  lemma SectionParks(c: Client, want: Option<nat>, max: int, timeout: int)
    requires AtSection(c, want, max) && timeout != 0 && !HaveMatch(c.box.ready, want)
    ensures Enabled(c, Section(c, want, max, timeout, false))
    ensures Apply(c, Section(c, want, max, timeout, false))
         == c.(box := c.box.(bytes := 0, poller := NextPark(c.box.poller, want, max)))
  {
    hide HaveMatch, Deliver;
  }

  /** Completions leave a waiting poll waiting, and hand nothing to R. */
  lemma CompletionKeepsPoll(c: Client, act: Action, want: Option<nat>, max: int)
    requires Enabled(c, act) && (act.UnaryDone? || act.TagDone?) && Parked(c.box.poller, want, max)
    ensures Parked(Apply(c, act).box.poller, want, max)
    ensures Apply(c, act).box.delivered == c.box.delivered && Apply(c, act).closed == c.closed
  {
    hide OnTag, EventOf;
  }

  lemma OverDelivers(c: Client, want: Option<nat>, max: int)
    requires Parked(c.box.poller, want, max)
    ensures Enabled(c, PollOver) && Apply(c, PollOver) == Deliver(c, want, max)
  {
    hide Deliver;
  }

  lemma ParkedAtSection(c: Client, want: Option<nat>, max: int)
    requires Parked(c.box.poller, want, max) && Readable(c.box)
    ensures AtSection(c, want, max)
  {
  }

  lemma DeliverDrains(c: Client, want: Option<nat>, max: int)
    ensures Deliver(c.(box := Drained(c.box)), want, max) == Deliver(c, want, max)
  {
    hide DeliverLoop, Rearm;
    assert c.(box := Drained(c.box)).(box := Drained(Drained(c.box))) == c.(box := Drained(c.box));
  }

  // ---- whole polls ----

  predicate IsCompletion(act: Action) {
    act.UnaryDone? || act.TagDone?
  }

  /** The section that enters this poll. */
  predicate IsEntry(act: Action, want: Option<nat>, max: int, timeout: int) {
    act.PollEnter? && act.want == want && act.max == max && act.timeout == timeout
  }

  /** The section after the wait found the handle readable; only a poll with a deadline can be past it. */
  predicate IsReturn(act: Action, timeout: int) {
    act.PollReadable? && (act.expired ==> timeout > 0)
  }

  /** The run of a poll that still waits: it was entered, and since then there were only completions and
      its own returns. */
  predicate Waited(acts: seq<Action>, want: Option<nat>, max: int, timeout: int) {
    && (acts != [] ==> IsEntry(acts[0], want, max, timeout))
    && forall i :: 1 <= i < |acts| ==> IsCompletion(acts[i]) || IsReturn(acts[i], timeout)
  }

  /** The section that ends a poll after that run. */
  predicate IsLast(acts: seq<Action>, last: Action, want: Option<nat>, max: int, timeout: int) {
    if acts == [] then IsEntry(last, want, max, timeout) else IsReturn(last, timeout) || last.PollOver?
  }

  /** A whole poll: its own sections, with completions only while it waits; a poll with no timeout is one
      section and lets nothing in between. */
  predicate PollRun(acts: seq<Action>, want: Option<nat>, max: int, timeout: int) {
    && acts != []
    && Waited(acts[..|acts| - 1], want, max, timeout)
    && IsLast(acts[..|acts| - 1], acts[|acts| - 1], want, max, timeout)
    && (timeout == 0 ==> |acts| == 1)
  }

  lemma WaitedMore(acts: seq<Action>, more: seq<Action>, want: Option<nat>, max: int, timeout: int)
    requires Waited(acts, want, max, timeout) && more != []
    requires if acts == [] then IsEntry(more[0], want, max, timeout) else IsReturn(more[0], timeout)
    requires forall i :: 1 <= i < |more| ==> IsCompletion(more[i])
    ensures Waited(acts + more, want, max, timeout)
  {
    hide IsCompletion, IsReturn, IsEntry;
    forall i | 1 <= i < |acts + more| ensures IsCompletion((acts + more)[i]) || IsReturn((acts + more)[i], timeout) {
      if i >= |acts| {
        assert (acts + more)[i] == more[i - |acts|];
      }
    }
  }

  lemma SectionIsOwn(c: Client, want: Option<nat>, max: int, timeout: int, expired: bool)
    requires expired ==> timeout > 0
    ensures var act := Section(c, want, max, timeout, expired);
      if c.box.poller.Idle? then IsEntry(act, want, max, timeout) else IsReturn(act, timeout)
  {
  }

  /** The run ends with the section that takes the batch, and the batch is the first matching events that
      were queued at that moment, none having been handed over since the poll began. */
  ghost predicate PollGives(c: Client, acts: seq<Action>, want: Option<nat>, max: int, batch: seq<Event<EventKind>>) {
    && acts != [] && ValidRun(c, acts)
    && var before := Exec(c, acts[..|acts| - 1]);
       && Exec(c, acts) == Deliver(before, want, max)
       && before.box.delivered == c.box.delivered
       && batch == FirstMatching(before.box.ready, want, max)
       && Exec(c, acts).box.delivered == c.box.delivered + batch
       && Exec(c, acts).box.ready == RemoveFirst(before.box.ready, want, max)
  }

  /** A completion queues at most one event. */
  lemma CompletionPushes(c: Client, act: Action)
    requires Enabled(c, act) && IsCompletion(act)
    ensures AtMostOnePush(c.box, Apply(c, act).box)
  {
    hide OnTag, EventOf, UnaryEvent;
  }
}
