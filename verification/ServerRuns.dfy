/** What the server promises over whole runs. Every theorem quantifies over all finite runs: every
    interleaving of entry points, completions in any order with any outcome, and waits that end for
    any reason. */
module ServerRuns {
  import opened Common
  import opened Events
  import opened Mailbox
  import opened ServerCall
  import opened ServerHistory
  import opened ServerModel
  import opened ServerInv

  /** The state after a run of a server created with these limits. */
  ghost function After(window: int, maxActive: int, capacity: nat, acts: seq<Action>): Server
    requires ValidRun(Init(window, maxActive, capacity), acts)
  {
    Exec(Init(window, maxActive, capacity), acts)
  }

  /** A state that some run reaches. */
  ghost predicate Reachable(s: Server) {
    exists window: int, maxActive: int, capacity: nat, acts: seq<Action> ::
      1 <= capacity && ValidRun(Init(window, maxActive, capacity), acts)
      && s == After(window, maxActive, capacity, acts)
  }

  lemma ReachableInv(s: Server)
    requires Reachable(s)
    ensures Inv(s)
  {
    hide Inv, Init, Exec;
    var window: int, maxActive: int, capacity: nat, acts: seq<Action> :|
      1 <= capacity && ValidRun(Init(window, maxActive, capacity), acts)
      && s == After(window, maxActive, capacity, acts);
    RunInv(window, maxActive, capacity, acts);
  }

  // ---- the wake handle and delivery ----

  /** With no poll waiting the handle is readable exactly while events are queued; while one waits, a
      match makes it readable and readable returns never outnumber arrivals. */
  lemma HandleAgreesWithQueue(s: Server)
    requires Reachable(s)
    ensures s.box.poller.Idle? ==> (Readable(s.box) <==> s.box.ready != [])
    ensures s.box.poller.Waiting? ==> (HaveMatch(s.box.ready, s.box.poller.want) ==> Readable(s.box))
    ensures s.box.poller.Waiting? ==>
      s.box.poller.wakeups + (if Readable(s.box) then 1 else 0) <= s.box.poller.arrivals
  {
    ReachableInv(s);
    hide Ids, CallsOk, HistoryOk, HaveMatch;
  }

  /** What waits for R is in arrival order across all calls, whatever filtered takes went before. */
  lemma ArrivalOrder(s: Server)
    requires Reachable(s)
    ensures Subsequence(s.box.ready, s.box.pushed)
  {
    hide Ids, CallsOk, HistoryOk, Subsequence, Reachable;
    ReachableInv(s);
  }

  /** What R was given for a call, followed by what still waits for it, is its whole history, and the
      history is grammatical: the single request first, "cancelled" at most once and last, and neither
      "writable" nor "cancelled" once a terminal was accepted. */
  lemma EventGrammar(s: Server, id: nat)
    requires Reachable(s)
    ensures Of(s.box.delivered, id) + Of(s.box.ready, id) == Of(s.box.pushed, id)
    ensures Grammar(Of(s.box.pushed, id))
    ensures Record(s, id).Some? && Record(s, id).value.replied ==>
      QuietAfter(Of(s.box.pushed, id), Record(s, id).value.repliedAt)
  {
    ReachableInv(s);
    hide Ids, CallsOk, Of, Results, QuietAfter;
    assert HistoryOk(s, id);
  }

  lemma DeadRefuses(c: Call, final: Final, code: int, drain: bool, bytes: Bytes, at: nat, shutting: bool)
    requires c.dead
    ensures Reply(c, final, at, shutting) == c && Finish(c, code, drain, at, shutting) == c
    ensures Read(c) == c && Send(c, bytes, shutting) == c
  {
    hide Grows, Pump;
  }

  lemma CancelledIsDead(s: Server, id: nat)
    requires Inv(s) && Cancelled in Of(s.box.pushed, id) && Found(s, id)
    ensures s.live[s.active[id]].dead
  {
    FoundIsLive(s, id);
    hide Inv, Of, Grammar, Results, CallInv;
  }

  /** After "cancelled" every reply, read, send and finish is refused and changes nothing. */
  lemma CancelledIsFinal(s: Server, id: nat, final: Final, code: int, drain: bool, bytes: Bytes)
    requires Reachable(s) && Cancelled in Of(s.box.pushed, id)
    ensures Found(s, id) ==> TerminalRefused(s.live[s.active[id]])
    ensures Found(s, id) ==> ReadRefused(s.live[s.active[id]]) && SendRefused(s.live[s.active[id]])
    ensures DoReply(s, id, final) == s && DoFinish(s, id, code, drain) == s
    ensures DoRead(s, id) == s && DoSend(s, id, bytes) == s
  {
    hide Inv, Of, Reachable, Reply, Finish, Read, Send;
    ReachableInv(s);
    if Found(s, id) {
      CancelledIsDead(s, id);
      var c := s.live[s.active[id]];
      DeadRefuses(c, final, code, drain, bytes, Sent(s, id), s.shutting);
      assert s.live[s.active[id] := c] == s.live;
    }
  }

  // ---- writes and terminals ----

  /** The last known record of an object. */
  function Object(s: Server, oid: nat): Option<Call> {
    if oid in s.live then Some(s.live[oid])
    else if oid in s.freed then Some(s.freed[oid])
    else None
  }

  lemma ObjectShape(s: Server, oid: nat)
    requires Reachable(s) && Object(s, oid).Some?
    ensures Shape(Object(s, oid).value)
  {
    hide Shape, HistoryOk, Ids, BoxInv, Reachable;
    ReachableInv(s);
    assert oid in s.live ==> LiveCall(s.live[oid], oid, s.shutting);
  }

  /** Posted writes are a prefix of accepted sends, in order; at most one terminal is posted, and it is
      the last op; unless the call was finished abortively, a terminal goes out only after every
      accepted send completed. */
  lemma WritesThenTerminal(s: Server, oid: nat)
    requires Reachable(s) && Object(s, oid).Some?
    ensures var c := Object(s, oid).value;
      && Writes(c.ops) <= c.accepted && c.completed <= Writes(c.ops)
      && (forall i :: 0 <= i < |c.ops| - 1 ==> !c.ops[i].TerminalOp?)
      && (forall i :: 0 <= i < |c.ops| && c.ops[i].TerminalOp? ==> c.ops[i] == TerminalOp(c.final) && c.replied)
      && (c.finishPosted && !c.aborted ==> c.completed == c.accepted)
  {
    ObjectShape(s, oid);
    hide TagsExact, ReadsOk, Writes;
    var c := Object(s, oid).value;
    if c.writeQueue != [] {
      assert c.completed + c.writeQueue == (c.completed + [c.writeQueue[0]]) + c.writeQueue[1..];
    }
  }

  /** An accepted terminal is never forgotten: outside shutdown it is posted, or a write is in flight
      whose completion will get to it; and a queue on a live unfinished call always has a write in
      flight, whose buffer is at the front. */
  lemma TerminalNeverForgotten(s: Server, id: nat)
    requires Reachable(s) && !s.shutting && Found(s, id)
    ensures var c := s.live[s.active[id]];
      && (c.replied && !c.dead ==> c.finishPosted || TWrite in c.out)
      && (c.writeQueue != [] && !c.dead && !c.finishPosted ==> TWrite in c.out)
      && (TWrite in c.out ==> c.writeQueue != [] && Writes(c.ops) == c.completed + [c.writeQueue[0]])
  {
    ReachableInv(s);
    FoundIsLive(s, id);
    hide Inv, Of, Fits, Writes;
  }

  /** An abortive finish keeps the buffer of the write in flight, drops every other queued write, and
      posts its terminal at once when nothing is in flight. */
  lemma AbortKeepsBuffer(c: Call, code: int, at: nat)
    requires CallInv(c, false) && !TerminalRefused(c)
    ensures var d := Finish(c, code, false, at, false);
      && d.writeQueue == (if c.writeInflight then [c.writeQueue[0]] else [])
      && (if c.writeInflight then d.ops == c.ops else d.ops == c.ops + [TerminalOp(Final(None, code))])
  {
    hide Grows, Writes;
  }

  // ---- logs only grow ----

  /** How an object's record may change, abortive finish included. */
  predicate Evolves(c: Call, d: Call) {
    Grows(c, d) && (c.aborted ==> Writes(d.ops) == Writes(c.ops))
  }

  predicate ObjectEvolves(r: Option<Call>, r': Option<Call>) {
    r.Some? ==> r'.Some? && Evolves(r.value, r'.value)
  }

  lemma PumpAfterAbort(c: Call, shutting: bool)
    requires c.writeQueue == []
    ensures Writes(Pump(c, shutting).ops) == Writes(c.ops)
  {
    WritesAppend(c.ops, TerminalOp(c.final));
    hide Writes, Grows;
  }

  lemma WriteAfterAbort(c: Call, ok: bool, shutting: bool)
    requires Shape(c) && c.writeQueue != [] && (c.aborted ==> |c.writeQueue| <= 1)
    ensures c.aborted ==> Writes(OnWrite(c, ok, shutting).ops) == Writes(c.ops)
  {
    hide Grows, Writes, Shape, Pump;
    var d := Settle(c, TWrite).(writeInflight := false);
    if c.aborted && ok && !d.dead {
      PumpAfterAbort(d.(writeQueue := d.writeQueue[1..], completed := d.completed + [d.writeQueue[0]]), shutting);
    }
  }

  lemma OnTagEvolves(c: Call, k: TagKind, ok: bool, shutting: bool)
    requires Shape(c) && k in c.out && k != TAccept && (k == TWrite ==> c.writeQueue != [])
    ensures Evolves(c, OnTag(c, k, ok, shutting))
  {
    if k == TWrite {
      assert c.aborted ==> |c.writeQueue| <= 1;
      WriteAfterAbort(c, ok, shutting);
    }
    hide Grows, Writes, Shape, OnRead, OnWrite, OnDone, OnFinish;
  }

  lemma EntryEvolves(c: Call, final: Final, code: int, drain: bool, bytes: Bytes, at: nat, shutting: bool)
    requires c.aborted ==> c.replied
    ensures Evolves(c, Reply(c, final, at, shutting)) && Evolves(c, Finish(c, code, drain, at, shutting))
    ensures Evolves(c, Read(c)) && Evolves(c, Send(c, bytes, shutting))
  {
    WritesAppend(c.ops, ReadOp);
    hide Writes, Pump, Grows;
  }

  /** Objects are named in the order they are allocated. */
  predicate Below(s: Server) {
    (forall i :: i in s.live ==> i < s.nextOid) && (forall i :: i in s.freed ==> i < s.nextOid)
  }

  lemma {:induction false} PostAcceptsFrame(s: Server, o: nat)
    requires Below(s)
    ensures Object(s, o).Some? ==> Object(PostAccepts(s), o) == Object(s, o)
    decreases s.window - s.accepts
  {
    hide Slot;
    if HasRoom(s) {
      PostAcceptsFrame(AddSlot(s), o);
    }
  }

  /** Refilling touches no object that already exists. */
  lemma RefillObject(s: Server, o: nat)
    requires Below(s)
    ensures Object(s, o).Some? ==> Object(Refill(s), o) == Object(s, o)
  {
    hide PostAccepts, Below;
    PostAcceptsFrame(s, o);
  }

  lemma AcceptObject(s: Server, oid: nat, ok: bool, o: nat)
    requires Inv(s) && oid in s.live && s.live[oid].id == 0
    ensures var t := if ok then Refill(AcceptOk(s, oid)) else AcceptFailed(s, oid);
      ObjectEvolves(Object(s, o), Object(t, o))
  {
    hide Ids, CallsOk, Core, OnAccept, Evolves, PutBack, CallInv, AcceptOk, Below, Refill, Settle;
    CoreParts(s);
    CoreLive(s, oid);
    EvolvesReflexive(s, o);
    AcceptEvolves(s.live[oid], s.nextId, s.shutting);
    if ok {
      AcceptOkObject(s, oid, o);
      RefillObject(AcceptOk(s, oid), o);
    } else {
      PutBackObject(s, oid, Settle(s.live[oid], TAccept).(acceptBack := true), None, o);
    }
  }

  lemma HandledObject(s: Server, oid: nat, k: TagKind, ok: bool, a: Arrival, o: nat)
    requires Inv(s) && Dereferenceable(s, oid, k) && k in s.live[oid].out && k != TAccept
    ensures ObjectEvolves(Object(s, o), Object(Handled(s, oid, k, ok, a), o))
  {
    hide Ids, CallsOk, Core, OnTag, EventOf, Evolves, PutBack, CallInv, Shape, Below, AfterHandler;
    CoreParts(s);
    CoreLive(s, oid);
    LiveShape(s.live[oid], oid, s.shutting);
    EvolvesReflexive(s, o);
    OnTagEvolves(s.live[oid], k, ok, s.shutting);
    var d, ev := OnTag(s.live[oid], k, ok, s.shutting), EventOf(s.live[oid], k, ok, a);
    PutBackObject(s, oid, d, ev, o);
    AfterHandlerObject(PutBack(s, oid, d, ev), oid, k, o);
  }

  lemma AfterHandlerObject(t: Server, oid: nat, k: TagKind, o: nat)
    requires Below(t)
    ensures Object(t, o).Some? ==> Object(AfterHandler(t, oid, k), o) == Object(t, o)
  {
    hide Refill, Below;
    RefillObject(t, o);
  }

  lemma TagDoneObject(s: Server, oid: nat, k: TagKind, ok: bool, a: Arrival, o: nat)
    requires Inv(s) && Outstanding(s, oid, k)
    ensures ObjectEvolves(Object(s, o), Object(DoTagDone(s, oid, k, ok, a), o))
  {
    hide Core, Admission, Evolves, Handled, Refill, AcceptOk, AcceptFailed;
    CoreParts(s);
    TagIsLive(s, oid, k);
    hide CallsOk, Ids;
    if k == TAccept {
      AcceptObject(s, oid, ok, o);
    } else {
      HandledObject(s, oid, k, ok, a, o);
    }
  }

  lemma LiveShape(c: Call, oid: nat, shutting: bool)
    requires LiveCall(c, oid, shutting)
    ensures Shape(c)
  {
  }

  lemma EvolvesReflexive(s: Server, o: nat)
    ensures ObjectEvolves(Object(s, o), Object(s, o))
  {
  }

  lemma AcceptEvolves(c: Call, id: nat, shutting: bool)
    requires c.id == 0 && LiveCall(c, c.oid, shutting)
    ensures Evolves(c, OnAccept(c, id, shutting)) && Evolves(c, Settle(c, TAccept).(acceptBack := true))
  {
    hide TagsExact, WritesOk, ReadsOk;
  }

  lemma AcceptOkObject(s: Server, oid: nat, o: nat)
    requires Ids(s) && oid in s.live && s.live[oid].id == 0
    ensures Below(AcceptOk(s, oid))
    ensures Object(AcceptOk(s, oid), o)
         == if o == oid then Some(OnAccept(s.live[oid], s.nextId, s.shutting)) else Object(s, o)
  {
    hide OnAccept;
  }

  lemma PutBackObject(s: Server, oid: nat, c: Call, ev: Option<EventKind>, o: nat)
    requires Ids(s) && oid in s.live
    ensures Below(PutBack(s, oid, c, ev))
    ensures Object(PutBack(s, oid, c, ev), o) == if o == oid then Some(c) else Object(s, o)
  {
    hide Push;
  }

  lemma UpdateObject(s: Server, id: nat, d: Call, o: nat)
    requires Found(s, id) && Evolves(s.live[s.active[id]], d)
    ensures ObjectEvolves(Object(s, o), Object(Update(s, id, d), o))
  {
    EvolvesReflexive(s, o);
    hide Evolves;
  }

  lemma AbortedReplied(s: Server, id: nat)
    requires Inv(s) && Found(s, id)
    ensures s.live[s.active[id]].aborted ==> s.live[s.active[id]].replied
  {
    FoundIsLive(s, id);
    hide Inv, Fits, Of, WritesOk, OpsOk;
  }

  lemma EntryObject(s: Server, act: Action, o: nat)
    requires Inv(s) && (act.ReplyTo? || act.FinishCall? || act.ReadFrom? || act.SendTo?) && Enabled(s, act)
    ensures ObjectEvolves(Object(s, o), Object(Apply(s, act), o))
  {
    hide Inv, Evolves, Of, Reply, Finish, Read, Send, Object, Update;
    EvolvesReflexive(s, o);
    if Found(s, act.id) {
      AbortedReplied(s, act.id);
      var c := s.live[s.active[act.id]];
      match act
      case ReplyTo(id, final) =>
        EntryEvolves(c, final, 0, true, [], Sent(s, id), s.shutting);
        UpdateObject(s, id, Reply(c, final, Sent(s, id), s.shutting), o);
      case FinishCall(id, code, drain) =>
        EntryEvolves(c, NO_FINAL, code, drain, [], Sent(s, id), s.shutting);
        UpdateObject(s, id, Finish(c, code, drain, Sent(s, id), s.shutting), o);
      case ReadFrom(id) =>
        EntryEvolves(c, NO_FINAL, 0, true, [], 0, s.shutting);
        UpdateObject(s, id, Read(c), o);
      case SendTo(id, bytes) =>
        EntryEvolves(c, NO_FINAL, 0, true, bytes, 0, s.shutting);
        UpdateObject(s, id, Send(c, bytes, s.shutting), o);
    }
  }

  lemma StepEvolves(s: Server, act: Action, o: nat)
    requires Inv(s) && Enabled(s, act)
    ensures ObjectEvolves(Object(s, o), Object(Apply(s, act), o))
  {
    hide Inv, Evolves, DoTagDone, DeliverBox;
    if act.ReplyTo? || act.FinishCall? || act.ReadFrom? || act.SendTo? {
      EntryObject(s, act, o);
    } else if act.TagDone? {
      TagDoneObject(s, act.oid, act.kind, act.ok, act.arrival, o);
    } else {
      EvolvesReflexive(s, o);
    }
  }

  lemma EvolvesTransitive(c: Call, d: Call, e: Call)
    requires Evolves(c, d) && Evolves(d, e)
    ensures Evolves(c, e)
  {
    hide Writes;
    GrowsTransitive(c, d, e);
  }

  /** Along every run, from any point to any later one, a call's logs only grow; from the moment its
      terminal is posted no op is posted on it; and from an accepted abortive finish on, no write is. */
  lemma {:induction false} LogsOnlyGrow(s: Server, acts: seq<Action>, n: nat, o: nat)
    requires Inv(s) && ValidRun(s, acts) && n <= |acts|
    ensures ValidRun(s, acts[..n]) && Inv(Exec(s, acts))
    ensures ObjectEvolves(Object(Exec(s, acts[..n]), o), Object(Exec(s, acts), o))
  {
    hide Inv, Evolves, Apply;
    if n == |acts| {
      assert acts[..n] == acts;
      EvolvesReflexive(Exec(s, acts), o);
      ExecInv(s, acts);
    } else {
      var m := |acts| - 1;
      assert acts[..m][..n] == acts[..n];
      LogsOnlyGrow(s, acts[..m], n, o);
      ApplyInv(Exec(s, acts[..m]), acts[m]);
      StepEvolves(Exec(s, acts[..m]), acts[m], o);
      var r0, r1 := Object(Exec(s, acts[..n]), o), Object(Exec(s, acts[..m]), o);
      if r0.Some? {
        EvolvesTransitive(r0.value, r1.value, Object(Exec(s, acts), o).value);
      }
    }
  }

  lemma {:induction false} ExecInv(s: Server, acts: seq<Action>)
    requires Inv(s) && ValidRun(s, acts)
    ensures Inv(Exec(s, acts))
  {
    hide Inv, Apply;
    if acts != [] {
      var n := |acts| - 1;
      ExecInv(s, acts[..n]);
      ApplyInv(Exec(s, acts[..n]), acts[n]);
    }
  }

  // ---- reads ----

  /** Each accepted read yields exactly one "stream_msg" or "client_done": as long as the call is not
      dead, accepted reads are the results queued plus the one in flight. */
  lemma ReadsAccounted(s: Server, id: nat)
    requires Reachable(s) && Found(s, id)
    ensures var c := s.live[s.active[id]];
      && Results(Of(s.box.pushed, id)) <= c.readsAccepted
      && (c.delivered && !c.dead ==> c.readsAccepted == Results(Of(s.box.pushed, id)) + c.out[TRead])
  {
    ReachableInv(s);
    FoundIsLive(s, id);
    hide Inv, Of, Grammar, Writes, OpsOk, WritesOk;
  }

  // ---- admission ----

  /** The limits hold in every reachable state, and the shortfall is at most the number of objects
      freed without a refill since the last refill. */
  lemma AdmissionBounded(s: Server)
    requires Reachable(s)
    ensures s.accepts == |Slots(s.live)|
    ensures s.accepts <= Max(0, s.window) && |s.active| + s.accepts <= Max(0, s.maxActive)
    ensures !s.shutting ==> Max(0, Room(s)) - s.accepts <= s.lag
  {
    ReachableInv(s);
    hide Core;
  }

  lemma FailedCounts(s: Server, oid: nat, a: Arrival)
    requires Inv(s) && Outstanding(s, oid, TAccept)
    ensures var t := DoTagDone(s, oid, TAccept, false, a);
      t.lag == s.lag + 1 && oid !in t.live
  {
    hide PutBack, Admission, OnTag, EventOf, AcceptOk, PostAccepts;
    TagIsLive(s, oid, TAccept);
    FailedSlot(s, oid);
    PutBackFrame(s, oid, Settle(s.live[oid], TAccept).(acceptBack := true), None);
    hide Core;
  }

  lemma HandledCounts(s: Server, oid: nat, k: TagKind, ok: bool, a: Arrival)
    requires Dereferenceable(s, oid, k) && (k == TRead || k == TWrite)
    ensures var t := Handled(s, oid, k, ok, a); t.lag == s.lag + (if oid !in t.live then 1 else 0)
  {
    hide PutBack, OnTag, EventOf, PostAccepts;
    var c := s.live[oid];
    PutBackFrame(s, oid, OnTag(c, k, ok, s.shutting), EventOf(c, k, ok, a));
  }

  /** What the shortfall is bounded by: it is forgotten by every step that refills, and grows by one with
      every other step that frees its object. */
  lemma ShortfallCounts(s: Server, act: Action)
    requires Inv(s) && Enabled(s, act)
    ensures var t := Apply(s, act);
      t.lag == if act.TagDone? && (act.kind == TDone || act.kind == TFinish || (act.kind == TAccept && act.ok)) then 0
               else s.lag + (if act.TagDone? && act.oid !in t.live then 1 else 0)
  {
    hide Core, Admission, PutBack, AcceptOk, OnTag, EventOf, Reply, Finish, Read, Send, DeliverBox, PostAccepts;
    if act.TagDone? {
      CoreParts(s);
      TagIsLive(s, act.oid, act.kind);
      if act.kind == TAccept && !act.ok {
        FailedCounts(s, act.oid, act.arrival);
      } else if act.kind == TRead || act.kind == TWrite {
        HandledCounts(s, act.oid, act.kind, act.ok, act.arrival);
      }
    }
  }

  /** An accept that matched, a done and a finish each leave exactly as many slots as the limits
      allow. */
  lemma RefillIsMaximal(s: Server, oid: nat, k: TagKind, ok: bool, a: Arrival)
    requires Reachable(s) && !s.shutting && Outstanding(s, oid, k)
    requires k == TDone || k == TFinish || (k == TAccept && ok)
    ensures FullyStaffed(DoTagDone(s, oid, k, ok, a))
  {
    ReachableInv(s);
    hide Core, Handled, FullyStaffed, Refill, AcceptOk, Admission;
    CoreParts(s);
    TagIsLive(s, oid, k);
    hide Ids, CallsOk;
    if k == TAccept {
      AcceptOkInv(s, oid);
    } else {
      HandledInv(s, oid, k, ok, a);
    }
  }

  // ---- lifetime ----

  /** No tag dangles, `pending` is exact, and every live object is owed at least one tag: so when
      nothing is owed nothing is live, accept slots included, and `active` is empty. */
  lemma NothingLeaks(s: Server)
    requires Reachable(s)
    ensures forall o :: o in s.live ==> TagsExact(s.live[o]) && s.live[o].pending >= 1 && s.live[o].out != multiset{}
    ensures (forall o, k :: !Outstanding(s, o, k)) ==> s.live == map[] && s.active == map[]
  {
    ReachableInv(s);
    hide HistoryOk, BoxInv, WritesOk, ReadsOk, OpsOk, Reachable;
    assert forall o :: o in s.live ==> LiveCall(s.live[o], o, s.shutting);
    forall o | o in s.live ensures exists k :: Outstanding(s, o, k) {
      assert s.live[o].out != multiset{};
      var k :| k in s.live[o].out;
      assert Outstanding(s, o, k);
    }
  }

  lemma DeletedExactlyOnce(s: Server, o: nat)
    requires Reachable(s)
    ensures s.deleted[o] == if o < s.nextOid && o !in s.live then 1 else 0
    ensures forall k :: Outstanding(s, o, k) ==> Dereferenceable(s, o, k)
  {
    ReachableInv(s);
    hide HistoryOk, BoxInv, Reachable;
    CoreParts(s);
    forall k | Outstanding(s, o, k) ensures Dereferenceable(s, o, k) {
      TagIsLive(s, o, k);
    }
    hide LiveCall, FreedCall;
  }

  // ---- a wait does not spin ----

  /** How often a run's polls found the handle readable. */
  function Returns(acts: seq<Action>): nat {
    if acts == [] then 0
    else Returns(acts[..|acts| - 1]) + B(acts[|acts| - 1].PollReadable?)
  }

  lemma ReturnCounts(s: Server, act: Action, found: nat, start: int)
    requires Inv(s) && Enabled(s, act) && (act.PollReadable? || act.PollOver?)
    requires Counted(s.box.poller, found, |s.box.pushed| - start)
    ensures var b := Apply(s, act).box;
      Counted(b.poller, found + B(act.PollReadable?), |b.pushed| - start)
  {
    InvBox(s);
    DeliverTakes(s, s.box.poller.want, s.box.poller.max);
    DeliverBoxInv(s.box, s.box.poller.want, s.box.poller.max);
    WaitArmed(s);
    hide Inv, Deliver, DeliverBox, HaveMatch;
  }

  lemma InvBox(s: Server)
    requires Inv(s)
    ensures BoxInv(s.box)
  {
    hide Ids, CallsOk, HistoryOk, BoxInv;
  }

  lemma WaitArmed(s: Server)
    requires Inv(s)
    ensures s.box.poller.Waiting? && Readable(s.box) ==> s.box.poller.wakeups < s.box.poller.arrivals
  {
    hide Admission, Ids, CallsOk, HistoryOk, Conserved;
  }

  lemma EntryCounts(s: Server, want: Option<nat>, max: int, timeout: int, expired: bool)
    requires Inv(s) && Enabled(s, PollEnter(want, max, timeout, expired))
    ensures var b := Apply(s, PollEnter(want, max, timeout, expired)).box;
      Counted(b.poller, 0, |b.pushed| - |s.box.pushed|)
  {
    InvBox(s);
    DeliverTakes(s, want, max);
    DeliverBoxInv(s.box, want, max);
    hide Inv, Deliver, DeliverBox, HaveMatch;
  }

  /** In every poll the readable returns of its wait never outnumber the events that were pushed while it
      lasted: it is never woken for nothing, however many other calls' events are queued. */
  lemma {:induction false} ReturnsBounded(s: Server, acts: seq<Action>)
    requires Inv(s) && ValidRun(s, acts) && acts != [] && acts[0].PollEnter?
    requires forall i :: 1 <= i < |acts| ==> IsCompletion(acts[i]) || acts[i].PollReadable? || acts[i].PollOver?
    ensures var b := Exec(s, acts).box;
      Inv(Exec(s, acts)) && Counted(b.poller, Returns(acts), |b.pushed| - |s.box.pushed|)
  {
    hide Inv, Apply, Enabled, Counted;
    var n := |acts| - 1;
    if n == 0 {
      assert acts[..0] == [] && Returns([]) == 0;
      ApplyInv(s, acts[0]);
      EntryCounts(s, acts[0].want, acts[0].max, acts[0].timeout, acts[0].expired);
    } else {
      var t := Exec(s, acts[..n]);
      ReturnsBounded(s, acts[..n]);
      ApplyInv(t, acts[n]);
      if IsCompletion(acts[n]) {
        CompletionPushes(t, acts[n]);
        PushCounts(t.box, Apply(t, acts[n]).box, Returns(acts[..n]), |s.box.pushed|);
      } else {
        ReturnCounts(t, acts[n], Returns(acts[..n]), |s.box.pushed|);
      }
    }
  }

  lemma PollReturns(s: Server, acts: seq<Action>, want: Option<nat>, max: int, timeout: int)
    requires Inv(s) && ValidRun(s, acts) && PollRun(acts, want, max, timeout)
    ensures Returns(acts) <= |Exec(s, acts).box.pushed| - |s.box.pushed|
  {
    hide Inv, Apply, Enabled, IsCompletion, Exec, ValidRun;
    var n := |acts| - 1;
    assert n > 0 ==> acts[..n][0] == acts[0];
    forall i | 1 <= i < |acts| ensures IsCompletion(acts[i]) || acts[i].PollReadable? || acts[i].PollOver? {
      assert i < n ==> acts[..n][i] == acts[i];
    }
    ReturnsBounded(s, acts);
  }
}
