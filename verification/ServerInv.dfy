/** The server's invariant and its preservation by every action. */
module ServerInv {
  import opened Common
  import opened Events
  import opened Mailbox
  import opened ServerCall
  import opened ServerHistory
  import opened ServerModel

  // ---- who is who ----

  /** Every object is live or was deleted once; every id ever assigned has one owner; `active` is
      exactly the ids of live calls. */
  ghost predicate Ids(s: Server) {
    && s.nextId >= 1
    && s.closed == s.shutting
    && (forall o :: o in s.live ==> o < s.nextOid && o !in s.freed)
    && (forall o :: o in s.freed ==> o < s.nextOid)
    && (forall o: nat :: o < s.nextOid ==> o in s.live || o in s.freed)
    && (forall o: nat :: s.deleted[o] == if o in s.freed then 1 else 0)
    && (forall id: nat :: id in s.owner <==> 1 <= id < s.nextId)
    && (forall id :: id in s.owner ==> s.owner[id] in s.live || s.owner[id] in s.freed)
    && (forall id :: id in s.owner && s.owner[id] in s.live ==> s.live[s.owner[id]].id == id)
    && (forall o :: o in s.live && s.live[o].id != 0 ==> s.live[o].id in s.owner && s.owner[s.live[o].id] == o)
    && (forall id :: id in s.active <==> id in s.owner && s.owner[id] in s.live)
    && (forall id :: id in s.active ==> s.active[id] == s.owner[id])
  }

  predicate LiveCall(c: Call, oid: nat, shutting: bool) {
    c.oid == oid && CallInv(c, shutting) && c.pending >= 1 && (c.acceptBack <==> c.id != 0)
  }

  predicate FreedCall(c: Call) {
    Shape(c) && c.pending == 0 && c.out == multiset{}
  }

  ghost predicate CallsOk(s: Server) {
    && (forall o :: o in s.live ==> LiveCall(s.live[o], o, s.shutting))
    && (forall o :: o in s.freed ==> FreedCall(s.freed[o]))
  }

  /** The last known record of the call with this id. */
  function Record(s: Server, id: nat): Option<Call> {
    if id !in s.owner then None
    else if s.owner[id] in s.live then Some(s.live[s.owner[id]])
    else if s.owner[id] in s.freed then Some(s.freed[s.owner[id]])
    else None
  }

  predicate FitsRecord(r: Option<Call>, h: seq<EventKind>) {
    match r
    case None => h == []
    case Some(c) => Fits(c, h)
  }

  predicate HistoryOk(s: Server, id: nat) {
    FitsRecord(Record(s, id), Of(s.box.pushed, id))
  }

  ghost predicate Core(s: Server) {
    && Ids(s)
    && CallsOk(s)
    && (forall id: nat :: HistoryOk(s, id))
    && BoxInv(s.box)
    && (s.closed ==> s.box.poller.Idle?)
  }

  // ---- admission ----

  function Slots(live: map<nat, Call>): set<nat> {
    set o | o in live && live[o].id == 0
  }

  /** The number of slots that both limits leave room for. */
  function Room(s: Server): int {
    Min(s.window, s.maxActive - |s.active|)
  }

  predicate Admission(s: Server) {
    && s.accepts == |Slots(s.live)|
    && s.accepts <= Max(0, s.window)
    && |s.active| + s.accepts <= Max(0, s.maxActive)
    && (!s.shutting ==> Room(s) - s.accepts <= s.lag)
  }

  /** As many slots as the limits allow. */
  predicate FullyStaffed(s: Server) {
    s.accepts == Max(0, Room(s))
  }

  ghost predicate Inv(s: Server) {
    Core(s) && Admission(s)
  }

  // ---- replacing one record ----

  lemma ReplaceIds(s: Server, o: nat, c: Call)
    requires Ids(s) && o in s.live && c.id == s.live[o].id
    ensures Ids(s.(live := s.live[o := c])) && Slots(s.live[o := c]) == Slots(s.live)
  {
  }

  lemma ReplaceHistory(s: Server, o: nat, c: Call, id: nat)
    requires Ids(s) && o in s.live && c.id == s.live[o].id && HistoryOk(s, id)
    requires c.id == id && id != 0 ==> Fits(c, Of(s.box.pushed, id))
    ensures HistoryOk(s.(live := s.live[o := c]), id)
  {
    hide Fits, Of;
  }

  lemma ReplaceInv(s: Server, o: nat, c: Call)
    requires Inv(s) && o in s.live && c.id == s.live[o].id && c.id != 0
    requires LiveCall(c, o, s.shutting) && Fits(c, Of(s.box.pushed, c.id))
    ensures Inv(s.(live := s.live[o := c]))
  {
    hide Fits, Of, LiveCall, FreedCall, Ids, HistoryOk, BoxInv;
    var s' := s.(live := s.live[o := c]);
    ReplaceIds(s, o, c);
    forall id: nat ensures HistoryOk(s', id) {
      ReplaceHistory(s, o, c, id);
    }
  }

  // ---- entry points ----

  lemma FoundIsLive(s: Server, id: nat)
    requires Core(s) && Found(s, id)
    ensures var o := s.active[id]; s.live[o].id == id && id != 0 && LiveCall(s.live[o], o, s.shutting)
    ensures Fits(s.live[s.active[id]], Of(s.box.pushed, id))
  {
    hide Fits, Of, CallInv, BoxInv;
    assert HistoryOk(s, id);
  }

  /** What makes an updated record a live call again. */
  lemma EntryInv(s: Server, id: nat, d: Call)
    requires Inv(s) && Found(s, id)
    requires SameObject(s.live[s.active[id]], d) && CallInv(d, s.shutting)
    requires Fits(s.live[s.active[id]], Of(s.box.pushed, id)) ==> Fits(d, Of(s.box.pushed, id))
    ensures Inv(Update(s, id, d))
  {
    hide Fits, Of, Core;
    FoundIsLive(s, id);
    var o := s.active[id];
    EntryLive(s.live[o], d, o, s.shutting);
    ReplaceInv(s, o, d);
  }

  lemma EntryLive(c: Call, d: Call, o: nat, shutting: bool)
    requires LiveCall(c, o, shutting) && CallInv(d, shutting) && SameObject(c, d) && d.id != 0
    ensures LiveCall(d, o, shutting)
  {
  }

  lemma ReplyToInv(s: Server, id: nat, final: Final)
    requires Inv(s)
    ensures Inv(DoReply(s, id, final))
  {
    hide Reply, Fits, Of, CallInv, Core, Grows;
    if Found(s, id) {
      FoundIsLive(s, id);
      var c := s.live[s.active[id]];
      ReplyInv(c, final, Sent(s, id), s.shutting);
      FitsReply(c, final, Of(s.box.pushed, id), s.shutting);
      EntryInv(s, id, Reply(c, final, Sent(s, id), s.shutting));
    }
  }

  lemma FinishCallInv(s: Server, id: nat, code: int, drain: bool)
    requires Inv(s)
    ensures Inv(DoFinish(s, id, code, drain))
  {
    hide Finish, Fits, Of, CallInv, Core, Grows;
    if Found(s, id) {
      FoundIsLive(s, id);
      var c := s.live[s.active[id]];
      FinishInv(c, code, drain, Sent(s, id), s.shutting);
      FitsFinishCall(c, code, drain, Of(s.box.pushed, id), s.shutting);
      EntryInv(s, id, Finish(c, code, drain, Sent(s, id), s.shutting));
    }
  }

  lemma ReadFromInv(s: Server, id: nat)
    requires Inv(s)
    ensures Inv(DoRead(s, id))
  {
    hide Read, Fits, Of, CallInv, Core, Grows;
    if Found(s, id) {
      FoundIsLive(s, id);
      var c := s.live[s.active[id]];
      ReadInv(c, s.shutting);
      FitsReadSend(c, [], Of(s.box.pushed, id), s.shutting);
      EntryInv(s, id, Read(c));
    }
  }

  lemma SendToInv(s: Server, id: nat, bytes: Bytes)
    requires Inv(s)
    ensures Inv(DoSend(s, id, bytes))
  {
    hide Send, Fits, Of, CallInv, Core, Grows;
    if Found(s, id) {
      FoundIsLive(s, id);
      var c := s.live[s.active[id]];
      SendInv(c, bytes, s.shutting);
      FitsReadSend(c, bytes, Of(s.box.pushed, id), s.shutting);
      EntryInv(s, id, Send(c, bytes, s.shutting));
    }
  }

  lemma ShutdownInv(s: Server)
    requires Inv(s) && s.box.poller.Idle?
    ensures Inv(DoShutdown(s))
  {
    ShutdownCalls(s);
    ShutdownIds(s);
    hide CallsOk, Ids, Fits, Of, BoxInv, Slots;
    forall id: nat ensures HistoryOk(DoShutdown(s), id) {
      assert HistoryOk(s, id);
    }
  }

  lemma ShutdownCalls(s: Server)
    requires CallsOk(s)
    ensures CallsOk(DoShutdown(s))
  {
    hide Shape, FreedCall;
  }

  lemma ShutdownIds(s: Server)
    requires Ids(s)
    ensures Ids(DoShutdown(s))
  {
  }

  // ---- refills ----

  lemma AddSlotIds(s: Server)
    requires Ids(s)
    ensures Ids(AddSlot(s)) && Slots(AddSlot(s).live) == Slots(s.live) + {s.nextOid}
    ensures forall id: nat :: Record(AddSlot(s), id) == Record(s, id)
  {
    hide Slot, Record, Slots, Ids, AddSlot;
    AddSlotNames(s);
    AddSlotRecords(s);
    AddSlotSlots(s);
  }

  lemma AddSlotNames(s: Server)
    requires Ids(s)
    ensures Ids(AddSlot(s))
  {
    hide Slot;
    assert Slot(s.nextOid).id == 0;
  }

  lemma AddSlotRecords(s: Server)
    requires Ids(s)
    ensures forall id: nat :: Record(AddSlot(s), id) == Record(s, id)
  {
    hide Slot;
  }

  lemma AddSlotSlots(s: Server)
    requires Ids(s)
    ensures Slots(AddSlot(s).live) == Slots(s.live) + {s.nextOid}
  {
  }

  lemma AddSlotCalls(s: Server)
    requires CallsOk(s) && !s.shutting
    ensures CallsOk(AddSlot(s))
  {
    SlotInv(s.nextOid);
    hide CallInv, FreedCall;
  }

  lemma AddSlotInv(s: Server)
    requires Core(s) && s.accepts == |Slots(s.live)| && !s.shutting
    ensures Core(AddSlot(s)) && AddSlot(s).accepts == |Slots(AddSlot(s).live)|
  {
    hide CallsOk, Fits, Of, BoxInv, Record;
    AddSlotCalls(s);
    AddSlotIds(s);
    SlotsAreLive(s, s.nextOid);
    hide Ids;
    var s' := AddSlot(s);
    forall id: nat ensures HistoryOk(s', id) {
      assert HistoryOk(s, id);
    }
  }

  lemma SlotsAreLive(s: Server, o: nat)
    requires Ids(s) && o >= s.nextOid
    ensures o !in Slots(s.live)
  {
  }

  /** After the loop no further slot fits, and the limits still hold. */
  lemma {:induction false} PostAcceptsInv(s: Server)
    requires Core(s) && s.accepts == |Slots(s.live)|
    requires s.accepts <= Max(0, s.window) && |s.active| + s.accepts <= Max(0, s.maxActive)
    ensures var s' := PostAccepts(s);
      && Core(s') && s'.accepts == |Slots(s'.live)| && !HasRoom(s')
      && s'.accepts <= Max(0, s.window) && |s'.active| + s'.accepts <= Max(0, s.maxActive)
      && s'.shutting == s.shutting && s'.window == s.window && s'.maxActive == s.maxActive
    decreases s.window - s.accepts
  {
    hide Core, Slots, AddSlot;
    if HasRoom(s) {
      AddSlotInv(s);
      AddSlotFrame(s);
      PostAcceptsInv(AddSlot(s));
    }
  }

  lemma AddSlotFrame(s: Server)
    ensures AddSlot(s) == s.(live := AddSlot(s).live, nextOid := s.nextOid + 1, accepts := s.accepts + 1)
  {
  }

  /** After every refill of a server that is not shutting down, the slots are exactly as many as the
      limits allow. */
  lemma RefillInv(s: Server)
    requires Core(s) && s.accepts == |Slots(s.live)|
    requires s.accepts <= Max(0, s.window) && |s.active| + s.accepts <= Max(0, s.maxActive)
    ensures Inv(Refill(s)) && (!s.shutting ==> FullyStaffed(Refill(s)))
    ensures Refill(s).shutting == s.shutting
  {
    hide Core, Slots, PostAccepts;
    PostAcceptsInv(s);
    LagFree(PostAccepts(s));
  }

  lemma LagFree(s: Server)
    requires Core(s)
    ensures Core(s.(lag := 0))
  {
    hide CallsOk, Fits, Of, BoxInv, Ids;
    var s' := s.(lag := 0);
    assert Ids(s') && CallsOk(s') by { LagFrame(s); }
    forall id: nat ensures HistoryOk(s', id) {
      assert HistoryOk(s, id);
    }
  }

  lemma LagFrame(s: Server)
    ensures Ids(s) ==> Ids(s.(lag := 0))
    ensures CallsOk(s) ==> CallsOk(s.(lag := 0))
  {
    hide LiveCall, FreedCall;
  }

  lemma InitInv(window: int, maxActive: int, capacity: nat)
    requires 1 <= capacity
    ensures Inv(Init(window, maxActive, capacity)) && FullyStaffed(Init(window, maxActive, capacity))
  {
    var s := Blank(window, maxActive, capacity);
    assert Slots(s.live) == {};
    RefillInv(s);
    hide Refill;
  }

  // ---- completions ----

  /** No tag dangles: its object is live, an accept tag belongs to a slot, and a completed write still
      has its buffer at the front of its queue. */
  lemma TagIsLive(s: Server, oid: nat, k: TagKind)
    requires CallsOk(s) && Outstanding(s, oid, k)
    ensures oid in s.live && k in s.live[oid].out && Dereferenceable(s, oid, k)
  {
    hide WritesOk, ReadsOk, OpsOk;
    if oid in s.freed {
      assert FreedCall(s.freed[oid]);
    }
  }

  lemma EmitHistory(s: Server, id: nat, ev: Option<EventKind>, i: nat)
    requires BoxInv(s.box)
    ensures BoxInv(Emit(s, id, ev).box) && Emit(s, id, ev).box.poller.Idle? == s.box.poller.Idle?
    ensures Of(Emit(s, id, ev).box.pushed, i) == Of(s.box.pushed, i) + (if i == id && ev.Some? then [ev.value] else [])
  {
    if ev.Some? {
      PushInv(s.box, Event(id, ev.value));
    }
  }

  lemma FreeIds(s: Server, oid: nat)
    requires Ids(s) && oid in s.live
    ensures Ids(MaybeFree(s, oid))
  {
  }

  lemma EmitIds(s: Server, id: nat, ev: Option<EventKind>)
    requires Ids(s)
    ensures Ids(Emit(s, id, ev)) && Emit(s, id, ev).live == s.live && Emit(s, id, ev).active == s.active
  {
    hide Push;
  }

  lemma PutBackIds(s: Server, oid: nat, c: Call, ev: Option<EventKind>)
    requires Ids(s) && oid in s.live && c.id == s.live[oid].id
    ensures Ids(PutBack(s, oid, c, ev))
  {
    hide Ids, Emit, MaybeFree;
    EmitIds(s, c.id, ev);
    ReplaceIds(Emit(s, c.id, ev), oid, c);
    FreeIds(Emit(s, c.id, ev).(live := s.live[oid := c]), oid);
  }

  lemma PutBackRecord(s: Server, oid: nat, c: Call, ev: Option<EventKind>, id: nat)
    requires Ids(s) && oid in s.live && c.id == s.live[oid].id
    ensures Record(PutBack(s, oid, c, ev), id)
         == if c.id == id && id != 0 then Some(c) else Record(s, id)
  {
    hide Push;
    ReplaceIds(s, oid, c);
    FreeRecord(Emit(s, c.id, ev).(live := s.live[oid := c]), oid, id);
    hide MaybeFree;
  }

  /** Freeing an object moves its record; it does not lose it. */
  lemma FreeRecord(s: Server, oid: nat, id: nat)
    requires oid in s.live
    ensures Record(MaybeFree(s, oid), id) == Record(s, id)
  {
  }

  lemma PutBackHistory(s: Server, oid: nat, c: Call, ev: Option<EventKind>, id: nat)
    requires Ids(s) && BoxInv(s.box) && oid in s.live && c.id == s.live[oid].id && HistoryOk(s, id)
    requires c.id == 0 ==> ev.None?
    requires c.id == id && id != 0 ==>
      Fits(c, Of(s.box.pushed, id) + if ev.Some? then [ev.value] else [])
    ensures HistoryOk(PutBack(s, oid, c, ev), id)
  {
    hide Fits, Of, Push, Ids, PutBack, Emit, Record;
    PutBackRecord(s, oid, c, ev, id);
    EmitHistory(s, c.id, ev, id);
    PutBackFrame(s, oid, c, ev);
    assert Of(s.box.pushed, id) + [] == Of(s.box.pushed, id);
  }

  lemma PutBackFrame(s: Server, oid: nat, c: Call, ev: Option<EventKind>)
    ensures var t := PutBack(s, oid, c, ev);
      && t.box == Emit(s, c.id, ev).box && t.window == s.window && t.maxActive == s.maxActive
      && t.shutting == s.shutting && t.closed == s.closed && t.accepts == s.accepts && t.lag == s.lag
      && (oid in t.live <==> c.pending != 0)
  {
    hide Push;
  }

  lemma PutBackCalls(s: Server, oid: nat, c: Call, ev: Option<EventKind>)
    requires CallsOk(s) && oid in s.live
    requires if c.pending == 0 then FreedCall(c) else LiveCall(c, oid, s.shutting)
    ensures CallsOk(PutBack(s, oid, c, ev))
  {
    hide LiveCall, FreedCall, Push;
  }

  lemma SlotsFree(live: map<nat, Call>, oid: nat)
    requires oid in live
    ensures |Slots(live - {oid})| == |Slots(live)| - B(live[oid].id == 0)
  {
    assert Slots(live - {oid}) == Slots(live) - {oid};
  }

  lemma SlotTaken(live: map<nat, Call>, oid: nat, c: Call)
    requires oid in live && live[oid].id == 0 && c.id != 0
    ensures |Slots(live[oid := c])| == |Slots(live)| - 1
  {
    assert Slots(live[oid := c]) == Slots(live) - {oid};
  }

  lemma ActiveFree(active: map<nat, nat>, id: nat)
    requires id in active
    ensures |active - {id}| == |active| - 1
  {
    assert (active - {id}).Keys == active.Keys - {id};
  }

  lemma ActiveAdd(active: map<nat, nat>, id: nat, o: nat)
    requires id !in active
    ensures |active[id := o]| == |active| + 1
  {
    assert active[id := o].Keys == active.Keys + {id};
  }

  lemma LiveIsActive(s: Server, oid: nat)
    requires Ids(s) && oid in s.live && s.live[oid].id != 0
    ensures s.live[oid].id in s.active
  {
  }

  /** Freeing an object takes it out of the slots if it was one, and lowers the number of active calls
      by one if it was a call. */
  lemma PutBackCounts(s: Server, oid: nat, c: Call, ev: Option<EventKind>)
    requires Ids(s) && oid in s.live && c.id == s.live[oid].id
    ensures var t := PutBack(s, oid, c, ev);
      && |Slots(t.live)| == |Slots(s.live)| - B(c.pending == 0 && c.id == 0)
      && |t.active| == |s.active| - B(c.pending == 0 && c.id != 0)
  {
    hide Push, Slots;
    EmitIds(s, c.id, ev);
    ReplaceIds(s, oid, c);
    if c.pending == 0 {
      SlotsFree(s.live[oid := c], oid);
      if c.id != 0 {
        LiveIsActive(s, oid);
        ActiveFree(s.active, c.id);
      }
    }
    hide Ids, Emit;
  }

  lemma PutBackCore(s: Server, oid: nat, c: Call, ev: Option<EventKind>)
    requires Core(s) && oid in s.live && c.id == s.live[oid].id
    requires c.id == 0 ==> ev.None?
    requires c.id != 0 ==> Fits(c, Of(s.box.pushed, c.id) + if ev.Some? then [ev.value] else [])
    requires if c.pending == 0 then FreedCall(c) else LiveCall(c, oid, s.shutting)
    ensures Core(PutBack(s, oid, c, ev))
  {
    hide Fits, Of, Push, Ids, CallsOk, PutBack, Emit, Record, HistoryOk, BoxInv, LiveCall, FreedCall;
    PutBackIds(s, oid, c, ev);
    PutBackCalls(s, oid, c, ev);
    PutBackFrame(s, oid, c, ev);
    EmitHistory(s, c.id, ev, 0);
    forall id: nat ensures HistoryOk(PutBack(s, oid, c, ev), id) {
      PutBackHistory(s, oid, c, ev, id);
    }
  }

  /** The bookkeeping fields change without touching the core. */
  lemma CoreIgnoresCounters(s: Server, accepts: int, lag: nat)
    requires Core(s)
    ensures Core(s.(accepts := accepts, lag := lag))
  {
    hide Fits, Of, BoxInv, LiveCall, FreedCall;
    var s' := s.(accepts := accepts, lag := lag);
    forall id: nat ensures HistoryOk(s', id) {
      assert HistoryOk(s, id);
    }
  }

  lemma FailedLimits(s: Server, oid: nat, c: Call)
    requires Ids(s) && Admission(s) && oid in s.live && s.live[oid].id == 0 && c.id == 0 && c.pending == 0
    ensures Admission(PutBack(s, oid, c, None).(accepts := s.accepts - 1, lag := s.lag + 1))
  {
    hide Ids, Slots, PutBack;
    PutBackCounts(s, oid, c, None);
    PutBackFrame(s, oid, c, None);
  }

  lemma AcceptFailedInv(s: Server, oid: nat)
    requires Inv(s) && oid in s.live && TAccept in s.live[oid].out
    ensures Inv(AcceptFailed(s, oid))
  {
    hide Core, PutBack, Admission, FreedCall;
    var c := Settle(s.live[oid], TAccept).(acceptBack := true);
    FailedSlot(s, oid);
    hide Settle;
    PutBackCore(s, oid, c, None);
    CoreIgnoresCounters(PutBack(s, oid, c, None), s.accepts - 1, s.lag + 1);
    CoreParts(s);
    FailedLimits(s, oid, c);
    PutBackFrame(s, oid, c, None);
    hide Ids, CallsOk;
  }

  lemma CoreParts(s: Server)
    requires Core(s)
    ensures Ids(s) && CallsOk(s) && BoxInv(s.box)
  {
  }

  lemma FailedSlot(s: Server, oid: nat)
    requires Core(s) && oid in s.live && TAccept in s.live[oid].out
    ensures var c := Settle(s.live[oid], TAccept).(acceptBack := true);
      s.live[oid].id == 0 && c.id == 0 && c.pending == 0 && FreedCall(c)
  {
    hide Fits, Of, BoxInv, HistoryOk, Ids, Writes;
    assert LiveCall(s.live[oid], oid, s.shutting);
  }

  lemma AcceptOkIds(s: Server, oid: nat)
    requires Ids(s) && oid in s.live && s.live[oid].id == 0
    ensures Ids(AcceptOk(s, oid))
  {
    hide OnAccept;
  }

  lemma AcceptOkRecord(s: Server, oid: nat, id: nat)
    requires Ids(s) && oid in s.live && s.live[oid].id == 0
    ensures Record(AcceptOk(s, oid), id) ==
      if id == s.nextId then Some(OnAccept(s.live[oid], s.nextId, s.shutting)) else Record(s, id)
  {
    hide OnAccept;
  }

  lemma AcceptOkCounts(s: Server, oid: nat)
    requires Ids(s) && oid in s.live && s.live[oid].id == 0
    ensures |Slots(AcceptOk(s, oid).live)| == |Slots(s.live)| - 1
    ensures |AcceptOk(s, oid).active| == |s.active| + 1
  {
    hide OnAccept, Slots, Ids;
    NextIdFree(s);
    SlotTaken(s.live, oid, OnAccept(s.live[oid], s.nextId, s.shutting));
    ActiveAdd(s.active, s.nextId, oid);
  }

  lemma NextIdFree(s: Server)
    requires Ids(s)
    ensures s.nextId !in s.active && s.nextId != 0
  {
  }

  lemma AcceptedCall(s: Server, oid: nat)
    requires Core(s) && oid in s.live && TAccept in s.live[oid].out
    ensures s.live[oid].id == 0
    ensures LiveCall(OnAccept(s.live[oid], s.nextId, s.shutting), oid, s.shutting)
    ensures Fits(OnAccept(s.live[oid], s.nextId, s.shutting), [])
  {
    hide Of, BoxInv, HistoryOk, Writes, Grows;
    var c := s.live[oid];
    assert LiveCall(c, oid, s.shutting);
    OnAcceptInv(c, s.nextId, s.shutting);
    SlotFits(c, s.shutting);
    FitsAccept(c, s.nextId, s.shutting);
    hide OnAccept, CallInv, Fits;
    assert OnAccept(c, s.nextId, s.shutting).acceptBack by { AcceptBack(c, s.nextId, s.shutting); }
  }

  lemma AcceptBack(c: Call, id: nat, shutting: bool)
    requires c.id == 0
    ensures OnAccept(c, id, shutting).acceptBack && OnAccept(c, id, shutting).oid == c.oid
    ensures OnAccept(c, id, shutting).pending >= c.pending
  {
    hide Grows;
  }

  lemma SlotFits(c: Call, shutting: bool)
    requires CallInv(c, shutting) && c.id == 0
    ensures Fits(c, [])
  {
    hide WritesOk, OpsOk;
  }

  lemma AcceptOkCalls(s: Server, oid: nat)
    requires CallsOk(s) && oid in s.live && s.live[oid].id == 0
    requires LiveCall(OnAccept(s.live[oid], s.nextId, s.shutting), oid, s.shutting)
    ensures CallsOk(AcceptOk(s, oid))
  {
    hide OnAccept, LiveCall, FreedCall;
  }

  lemma AcceptOkCore(s: Server, oid: nat)
    requires Core(s) && oid in s.live && TAccept in s.live[oid].out
    ensures s.live[oid].id == 0 && Core(AcceptOk(s, oid))
  {
    hide Fits, Of, BoxInv, CallsOk, LiveCall, OnAccept, Ids, Record;
    AcceptedCall(s, oid);
    AcceptOkIds(s, oid);
    AcceptOkCalls(s, oid);
    var t := AcceptOk(s, oid);
    NextIdUnused(s);
    forall id: nat ensures HistoryOk(t, id) {
      assert HistoryOk(s, id);
      AcceptOkRecord(s, oid, id);
    }
  }

  lemma NextIdUnused(s: Server)
    requires Core(s)
    ensures Of(s.box.pushed, s.nextId) == []
  {
    hide Of, CallsOk, BoxInv;
    assert HistoryOk(s, s.nextId);
  }

  lemma AcceptOkInv(s: Server, oid: nat)
    requires Inv(s) && oid in s.live && TAccept in s.live[oid].out
    ensures s.live[oid].id == 0
    ensures Inv(Refill(AcceptOk(s, oid))) && (!s.shutting ==> FullyStaffed(Refill(AcceptOk(s, oid))))
  {
    hide Core, Slots, Refill, FullyStaffed;
    AcceptOkCore(s, oid);
    CoreParts(s);
    AcceptOkCounts(s, oid);
    RefillInv(AcceptOk(s, oid));
  }

  /** What a handler leaves is a live call or one with nothing outstanding. */
  lemma HandledCall(c: Call, oid: nat, k: TagKind, ok: bool, shutting: bool)
    requires LiveCall(c, oid, shutting) && k in c.out && k != TAccept
    ensures k == TWrite ==> c.writeQueue != []
    ensures c.id != 0
    ensures var d := OnTag(c, k, ok, shutting);
      && d.id == c.id && (if d.pending == 0 then FreedCall(d) else LiveCall(d, oid, shutting))
  {
    hide Grows, OnTag;
    OnTagInv(c, k, ok, shutting);
    NoTagsOnSlots(c, k);
    var d := OnTag(c, k, ok, shutting);
    PendingCounts(d);
    hide WritesOk, OpsOk, ReadsOk;
  }

  lemma NoTagsOnSlots(c: Call, k: TagKind)
    requires Shape(c) && k in c.out && k != TAccept
    ensures c.id != 0
  {
    hide WritesOk, ReadsOk, OpsOk;
  }

  lemma PendingCounts(c: Call)
    requires Shape(c)
    ensures c.pending >= 0 && (c.pending == 0 ==> c.out == multiset{})
    ensures c.id != 0 ==> c.acceptBack
  {
  }

  lemma CoreLive(s: Server, oid: nat)
    requires Core(s) && oid in s.live
    ensures LiveCall(s.live[oid], oid, s.shutting) && CallInv(s.live[oid], s.shutting)
  {
  }

  lemma HandledCore(s: Server, oid: nat, k: TagKind, ok: bool, a: Arrival)
    requires Core(s) && oid in s.live && k in s.live[oid].out && k != TAccept
    ensures Dereferenceable(s, oid, k)
    ensures var c := s.live[oid]; c.id != 0 && OnTag(c, k, ok, s.shutting).id == c.id
    ensures Core(PutBack(s, oid, OnTag(s.live[oid], k, ok, s.shutting), EventOf(s.live[oid], k, ok, a)))
  {
    hide Core, Fits, Of, LiveCall, FreedCall, CallInv, PutBack, OnTag, EventOf, Grows;
    var c := s.live[oid];
    CoreLive(s, oid);
    LiveFits(s, oid, k);
    HandledCall(c, oid, k, ok, s.shutting);
    var h, ev := Of(s.box.pushed, c.id), EventOf(c, k, ok, a);
    FitsOnTag(c, k, ok, s.shutting, a, h);
    assert h + [] == h;
    PutBackCore(s, oid, OnTag(c, k, ok, s.shutting), ev);
  }

  lemma LiveFits(s: Server, oid: nat, k: TagKind)
    requires Core(s) && oid in s.live && k in s.live[oid].out && k != TAccept
    ensures Fits(s.live[oid], Of(s.box.pushed, s.live[oid].id))
  {
    hide Fits, Of, BoxInv;
    assert LiveCall(s.live[oid], oid, s.shutting);
    NoTagsOnSlots(s.live[oid], k);
    assert HistoryOk(s, s.live[oid].id);
  }

  /** The limits once an object was put back: a freed call makes room that nothing has refilled. */
  predicate LimitsOwed(t: Server, oid: nat) {
    && t.accepts == |Slots(t.live)| && t.accepts <= Max(0, t.window)
    && |t.active| + t.accepts <= Max(0, t.maxActive)
    && (!t.shutting ==> Room(t) - t.accepts <= t.lag + B(oid !in t.live))
  }

  lemma LimitsAfterPutBack(s: Server, oid: nat, c: Call, ev: Option<EventKind>)
    requires Ids(s) && Admission(s) && oid in s.live && c.id == s.live[oid].id && c.id != 0
    ensures LimitsOwed(PutBack(s, oid, c, ev), oid)
    ensures PutBack(s, oid, c, ev).shutting == s.shutting
  {
    hide Ids, Slots, PutBack;
    PutBackCounts(s, oid, c, ev);
    PutBackFrame(s, oid, c, ev);
  }

  lemma AfterHandlerInv(t: Server, oid: nat, k: TagKind)
    requires Core(t) && LimitsOwed(t, oid)
    ensures Inv(AfterHandler(t, oid, k))
    ensures !t.shutting && (k == TDone || k == TFinish) ==> FullyStaffed(AfterHandler(t, oid, k))
  {
    hide Core, Slots, Refill, FullyStaffed;
    if k == TDone || k == TFinish {
      RefillInv(t);
    } else {
      CoreIgnoresCounters(t, t.accepts, if oid in t.live then t.lag else t.lag + 1);
    }
  }

  lemma HandledInv(s: Server, oid: nat, k: TagKind, ok: bool, a: Arrival)
    requires Inv(s) && oid in s.live && k in s.live[oid].out && k != TAccept
    ensures Dereferenceable(s, oid, k)
    ensures Inv(Handled(s, oid, k, ok, a))
    ensures !s.shutting && (k == TDone || k == TFinish) ==> FullyStaffed(Handled(s, oid, k, ok, a))
  {
    hide Core, OnTag, EventOf, PutBack, Admission, LimitsOwed, AfterHandler, FullyStaffed, Grows;
    HandledCore(s, oid, k, ok, a);
    CoreParts(s);
    hide CallsOk, Ids;
    var c, ev := OnTag(s.live[oid], k, ok, s.shutting), EventOf(s.live[oid], k, ok, a);
    LimitsAfterPutBack(s, oid, c, ev);
    AfterHandlerInv(PutBack(s, oid, c, ev), oid, k);
  }

  lemma TagDoneInv(s: Server, oid: nat, k: TagKind, ok: bool, a: Arrival)
    requires Inv(s) && Outstanding(s, oid, k)
    ensures Inv(DoTagDone(s, oid, k, ok, a))
  {
    hide Core, Admission, Handled, AcceptFailed, AcceptOk, Refill, FullyStaffed;
    CoreParts(s);
    TagIsLive(s, oid, k);
    hide CallsOk, Ids;
    if k != TAccept {
      HandledInv(s, oid, k, ok, a);
    } else if ok {
      AcceptOkInv(s, oid);
    } else {
      AcceptFailedInv(s, oid);
    }
  }

  // ---- polls ----

  lemma BoxCore(s: Server, b: Box<EventKind>)
    requires Core(s) && BoxInv(b) && b.pushed == s.box.pushed && (s.closed ==> b.poller.Idle?)
    ensures Core(s.(box := b))
  {
    hide Fits, Of, BoxInv, LiveCall, FreedCall;
    forall id: nat ensures HistoryOk(s.(box := b), id) {
      assert HistoryOk(s, id);
    }
  }

  lemma DeliverKeeps(s: Server, want: Option<nat>, max: int)
    requires Inv(s)
    ensures Inv(s.(box := DeliverBox(s.box, want, max)))
  {
    hide Core, DeliverBox, BoxInv;
    CoreParts(s);
    hide Ids, CallsOk;
    DeliverBoxInv(s.box, want, max);
    BoxCore(s, DeliverBox(s.box, want, max));
  }

  lemma DeliverTakes(s: Server, want: Option<nat>, max: int)
    ensures Deliver(s, want, max).box.delivered == s.box.delivered + FirstMatching(s.box.ready, want, max)
    ensures Deliver(s, want, max).box.ready == RemoveFirst(s.box.ready, want, max)
    ensures Deliver(s, want, max).box.pushed == s.box.pushed
  {
    hide FirstMatching, RemoveFirst, DeliverBox;
    DeliverBoxTakes(s.box, want, max);
  }

  /** A run that is in progress, and the section that ends the poll, make a whole poll. */
  lemma PollEnds(s: Server, acts: seq<Action>, last: Action, want: Option<nat>, max: int, timeout: int)
    requires ValidRun(s, acts) && Enabled(Exec(s, acts), last) && (timeout == 0 ==> acts == [])
    requires Waited(acts, want, max, timeout) && IsLast(acts, last, want, max, timeout)
    requires Apply(Exec(s, acts), last) == Deliver(Exec(s, acts), want, max)
    requires Exec(s, acts).box.delivered == s.box.delivered
    ensures ValidRun(s, acts + [last]) && Exec(s, acts + [last]) == Deliver(Exec(s, acts), want, max)
    ensures PollRun(acts + [last], want, max, timeout)
    ensures PollGives(s, acts + [last], want, max, FirstMatching(Exec(s, acts).box.ready, want, max))
  {
    hide Apply, Enabled, Waited, IsLast, Deliver, FirstMatching, RemoveFirst;
    assert (acts + [last])[..|acts|] == acts;
    ExecSnoc(s, acts, last);
    DeliverTakes(Exec(s, acts), want, max);
  }

  lemma ParkKeeps(s: Server, want: Option<nat>, max: int, arrivals: nat, wakeups: nat)
    requires Inv(s) && !s.closed && !HaveMatch(s.box.ready, want) && wakeups <= arrivals
    ensures Inv(s.(box := Park(s.box, want, max, arrivals, wakeups)))
  {
    hide Core, Of;
    CoreParts(s);
    hide Ids, CallsOk;
    ParkArms(s.box, want, max, arrivals, wakeups);
    BoxCore(s, Park(s.box, want, max, arrivals, wakeups));
  }

  // ---- every action ----

  lemma WaitingIsOpen(s: Server)
    requires Core(s) && s.box.poller.Waiting?
    ensures !s.closed && 1 <= s.box.capacity
    ensures Readable(s.box) ==> s.box.poller.wakeups + 1 <= s.box.poller.arrivals
  {
  }

  lemma ApplyInv(s: Server, act: Action)
    requires Inv(s) && Enabled(s, act)
    ensures Inv(Apply(s, act))
  {
    hide Inv, DeliverBox, DoTagDone, DoReply, DoFinish, DoRead, DoSend;
    match act
    case ReplyTo(id, final) => ReplyToInv(s, id, final);
    case FinishCall(id, code, drain) => FinishCallInv(s, id, code, drain);
    case ReadFrom(id) => ReadFromInv(s, id);
    case SendTo(id, bytes) => SendToInv(s, id, bytes);
    case TagDone(oid, k, ok, a) => TagDoneInv(s, oid, k, ok, a);
    case PollEnter(want, max, timeout, expired) =>
      if timeout != 0 && !HaveMatch(s.box.ready, want) && !(timeout > 0 && expired) {
        ParkKeeps(s, want, max, 0, 0);
      } else {
        DeliverKeeps(s, want, max);
      }
    case PollReadable(expired) =>
      var Waiting(want, max, arrivals, wakeups) := s.box.poller;
      assert Core(s) by { InvCore(s); }
      WaitingIsOpen(s);
      if !HaveMatch(s.box.ready, want) && !expired {
        ParkKeeps(s, want, max, arrivals, wakeups + 1);
      } else {
        DeliverKeeps(s, want, max);
      }
    case PollOver => DeliverKeeps(s, s.box.poller.want, s.box.poller.max);
    case Shutdown => ShutdownInv(s);
  }

  lemma InvCore(s: Server)
    requires Inv(s)
    ensures Core(s) && Admission(s)
  {
  }

  /** The invariant holds after every finite run of the server. */
  lemma {:induction false} RunInv(window: int, maxActive: int, capacity: nat, acts: seq<Action>)
    requires 1 <= capacity && ValidRun(Init(window, maxActive, capacity), acts)
    ensures Inv(Exec(Init(window, maxActive, capacity), acts))
  {
    hide Inv, Init, Apply;
    if acts == [] {
      InitInv(window, maxActive, capacity);
    } else {
      var n := |acts| - 1;
      RunInv(window, maxActive, capacity, acts[..n]);
      ApplyInv(Exec(Init(window, maxActive, capacity), acts[..n]), acts[n]);
    }
  }
}
