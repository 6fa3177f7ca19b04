/** The accept window is not always maximal: the read and write branches free a call without posting
    new accepts. For every pair of limits some run ends with nothing live and no accept slot, and from
    there on the server accepts nothing more, ever. */
module ServerWedge {
  import opened Common
  import opened Events
  import opened Mailbox
  import opened ServerCall
  import opened ServerModel
  import opened ServerInv
  import opened ServerRuns

  /** Open, with room for slots, yet with no call and no slot: nothing is left that could refill. */
  predicate Wedged(s: Server) {
    !s.shutting && Room(s) >= 1 && s.accepts == 0 && s.live == map[] && s.active == map[]
  }

  // ---- once wedged, always wedged ----

  lemma NothingOwed(s: Server, oid: nat, k: TagKind)
    requires Inv(s) && s.live == map[]
    ensures !Outstanding(s, oid, k)
  {
    hide HistoryOk, Shape;
  }

  lemma EmptyStaysEmpty(s: Server, act: Action)
    requires Inv(s) && s.live == map[] && s.active == map[] && Enabled(s, act)
    ensures Apply(s, act).live == map[] && Apply(s, act).active == map[]
  {
    hide Inv, DeliverBox, HaveMatch;
    if act.TagDone? {
      NothingOwed(s, act.oid, act.kind);
    }
  }

  /** From a wedged state no run, of any length, ever accepts another call. */
  lemma {:induction false} WedgedForever(s: Server, acts: seq<Action>)
    requires Inv(s) && Wedged(s) && ValidRun(s, acts)
    ensures Inv(Exec(s, acts)) && Exec(s, acts).live == map[] && Exec(s, acts).active == map[]
  {
    hide Inv, Apply;
    if acts != [] {
      var n := |acts| - 1;
      WedgedForever(s, acts[..n]);
      ApplyInv(Exec(s, acts[..n]), acts[n]);
      EmptyStaysEmpty(Exec(s, acts[..n]), acts[n]);
    }
  }

  // ---- how it gets there ----

  const NOTHING := Arrival(None)

  /** An accepted call whose first read has not come back. */
  predicate Untouched(c: Call) {
    c.id != 0 ==> TRead in c.out && !c.delivered && !c.dead
  }

  /** An open server all of whose calls still wait for their first read. */
  ghost predicate Quiet(s: Server) {
    && Inv(s) && !s.shutting && s.window >= 1 && s.maxActive >= 1
    && forall o :: o in s.live ==> Untouched(s.live[o])
  }

  /** New objects of a refill are slots. */
  lemma {:induction false} RefillAddsSlots(s: Server)
    ensures var t := PostAccepts(s);
      && t.active == s.active && t.maxActive == s.maxActive && t.window == s.window
      && forall o :: o in t.live ==> (o in s.live && t.live[o] == s.live[o]) || t.live[o].id == 0
    decreases s.window - s.accepts
  {
    if HasRoom(s) {
      RefillAddsSlots(AddSlot(s));
    }
  }

  lemma AcceptUntouched(c: Call, id: nat)
    requires c.id == 0 && CallInv(c, false)
    ensures Untouched(OnAccept(c, id, false))
  {
    hide Grows, WritesOk, OpsOk;
  }

  /** A fully staffed server below its call limit has a slot whose accept can match. */
  lemma SlotExists(s: Server) returns (o: nat)
    requires Quiet(s) && FullyStaffed(s) && |s.active| < s.maxActive
    ensures o in s.live && s.live[o].id == 0 && TAccept in s.live[o].out
  {
    assert Slots(s.live) != {};
    o :| o in Slots(s.live);
    CoreLive(s, o);
    hide Core, WritesOk, OpsOk, ReadsOk;
  }

  lemma AcceptFacts(s: Server, o: nat)
    requires Inv(s) && !s.shutting && o in s.live && s.live[o].id == 0 && TAccept in s.live[o].out
    ensures Inv(Refill(AcceptOk(s, o))) && FullyStaffed(Refill(AcceptOk(s, o)))
    ensures Untouched(OnAccept(s.live[o], s.nextId, false))
    ensures |AcceptOk(s, o).active| == |s.active| + 1
    ensures Outstanding(s, o, TAccept)
  {
    hide Core, CallInv, OnAccept, Refill, Admission, FullyStaffed, Untouched, AcceptOk, Ids, CallsOk;
    CoreLive(s, o);
    AcceptOkInv(s, o);
    AcceptUntouched(s.live[o], s.nextId);
    CoreParts(s);
    AcceptOkCounts(s, o);
  }

  lemma AcceptOne(s: Server, o: nat)
    requires Quiet(s) && o in s.live && s.live[o].id == 0 && TAccept in s.live[o].out
    ensures var t := DoTagDone(s, o, TAccept, true, NOTHING);
      && Quiet(t) && FullyStaffed(t) && |t.active| == |s.active| + 1 && t.maxActive == s.maxActive
  {
    hide Inv, OnAccept, PostAccepts, FullyStaffed, Untouched;
    AcceptFacts(s, o);
    RefillAddsSlots(AcceptOk(s, o));
    SlotsUntouched(Refill(AcceptOk(s, o)));
    PostAcceptsOpen(AcceptOk(s, o));
  }

  lemma {:induction false} PostAcceptsOpen(s: Server)
    ensures PostAccepts(s).shutting == s.shutting
    decreases s.window - s.accepts
  {
    if HasRoom(s) {
      PostAcceptsOpen(AddSlot(s));
    }
  }

  lemma SlotsUntouched(s: Server)
    ensures forall o :: o in s.live && s.live[o].id == 0 ==> Untouched(s.live[o])
  {
  }

  /** First every place is taken: RPCs keep arriving until the call limit is reached. */
  lemma {:induction false} TakeEveryPlace(s: Server) returns (acts: seq<Action>)
    requires Quiet(s) && FullyStaffed(s) && |s.active| <= s.maxActive
    ensures ValidRun(s, acts) && Quiet(Exec(s, acts)) && FullyStaffed(Exec(s, acts))
    ensures |Exec(s, acts).active| == s.maxActive == Exec(s, acts).maxActive
    decreases s.maxActive - |s.active|
  {
    hide Quiet, FullyStaffed, DoTagDone;
    acts := [];
    if |s.active| < s.maxActive {
      var o := SlotExists(s);
      AcceptOne(s, o);
      var act := TagDone(o, TAccept, true, NOTHING);
      ExecSnoc(s, [], act);
      assert [] + [act] == [act];
      var rest := TakeEveryPlace(Apply(s, act));
      ExecConcat(s, [act], rest);
      acts := [act] + rest;
    }
  }

  // ---- then every peer goes away before its first message was read ----

  /** The objects whose done tag is still owed. */
  function AwaitingDone(s: Server): set<nat> {
    set o | o in s.live && TDone in s.live[o].out
  }

  ghost predicate Full(s: Server) {
    Quiet(s) && |s.active| == s.maxActive && s.accepts == 0
  }

  lemma FullHasNoRoom(s: Server)
    requires Quiet(s) && FullyStaffed(s) && |s.active| == s.maxActive
    ensures Full(s)
  {
    hide Inv, Untouched;
  }

  lemma DoneUntouched(c: Call)
    requires CallInv(c, false) && Untouched(c) && c.id != 0 && TDone in c.out
    ensures var d := OnDone(c);
      && Untouched(d) && d.pending == 1 && TDone !in d.out && EventOf(c, TDone, true, NOTHING) == None
  {
    hide Grows, WritesOk, OpsOk, ReadsOk;
  }

  lemma DoneFacts(s: Server, o: nat)
    requires Full(s) && o in AwaitingDone(s)
    ensures s.live[o].id != 0 && Untouched(OnDone(s.live[o])) && TDone !in OnDone(s.live[o]).out
    ensures DoTagDone(s, o, TDone, true, NOTHING) == s.(live := s.live[o := OnDone(s.live[o])], lag := 0)
  {
    hide Core, CallInv, OnDone, EventOf, Untouched, DoTagDone, Shape, Admission;
    CoreLive(s, o);
    LiveShape(s.live[o], o, false);
    NoTagsOnSlots(s.live[o], TDone);
    DoneUntouched(s.live[o]);
    DoneLive(s, o);
  }

  lemma DoneOne(s: Server, o: nat)
    requires Full(s) && o in AwaitingDone(s)
    ensures Outstanding(s, o, TDone)
    ensures var t := DoTagDone(s, o, TDone, true, NOTHING);
      Full(t) && AwaitingDone(t) == AwaitingDone(s) - {o} && t.active == s.active
  {
    hide Inv, OnDone, Untouched, DoTagDone;
    DoneFacts(s, o);
    ApplyInv(s, TagDone(o, TDone, true, NOTHING));
  }

  lemma DoneLive(s: Server, o: nat)
    requires o in s.live && s.live[o].id != 0 && |s.active| == s.maxActive && s.accepts == 0
    requires OnDone(s.live[o]).pending == 1 && EventOf(s.live[o], TDone, true, NOTHING) == None
    ensures DoTagDone(s, o, TDone, true, NOTHING)
         == s.(live := s.live[o := OnDone(s.live[o])], lag := 0)
  {
    hide OnDone, EventOf;
  }

  lemma {:induction false} EveryPeerLeaves(s: Server) returns (acts: seq<Action>)
    requires Full(s)
    ensures ValidRun(s, acts) && Full(Exec(s, acts)) && AwaitingDone(Exec(s, acts)) == {}
    decreases AwaitingDone(s)
  {
    hide Full, DoTagDone, AwaitingDone;
    acts := [];
    if o :| o in AwaitingDone(s) {
      DoneOne(s, o);
      var act := TagDone(o, TDone, true, NOTHING);
      ExecSnoc(s, [], act);
      assert [] + [act] == [act];
      var rest := EveryPeerLeaves(Apply(s, act));
      ExecConcat(s, [act], rest);
      acts := [act] + rest;
    }
  }

  // ---- and the reads come back last ----

  /** Only reads are owed, each the last tag of its call. */
  ghost predicate OnlyReads(s: Server) {
    && Inv(s) && !s.shutting && s.window >= 1 && s.maxActive >= 1 && s.accepts == 0
    && forall o :: o in s.live ==> s.live[o].id != 0 && Untouched(s.live[o]) && s.live[o].pending == 1
  }

  lemma DoneLeavesReads(s: Server)
    requires Full(s) && AwaitingDone(s) == {}
    ensures OnlyReads(s)
  {
    forall o | o in s.live ensures s.live[o].id != 0 && Untouched(s.live[o]) && s.live[o].pending == 1 {
      assert o !in AwaitingDone(s);
      NoSlots(s, o);
      CoreLive(s, o);
      LonelyRead(s.live[o], o);
    }
    hide Inv;
  }

  lemma NoSlots(s: Server, o: nat)
    requires Inv(s) && s.accepts == 0 && o in s.live
    ensures s.live[o].id != 0
  {
    assert Slots(s.live) == {};
    assert o !in Slots(s.live);
  }

  lemma LonelyRead(c: Call, o: nat)
    requires LiveCall(c, o, false) && Untouched(c) && c.id != 0 && TDone !in c.out
    ensures c.pending == 1
  {
    hide WritesOk, OpsOk, ReadsOk;
  }

  lemma FailedRead(c: Call)
    requires CallInv(c, false) && Untouched(c) && c.id != 0 && c.pending == 1
    ensures OnRead(c, false).pending == 0 && OnRead(c, false).id == c.id
    ensures EventOf(c, TRead, false, NOTHING) == None && TRead in c.out
  {
    hide Grows, WritesOk, OpsOk, ReadsOk;
  }

  lemma ReadLive(s: Server, o: nat)
    requires o in s.live && s.live[o].id != 0 && OnRead(s.live[o], false).pending == 0
    requires EventOf(s.live[o], TRead, false, NOTHING) == None
    ensures var t := DoTagDone(s, o, TRead, false, NOTHING);
      && t.live == s.live - {o} && t.accepts == s.accepts && t.window == s.window && t.maxActive == s.maxActive
      && t.shutting == s.shutting
  {
    hide OnRead, EventOf;
    assert s.live[o := OnRead(s.live[o], false)] - {o} == s.live - {o};
  }

  lemma ReadFacts(s: Server, o: nat)
    requires OnlyReads(s) && o in s.live
    ensures TRead in s.live[o].out && OnRead(s.live[o], false).pending == 0
    ensures EventOf(s.live[o], TRead, false, NOTHING) == None
  {
    hide Core, CallInv, OnRead, EventOf, Untouched, Shape, Admission;
    CoreLive(s, o);
    FailedRead(s.live[o]);
  }

  lemma ReadOne(s: Server, o: nat)
    requires OnlyReads(s) && o in s.live
    ensures Outstanding(s, o, TRead)
    ensures var t := DoTagDone(s, o, TRead, false, NOTHING);
      OnlyReads(t) && t.live == s.live - {o} && t.window == s.window && t.maxActive == s.maxActive
  {
    hide Inv, OnRead, EventOf, Untouched, DoTagDone;
    ReadFacts(s, o);
    ReadLive(s, o);
    ApplyInv(s, TagDone(o, TRead, false, NOTHING));
  }

  lemma NothingActive(s: Server)
    requires OnlyReads(s) && s.live == map[]
    ensures Wedged(s)
  {
    hide CallsOk, HistoryOk, BoxInv;
    assert s.active == map[];
  }

  lemma {:induction false} ReadsComeBackLast(s: Server) returns (acts: seq<Action>)
    requires OnlyReads(s)
    ensures ValidRun(s, acts) && Wedged(Exec(s, acts))
    decreases s.live.Keys
  {
    hide OnlyReads, DoTagDone, Wedged;
    acts := [];
    if o :| o in s.live {
      ReadOne(s, o);
      var act := TagDone(o, TRead, false, NOTHING);
      ExecSnoc(s, [], act);
      assert [] + [act] == [act];
      var rest := ReadsComeBackLast(Apply(s, act));
      ExecConcat(s, [act], rest);
      acts := [act] + rest;
    } else {
      assert s.live == map[];
      NothingActive(s);
    }
  }

  // ---- the result ----

  lemma InitQuiet(window: int, maxActive: int)
    requires window >= 1 && maxActive >= 1
    ensures var s := Init(window, maxActive, 1);
      Quiet(s) && FullyStaffed(s) && s.active == map[] && s.maxActive == maxActive
  {
    hide Inv, PostAccepts, Untouched, FullyStaffed;
    InitInv(window, maxActive, 1);
    RefillAddsSlots(Blank(window, maxActive, 1));
    PostAcceptsOpen(Blank(window, maxActive, 1));
    SlotsUntouched(Init(window, maxActive, 1));
  }

  /** Whatever limits the server is created with, some run wedges it: every place is taken, every peer
      goes away before its first message is read, and the reads come back last. */
  lemma EveryServerCanWedge(window: int, maxActive: int) returns (acts: seq<Action>)
    requires window >= 1 && maxActive >= 1
    ensures ValidRun(Init(window, maxActive, 1), acts) && Wedged(Exec(Init(window, maxActive, 1), acts))
  {
    hide Quiet, Full, OnlyReads, Init, FullyStaffed, Wedged;
    var s := Init(window, maxActive, 1);
    InitQuiet(window, maxActive);
    var a := TakeEveryPlace(s);
    FullHasNoRoom(Exec(s, a));
    var b := EveryPeerLeaves(Exec(s, a));
    ExecConcat(s, a, b);
    DoneLeavesReads(Exec(s, a + b));
    var c := ReadsComeBackLast(Exec(s, a + b));
    ExecConcat(s, a + b, c);
    acts := a + b + c;
  }

  // ---- exactly which steps do it ----

  lemma EmptyCounts(s: Server)
    requires Ids(s)
    ensures s.live == map[] ==> |Slots(s.live)| == 0 && |s.active| == 0
  {
    assert s.live == map[] ==> Slots(s.live) == {} && s.active == map[];
  }

  lemma FullIsNotEmpty(s: Server)
    requires Inv(s) && !s.shutting && FullyStaffed(s) && s.window >= 1 && s.maxActive >= 1
    ensures s.live != map[]
  {
    CoreParts(s);
    EmptyCounts(s);
    hide Core, CallsOk, Ids, Slots;
  }

  lemma RefillKeepsLimits(s: Server)
    ensures Refill(s).window == s.window && Refill(s).maxActive == s.maxActive && Refill(s).shutting == s.shutting
  {
    RefillAddsSlots(s);
    PostAcceptsOpen(s);
  }

  /** Whether this completion is the last a call waited for: nothing else is outstanding and, for a write
      that went well, neither another write nor a terminal follows it. */
  predicate Frees(c: Call, k: TagKind, ok: bool) {
    c.pending == 1 && (k == TWrite ==> !ok || c.dead || (|c.writeQueue| == 1 && !c.replied))
  }

  lemma HandlerFrees(c: Call, k: TagKind, ok: bool)
    requires CallInv(c, false) && k in c.out && k != TAccept && (k == TWrite ==> c.writeQueue != [])
    ensures OnTag(c, k, ok, false).pending == 0 <==> Frees(c, k, ok)
  {
    hide Grows, SameObject, SameTold, OnRead, OnWrite, OnDone, OnFinish, CallInv;
    match k
    case TWrite => WriteFrees(c, ok);
    case _ => OthersFree(c, k, ok);
  }

  lemma OthersFree(c: Call, k: TagKind, ok: bool)
    requires k == TRead || k == TDone || k == TFinish
    ensures OnTag(c, k, ok, false).pending == c.pending - 1
  {
    hide Grows;
  }

  lemma PumpPending(d: Call)
    requires !d.dead && !d.finishPosted && !d.writeInflight
    ensures Pump(d, false).pending == d.pending + B(d.writeQueue != [] || d.replied)
  {
    hide Grows, SameObject, SameTold;
  }

  lemma WriteIsInFlight(c: Call)
    requires CallInv(c, false) && TWrite in c.out
    ensures c.writeInflight && !c.finishPosted
  {
    hide WritesOk, ReadsOk, OpsOk, Driven;
  }

  lemma WriteFrees(c: Call, ok: bool)
    requires CallInv(c, false) && TWrite in c.out && c.writeQueue != []
    ensures OnWrite(c, ok, false).pending == 0 <==> Frees(c, TWrite, ok)
  {
    WriteIsInFlight(c);
    hide Grows, SameObject, SameTold, CallInv, Pump;
    var d := Settle(c, TWrite).(writeInflight := false);
    if ok && !d.dead {
      PumpPending(d.(writeQueue := d.writeQueue[1..], completed := d.completed + [d.writeQueue[0]]));
    }
  }

  /** A step leaves an open server with nothing live exactly when it frees the only object through a
      branch that does not refill: a failed accept, or a read or write completion. */
  lemma WedgeIff(s: Server, oid: nat, k: TagKind, ok: bool, a: Arrival)
    requires Reachable(s) && !s.shutting && s.window >= 1 && s.maxActive >= 1
    requires Outstanding(s, oid, k)
    ensures Dereferenceable(s, oid, k)
    ensures DoTagDone(s, oid, k, ok, a).live == map[] <==>
      s.live.Keys == {oid}
      && ((k == TAccept && !ok) || ((k == TRead || k == TWrite) && Frees(s.live[oid], k, ok)))
  {
    hide Inv, Reachable, DoTagDone, OnTag, Frees;
    ReachableInv(s);
    EmptiesIff(s, oid, k, ok, a);
    if k != TAccept {
      LiveFrees(s, oid, k, ok);
    }
  }

  lemma LiveFrees(s: Server, oid: nat, k: TagKind, ok: bool)
    requires Inv(s) && !s.shutting && Outstanding(s, oid, k) && k != TAccept
    ensures Dereferenceable(s, oid, k) && s.live[oid].id != 0
    ensures OnTag(s.live[oid], k, ok, false).pending == 0 <==> Frees(s.live[oid], k, ok)
  {
    hide Core, Admission, OnTag, Frees, CallInv, LiveCall;
    CoreParts(s);
    TagIsLive(s, oid, k);
    hide CallsOk, Ids;
    CoreLive(s, oid);
    CallNotSlot(s.live[oid], k);
    HandlerFrees(s.live[oid], k, ok);
  }

  lemma CallNotSlot(c: Call, k: TagKind)
    requires CallInv(c, false) && k in c.out && k != TAccept
    ensures c.id != 0
  {
    hide WritesOk, ReadsOk, OpsOk, Driven;
  }

  lemma EmptiesIff(s: Server, oid: nat, k: TagKind, ok: bool, a: Arrival)
    requires Inv(s) && !s.shutting && s.window >= 1 && s.maxActive >= 1
    requires Outstanding(s, oid, k)
    ensures Dereferenceable(s, oid, k)
    ensures DoTagDone(s, oid, k, ok, a).live == map[] <==>
      s.live.Keys == {oid}
      && ((k == TAccept && !ok)
          || ((k == TRead || k == TWrite) && OnTag(s.live[oid], k, ok, false).pending == 0))
  {
    hide Core, Admission, FullyStaffed, OnTag, EventOf, PutBack, AcceptOk, Refill;
    CoreParts(s);
    TagIsLive(s, oid, k);
    hide CallsOk, Ids;
    if k == TAccept && ok {
      AcceptOkInv(s, oid);
      AcceptOkLimits(s, oid);
      RefillKeepsLimits(AcceptOk(s, oid));
      FullIsNotEmpty(Refill(AcceptOk(s, oid)));
    } else if k == TAccept {
      FailedFrees(s, oid);
    } else {
      var d, ev := OnTag(s.live[oid], k, ok, s.shutting), EventOf(s.live[oid], k, ok, a);
      PutBackFrame(s, oid, d, ev);
      if k == TDone || k == TFinish {
        HandledInv(s, oid, k, ok, a);
        RefillKeepsLimits(PutBack(s, oid, d, ev));
        FullIsNotEmpty(Handled(s, oid, k, ok, a));
      } else {
        PutBackLive(s, oid, d, ev);
      }
    }
  }

  // ---- the accept window ----

  /** Which completions leave the accept window short of what the limits allow: a failed accept, and a
      read or write that frees its call while the window was held back by the calls. */
  predicate LeavesShort(s: Server, oid: nat, k: TagKind, ok: bool)
    requires oid in s.live
  {
    || (k == TAccept && !ok)
    || ((k == TRead || k == TWrite) && Frees(s.live[oid], k, ok) && s.window > s.maxActive - |s.active|)
  }

  /** The documentation has accept slots kept outstanding. From an open server that has as many as its
      limits allow, a completion leaves as many as its limits allow if and only if it is none of these. */
  lemma WindowKeptIff(s: Server, oid: nat, k: TagKind, ok: bool, a: Arrival)
    requires Reachable(s) && !s.shutting && s.window >= 1 && s.maxActive >= 1
    requires FullyStaffed(s) && Outstanding(s, oid, k)
    ensures Dereferenceable(s, oid, k)
    ensures FullyStaffed(DoTagDone(s, oid, k, ok, a)) <==> !LeavesShort(s, oid, k, ok)
  {
    hide Inv, Reachable, DoTagDone, OnTag, Frees, FullyStaffed, Outstanding;
    ReachableInv(s);
    OutstandingIsLive(s, oid, k);
    if k == TDone || k == TFinish || (k == TAccept && ok) {
      RefillIsMaximal(s, oid, k, ok, a);
    } else if k == TAccept {
      FailedLeavesShort(s, oid, ok, a);
    } else {
      LiveFrees(s, oid, k, ok);
      FreeLeavesShort(s, oid, k, ok, a);
    }
  }

  lemma OutstandingIsLive(s: Server, oid: nat, k: TagKind)
    requires Inv(s) && Outstanding(s, oid, k)
    ensures Dereferenceable(s, oid, k) && k in s.live[oid].out
  {
    CoreParts(s);
    hide Inv, Core, Ids;
    TagIsLive(s, oid, k);
  }

  lemma FailedLeavesShort(s: Server, oid: nat, ok: bool, a: Arrival)
    requires Inv(s) && !s.shutting && s.window >= 1 && s.maxActive >= 1 && FullyStaffed(s) && !ok
    requires Dereferenceable(s, oid, TAccept) && TAccept in s.live[oid].out
    ensures !FullyStaffed(DoTagDone(s, oid, TAccept, ok, a))
  {
    hide Core, PutBack, Slots;
    FailedSlot(s, oid);
    var c := Settle(s.live[oid], TAccept).(acceptBack := true);
    CoreParts(s);
    PutBackCounts(s, oid, c, None);
    PutBackFrame(s, oid, c, None);
    HasSlot(s, oid);
    hide Ids, CallsOk;
  }

  lemma HasSlot(s: Server, oid: nat)
    requires oid in s.live && s.live[oid].id == 0
    ensures |Slots(s.live)| >= 1
  {
    assert oid in Slots(s.live);
  }

  lemma FreeLeavesShort(s: Server, oid: nat, k: TagKind, ok: bool, a: Arrival)
    requires Inv(s) && !s.shutting && s.window >= 1 && s.maxActive >= 1 && FullyStaffed(s)
    requires Dereferenceable(s, oid, k) && s.live[oid].id != 0 && (k == TRead || k == TWrite)
    requires OnTag(s.live[oid], k, ok, false).pending == 0 <==> Frees(s.live[oid], k, ok)
    ensures FullyStaffed(DoTagDone(s, oid, k, ok, a)) <==> !LeavesShort(s, oid, k, ok)
  {
    hide Inv, DoTagDone, OnTag, Frees;
    HandledLimits(s, oid, k, ok, a);
    WithinLimits(s);
  }

  lemma WithinLimits(s: Server)
    requires Inv(s)
    ensures |s.active| + s.accepts <= Max(0, s.maxActive)
  {
    hide Core;
  }

  lemma HandledLimits(s: Server, oid: nat, k: TagKind, ok: bool, a: Arrival)
    requires Inv(s) && !s.shutting
    requires Dereferenceable(s, oid, k) && s.live[oid].id != 0 && (k == TRead || k == TWrite)
    ensures var t := DoTagDone(s, oid, k, ok, a);
      && t.accepts == s.accepts && t.window == s.window && t.maxActive == s.maxActive
      && |t.active| == |s.active| - B(OnTag(s.live[oid], k, ok, false).pending == 0)
  {
    hide Core, Admission, PutBack, Slots, OnTag, EventOf, Grows;
    var d, ev := OnTag(s.live[oid], k, ok, false), EventOf(s.live[oid], k, ok, a);
    CoreParts(s);
    PutBackCounts(s, oid, d, ev);
    PutBackFrame(s, oid, d, ev);
    hide Ids, CallsOk;
  }

  lemma AcceptOkLimits(s: Server, oid: nat)
    requires oid in s.live && s.live[oid].id == 0
    ensures var t := AcceptOk(s, oid); t.window == s.window && t.maxActive == s.maxActive && t.shutting == s.shutting
  {
    hide OnAccept;
  }

  lemma PutBackLive(s: Server, oid: nat, c: Call, ev: Option<EventKind>)
    requires oid in s.live
    ensures PutBack(s, oid, c, ev).live == if c.pending == 0 then s.live - {oid} else s.live[oid := c]
    ensures PutBack(s, oid, c, ev).live == map[] <==> c.pending == 0 && s.live.Keys == {oid}
  {
    hide Push;
    assert s.live[oid := c] - {oid} == s.live - {oid};
    assert oid in s.live[oid := c];
    assert (s.live - {oid}).Keys == s.live.Keys - {oid};
    assert s.live - {oid} == map[] <==> (s.live - {oid}).Keys == {};
  }

  lemma FailedFrees(s: Server, oid: nat)
    requires Inv(s) && oid in s.live && TAccept in s.live[oid].out
    ensures AcceptFailed(s, oid).live == map[] <==> s.live.Keys == {oid}
  {
    hide Core, PutBack;
    FailedSlot(s, oid);
    PutBackLive(s, oid, Settle(s.live[oid], TAccept).(acceptBack := true), None);
  }
}
