/** Closing a server: once `shutting` is set nothing is posted, the completion queue drains, and by
    then every call object ever created, accept slots included, has been deleted exactly once. */
module ServerShutdown {
  import opened Common
  import opened Events
  import opened Mailbox
  import opened ServerCall
  import opened ServerModel
  import opened ServerInv
  import opened ServerRuns
  import opened Sums

  /** What the completion queue owes or may come to owe one object: its outstanding tags, and for an
      accept slot also the done tag that goes live if its accept matches. */
  function Debt(c: Call): nat {
    |c.out| + if c.acceptBack then 0 else 1
  }

  function Debts(live: map<nat, Call>): map<nat, nat> {
    map o | o in live :: Debt(live[o])
  }

  ghost function TotalDebt(s: Server): nat {
    Sum(Debts(s.live))
  }

  lemma DebtPut(live: map<nat, Call>, o: nat, c: Call)
    requires o in live
    ensures Sum(Debts(live[o := c])) + Debt(live[o]) == Sum(Debts(live)) + Debt(c)
  {
    hide Debt;
    SumUpdate(Debts(live), o, Debt(c));
    assert Debts(live[o := c]) == Debts(live)[o := Debt(c)];
  }

  lemma DebtRemove(live: map<nat, Call>, o: nat)
    requires o in live
    ensures Sum(Debts(live)) == Debt(live[o]) + Sum(Debts(live - {o}))
  {
    hide Debt;
    SumRemove(Debts(live), o);
    assert Debts(live - {o}) == Debts(live) - {o};
  }

  lemma DebtAfterPutBack(s: Server, oid: nat, c: Call, ev: Option<EventKind>)
    requires oid in s.live && (c.pending == 0 ==> Debt(c) == 0)
    ensures TotalDebt(PutBack(s, oid, c, ev)) + Debt(s.live[oid]) == TotalDebt(s) + Debt(c)
  {
    hide Push, Debt, Sum, Debts;
    DebtPut(s.live, oid, c);
    if c.pending == 0 {
      DebtRemove(s.live[oid := c], oid);
    }
  }

  // ---- a shutting server posts nothing ----

  lemma NoRefill(s: Server)
    requires s.shutting
    ensures Refill(s) == s.(lag := 0)
  {
  }

  lemma SlotDebt(c: Call)
    requires Shape(c) && TAccept in c.out && c.id == 0
    ensures Debt(c) == 2
    ensures Debt(OnAccept(c, 1, true)) == 1
    ensures forall id: nat :: OnAccept(c, id, true).out == OnAccept(c, 1, true).out
    ensures forall id: nat :: OnAccept(c, id, true).acceptBack
    ensures Debt(Settle(c, TAccept).(acceptBack := true)) == 0
  {
    hide Grows, WritesOk, OpsOk, ReadsOk;
  }

  lemma HandledDebt(c: Call, k: TagKind, ok: bool)
    requires Shape(c) && k in c.out && k != TAccept && (k == TWrite ==> c.writeQueue != [])
    ensures OnTag(c, k, ok, true).acceptBack && c.acceptBack
    ensures Debt(OnTag(c, k, ok, true)) == Debt(c) - 1
  {
    NoTagsOnSlots(c, k);
    ShapeAccepted(c);
    assert CallInv(c, true);
    OnTagInv(c, k, ok, true);
    ShapeAccepted(OnTag(c, k, ok, true));
    hide CallInv, OnTag, Shape, Grows;
  }

  lemma ShapeAccepted(c: Call)
    requires Shape(c)
    ensures c.id != 0 ==> c.acceptBack
    ensures c.pending == |c.out|
  {
  }

  lemma AcceptDebt(s: Server, oid: nat, ok: bool)
    requires Inv(s) && s.shutting && oid in s.live && s.live[oid].id == 0 && TAccept in s.live[oid].out
    ensures var t := if ok then Refill(AcceptOk(s, oid)) else AcceptFailed(s, oid);
      TotalDebt(t) == TotalDebt(s) - (if ok then 1 else 2)
  {
    hide Inv, Debt, Debts, Sum, OnAccept, Settle, CallInv;
    CoreLiveOf(s, oid);
    var c := s.live[oid];
    SlotDebt(c);
    if ok {
      NoRefill(AcceptOk(s, oid));
      DebtPut(s.live, oid, OnAccept(c, s.nextId, true));
      SameDebt(OnAccept(c, s.nextId, true), OnAccept(c, 1, true));
    } else {
      DebtAfterPutBack(s, oid, Settle(c, TAccept).(acceptBack := true), None);
    }
  }

  lemma SameDebt(c: Call, d: Call)
    requires c.out == d.out && c.acceptBack && d.acceptBack
    ensures Debt(c) == Debt(d)
  {
  }

  lemma CoreLiveOf(s: Server, oid: nat)
    requires Inv(s) && oid in s.live
    ensures Shape(s.live[oid]) && s.live[oid].pending >= 1
  {
    CoreLive(s, oid);
    LiveShape(s.live[oid], oid, s.shutting);
    hide Core, Shape, CallInv;
  }

  lemma HandlerDebt(s: Server, oid: nat, k: TagKind, ok: bool, a: Arrival)
    requires Inv(s) && s.shutting && Dereferenceable(s, oid, k) && k in s.live[oid].out && k != TAccept
    ensures TotalDebt(Handled(s, oid, k, ok, a)) == TotalDebt(s) - 1
  {
    hide Inv, Debts, Sum, OnTag, EventOf, PutBack, Shape, Grows;
    CoreLiveOf(s, oid);
    var c := s.live[oid];
    HandledDebt(c, k, ok);
    var d, ev := OnTag(c, k, ok, true), EventOf(c, k, ok, a);
    OnTagPending(c, k, ok, oid);
    DebtAfterPutBack(s, oid, d, ev);
    PutBackFrame(s, oid, d, ev);
    NoRefill(PutBack(s, oid, d, ev));
  }

  lemma OnTagPending(c: Call, k: TagKind, ok: bool, oid: nat)
    requires Shape(c) && k in c.out && k != TAccept && (k == TWrite ==> c.writeQueue != [])
    ensures OnTag(c, k, ok, true).pending == |OnTag(c, k, ok, true).out|
  {
    assert CallInv(c, true);
    OnTagInv(c, k, ok, true);
    ShapeAccepted(OnTag(c, k, ok, true));
    hide CallInv, OnTag, Shape, Grows;
  }

  /** Every step of a shutting server is a completion; it posts nothing, and lowers what is owed by
      one, or by two when a failed accept also means that its done tag will never come. */
  lemma ShuttingStep(s: Server, act: Action)
    requires Inv(s) && s.shutting && Enabled(s, act)
    ensures act.TagDone? && Apply(s, act).shutting
    ensures TotalDebt(Apply(s, act)) == TotalDebt(s) - (if act.kind == TAccept && !act.ok then 2 else 1)
  {
    hide Core, Admission, TotalDebt, Handled, Refill, AcceptOk, AcceptFailed;
    ShuttingIsIdle(s);
    CoreParts(s);
    if act.TagDone? {
      TagIsLive(s, act.oid, act.kind);
      hide CallsOk, Ids;
      ShuttingStays(s, act.oid, act.kind, act.ok, act.arrival);
      if act.kind == TAccept {
        AcceptDebt(s, act.oid, act.ok);
      } else {
        HandlerDebt(s, act.oid, act.kind, act.ok, act.arrival);
      }
    }
  }

  lemma ShuttingIsIdle(s: Server)
    requires Inv(s) && s.shutting
    ensures s.closed && s.box.poller.Idle?
  {
  }

  lemma ShuttingStays(s: Server, oid: nat, k: TagKind, ok: bool, a: Arrival)
    requires s.shutting
    ensures DoTagDone(s, oid, k, ok, a).shutting
  {
    hide OnTag, OnAccept, EventOf, Push;
  }

  /** No step of a shutting server posts an op on any object, live, freed or just being accepted. */
  lemma ShuttingLogsFrozen(s: Server, act: Action, o: nat)
    requires Inv(s) && s.shutting && Enabled(s, act) && Object(s, o).Some?
    ensures Object(Apply(s, act), o).Some? && Object(Apply(s, act), o).value.ops == Object(s, o).value.ops
  {
    hide Core, Admission, Handled, Refill, AcceptOk, AcceptFailed, OnAccept, Settle, Grows;
    ShuttingIsIdle(s);
    CoreParts(s);
    if act.TagDone? {
      TagIsLive(s, act.oid, act.kind);
      hide CallsOk, Below;
      if act.kind != TAccept {
        HandlerFrozen(s, act.oid, act.kind, act.ok, act.arrival, o);
      } else if act.ok {
        AcceptOkObject(s, act.oid, o);
        RefillObject(AcceptOk(s, act.oid), o);
      } else {
        AcceptFailedFrozen(s, act.oid, o);
      }
    }
  }

  lemma HandlerFrozen(s: Server, oid: nat, k: TagKind, ok: bool, a: Arrival, o: nat)
    requires Ids(s) && s.shutting && Dereferenceable(s, oid, k) && k != TAccept && Object(s, o).Some?
    ensures var t := Handled(s, oid, k, ok, a);
      Object(t, o).Some? && Object(t, o).value.ops == Object(s, o).value.ops
  {
    hide OnTag, EventOf, PutBack, AfterHandler, Grows, Ids, Below;
    var d, ev := OnTag(s.live[oid], k, ok, true), EventOf(s.live[oid], k, ok, a);
    PutBackObject(s, oid, d, ev, o);
    AfterHandlerObject(PutBack(s, oid, d, ev), oid, k, o);
  }

  lemma AcceptFailedFrozen(s: Server, oid: nat, o: nat)
    requires Ids(s) && oid in s.live && Object(s, o).Some?
    ensures var t := AcceptFailed(s, oid);
      Object(t, o).Some? && Object(t, o).value.ops == Object(s, o).value.ops
  {
    hide PutBack, Ids, Below;
    PutBackObject(s, oid, Settle(s.live[oid], TAccept).(acceptBack := true), None, o);
  }

  /** The drain ends: from a shutting state no run is longer than what is owed. */
  lemma {:induction false} DrainEnds(s: Server, acts: seq<Action>)
    requires Inv(s) && s.shutting && ValidRun(s, acts)
    ensures Inv(Exec(s, acts)) && Exec(s, acts).shutting
    ensures TotalDebt(Exec(s, acts)) + |acts| <= TotalDebt(s)
  {
    hide Inv, Apply, TotalDebt;
    if acts != [] {
      var n := |acts| - 1;
      DrainEnds(s, acts[..n]);
      ApplyInv(Exec(s, acts[..n]), acts[n]);
      ShuttingStep(Exec(s, acts[..n]), acts[n]);
    }
  }

  /** While any object is live, some completion can happen. */
  lemma DrainProgresses(s: Server)
    requires Inv(s) && s.live != map[]
    ensures exists act: Action :: Enabled(s, act) && act.TagDone?
  {
    var o :| o in s.live;
    CoreLiveOf(s, o);
    ShapeAccepted(s.live[o]);
    hide Inv, Shape;
    var k :| k in s.live[o].out;
    assert Enabled(s, TagDone(o, k, true, Arrival(None)));
  }

  /** Put together over whole runs: however a run went and whenever it was closed, the drain has at most
      as many steps as were owed, and when it can go no further nothing is live, `active` is empty,
      and each object was deleted exactly once. */
  lemma CloseIsClean(s: Server, drain: seq<Action>, o: nat)
    requires Reachable(s) && Enabled(s, Shutdown) && ValidRun(DoShutdown(s), drain)
    ensures |drain| <= TotalDebt(s)
    ensures var t := Exec(DoShutdown(s), drain);
      (forall act: Action :: act.TagDone? ==> !Enabled(t, act)) ==>
        t.live == map[] && t.active == map[] && t.deleted[o] == if o < t.nextOid then 1 else 0
  {
    hide Inv, Reachable, TotalDebt, Apply, Exec, Enabled;
    ReachableInv(s);
    ShutdownStarts(s);
    DrainEnds(DoShutdown(s), drain);
    StalledIsClean(Exec(DoShutdown(s), drain), o);
  }

  lemma ShutdownStarts(s: Server)
    requires Inv(s) && Enabled(s, Shutdown)
    ensures Inv(DoShutdown(s)) && DoShutdown(s).shutting && TotalDebt(DoShutdown(s)) == TotalDebt(s)
  {
    hide Inv, TotalDebt;
    ApplyInv(s, Shutdown);
    DebtOfShutdown(s);
  }

  /** When the queue can go no further nothing is live: the final delete loop finds `active` empty, and
      every object ever created was deleted exactly once. */
  lemma StalledIsClean(t: Server, o: nat)
    requires Inv(t)
    ensures (forall act: Action :: act.TagDone? ==> !Enabled(t, act)) ==>
      t.live == map[] && t.active == map[] && t.deleted[o] == if o < t.nextOid then 1 else 0
  {
    hide Inv, Enabled;
    if t.live != map[] {
      DrainProgresses(t);
    } else {
      EmptyIsClean(t, o);
    }
  }

  lemma DebtOfShutdown(s: Server)
    ensures TotalDebt(DoShutdown(s)) == TotalDebt(s)
  {
    hide Sum;
  }

  lemma EmptyIsClean(s: Server, o: nat)
    requires Inv(s) && s.live == map[]
    ensures s.active == map[] && s.deleted[o] == if o < s.nextOid then 1 else 0
  {
    CoreParts(s);
    hide Core, CallsOk;
  }
}
