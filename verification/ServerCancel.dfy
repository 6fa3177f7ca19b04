/** When the owner of a server call is told that its peer is gone. The documentation promises a
    "cancelled" notice for every request that the peer abandoned before it was answered; the code gives
    one exactly when the done tag comes back after the request was delivered and before a terminal was
    accepted. */
module ServerCancel {
  import opened Common
  import opened Events
  import opened Mailbox
  import opened ServerCall
  import opened ServerHistory
  import opened ServerModel
  import opened ServerInv
  import opened ServerRuns
  import opened ServerWedge

  /** The events an action queues. */
  function Queued(s: Server, act: Action): seq<Event<EventKind>> {
    if act.TagDone? && act.kind != TAccept && Dereferenceable(s, act.oid, act.kind) then
      var c := s.live[act.oid];
      var ev := EventOf(c, act.kind, act.ok, act.arrival);
      if ev.Some? then [Event(c.id, ev.value)] else []
    else []
  }

  /** `owner` only grows, and `more` was queued. */
  predicate Moves(s: Server, t: Server, more: seq<Event<EventKind>>) {
    && t.box.pushed == s.box.pushed + more
    && forall id :: id in s.owner ==> id in t.owner && t.owner[id] == s.owner[id]
  }

  lemma PutBackMoves(s: Server, oid: nat, c: Call, ev: Option<EventKind>)
    requires oid in s.live
    ensures Moves(s, PutBack(s, oid, c, ev), if ev.Some? then [Event(c.id, ev.value)] else [])
  {
    assert s.box.pushed + [] == s.box.pushed;
  }

  lemma TagDoneMoves(s: Server, oid: nat, k: TagKind, ok: bool, a: Arrival)
    requires Ids(s) && Dereferenceable(s, oid, k)
    ensures Moves(s, DoTagDone(s, oid, k, ok, a), Queued(s, TagDone(oid, k, ok, a)))
  {
    hide OnTag, EventOf, OnAccept, PostAccepts, PutBack, Grows;
    assert s.box.pushed + [] == s.box.pushed;
    var c := s.live[oid];
    if k == TAccept && ok {
      NextIdFree(s);
      RefillFrame(AcceptOk(s, oid));
    } else if k == TAccept {
      PutBackMoves(s, oid, Settle(c, TAccept).(acceptBack := true), None);
    } else {
      var d, ev := OnTag(c, k, ok, s.shutting), EventOf(c, k, ok, a);
      PutBackMoves(s, oid, d, ev);
      RefillFrame(PutBack(s, oid, d, ev));
    }
    hide Refill, Ids;
  }

  lemma PollMoves(s: Server, act: Action)
    requires BoxInv(s.box) && Enabled(s, act) && (act.PollEnter? || act.PollReadable? || act.PollOver?)
    ensures Apply(s, act).box.pushed == s.box.pushed && Apply(s, act).owner == s.owner
  {
    hide DeliverBox, BoxInv, HaveMatch, DoTagDone, DoReply, DoFinish, DoRead, DoSend;
    match act
    case PollEnter(want, max, timeout, expired) => DeliverBoxInv(s.box, want, max);
    case PollReadable(expired) => DeliverBoxInv(s.box, s.box.poller.want, s.box.poller.max);
    case PollOver => DeliverBoxInv(s.box, s.box.poller.want, s.box.poller.max);
  }

  lemma EntryMoves(s: Server, act: Action)
    requires Enabled(s, act) && (act.ReplyTo? || act.FinishCall? || act.ReadFrom? || act.SendTo? || act.Shutdown?)
    ensures Apply(s, act).box == s.box && Apply(s, act).owner == s.owner
  {
    hide Reply, Finish, Read, Send, DoTagDone;
  }

  lemma StepMoves(s: Server, act: Action)
    requires Inv(s) && Enabled(s, act)
    ensures Moves(s, Apply(s, act), Queued(s, act))
  {
    hide Inv, Core, Ids, BoxInv, Enabled, CallsOk;
    InvCore(s);
    CoreParts(s);
    assert s.box.pushed + [] == s.box.pushed;
    if act.TagDone? {
      CompletionMoves(s, act);
    } else if act.PollEnter? || act.PollReadable? || act.PollOver? {
      PollMoves(s, act);
      hide Apply;
    } else {
      EntryMoves(s, act);
      hide Apply;
    }
  }

  lemma CompletionMoves(s: Server, act: Action)
    requires Ids(s) && CallsOk(s) && Enabled(s, act) && act.TagDone?
    ensures Moves(s, Apply(s, act), Queued(s, act))
  {
    hide DoTagDone, Ids;
    TagIsLive(s, act.oid, act.kind);
    hide CallsOk, Queued;
    TagDoneMoves(s, act.oid, act.kind, act.ok, act.arrival);
  }

  /** The call `id` is object `o`, and its done tag has come back. */
  predicate Gone(s: Server, id: nat, o: nat) {
    && id != 0 && id in s.owner && s.owner[id] == o
    && Object(s, o).Some? && Object(s, o).value.id == id && Object(s, o).value.doneBack
  }

  lemma GoneStays(s: Server, act: Action, id: nat, o: nat)
    requires Inv(s) && Enabled(s, act) && Gone(s, id, o)
    ensures Gone(Apply(s, act), id, o)
  {
    hide Inv, Apply, Enabled, Queued, Object;
    StepMoves(s, act);
    StepEvolves(s, act, o);
  }

  lemma OnlyDoneCancels(c: Call, k: TagKind, ok: bool, a: Arrival)
    ensures EventOf(c, k, ok, a) == Some(Cancelled) <==> k == TDone && c.delivered && !c.replied
  {
  }

  /** A call's done tag comes back once, so "cancelled" is never queued after that. */
  lemma NoLateNotice(s: Server, act: Action, id: nat, o: nat)
    requires Inv(s) && Enabled(s, act) && Gone(s, id, o)
    ensures forall i :: 0 <= i < |Queued(s, act)| ==> Queued(s, act)[i].id == id ==> !Queued(s, act)[i].kind.Cancelled?
  {
    hide Inv, Core, Ids, CallsOk, EventOf, BoxInv;
    InvCore(s);
    CoreParts(s);
    if act.TagDone? && act.kind != TAccept && Dereferenceable(s, act.oid, act.kind) && s.live[act.oid].id == id {
      OnlyDoneCancels(s.live[act.oid], act.kind, act.ok, act.arrival);
      if act.kind == TDone {
        OneObject(s, id, act.oid);
        OwedIsLive(s, act.oid, TDone);
        GoneOwesNoDone(s, id, o);
      }
    }
  }

  lemma GoneOwesNoDone(s: Server, id: nat, o: nat)
    requires Inv(s) && Gone(s, id, o) && o in s.live
    ensures TDone !in s.live[o].out
  {
    InvCore(s);
    hide Inv;
    CoreLive(s, o);
    hide Core, LiveCall, CallInv;
    DoneOnce(s.live[o]);
  }

  lemma OwedIsLive(s: Server, oid: nat, k: TagKind)
    requires Inv(s) && Outstanding(s, oid, k)
    ensures Dereferenceable(s, oid, k) && k in s.live[oid].out
  {
    InvCore(s);
    CoreParts(s);
    hide Inv, Core, Ids;
    TagIsLive(s, oid, k);
  }

  lemma OneObject(s: Server, id: nat, oid: nat)
    requires Ids(s) && oid in s.live && s.live[oid].id == id && id != 0
    ensures id in s.owner && s.owner[id] == oid
  {
  }

  lemma DoneOnce(c: Call)
    requires CallInv(c, false) || CallInv(c, true)
    ensures c.doneBack ==> TDone !in c.out
  {
    hide FlagsOk, WritesOk, ReadsOk, OpsOk, Driven;
  }

  lemma {:induction false} NeverLater(s: Server, acts: seq<Action>, id: nat, o: nat)
    requires Inv(s) && Gone(s, id, o) && ValidRun(s, acts)
    ensures var t := Exec(s, acts);
      Inv(t) && Gone(t, id, o) && (Cancelled in Of(t.box.pushed, id) <==> Cancelled in Of(s.box.pushed, id))
  {
    hide Inv, Apply, Enabled, Gone, Of;
    if acts != [] {
      var n := |acts| - 1;
      NeverLater(s, acts[..n], id, o);
      var t := Exec(s, acts[..n]);
      ApplyInv(t, acts[n]);
      GoneStays(t, acts[n], id, o);
      NoLateNotice(t, acts[n], id, o);
      StepMoves(t, acts[n]);
      OfConcat(t.box.pushed, Queued(t, acts[n]), id);
      NoneCancelled(Queued(t, acts[n]), id);
    }
  }

  lemma {:induction false} NoneCancelled(q: seq<Event<EventKind>>, id: nat)
    requires forall i :: 0 <= i < |q| ==> q[i].id == id ==> !q[i].kind.Cancelled?
    ensures Cancelled !in Of(q, id)
  {
    if q != [] {
      NoneCancelled(q[1..], id);
    }
  }

  lemma DoneDecides(s: Server, oid: nat, ok: bool, a: Arrival, later: seq<Action>)
    requires Inv(s) && Enabled(s, TagDone(oid, TDone, ok, a)) && Dereferenceable(s, oid, TDone)
    requires ValidRun(Apply(s, TagDone(oid, TDone, ok, a)), later)
    ensures var c, t := s.live[oid], Exec(Apply(s, TagDone(oid, TDone, ok, a)), later);
      Cancelled in Of(t.box.pushed, c.id) <==> c.delivered && !c.replied
  {
    var act := TagDone(oid, TDone, ok, a);
    var c, s1 := s.live[oid], Apply(s, act);
    DoneTagIsGone(s, oid, ok, a);
    hide Inv, Apply, Enabled, Gone, Of;
    ApplyInv(s, act);
    StepMoves(s, act);
    OfConcat(s.box.pushed, Queued(s, act), c.id);
    DoneQueues(s, oid, ok, a);
    NeverLater(s1, later, c.id, oid);
  }

  lemma DoneTagIsGone(s: Server, oid: nat, ok: bool, a: Arrival)
    requires Inv(s) && Enabled(s, TagDone(oid, TDone, ok, a)) && Dereferenceable(s, oid, TDone)
    ensures TDone in s.live[oid].out && s.live[oid].id != 0
    ensures Cancelled !in Of(s.box.pushed, s.live[oid].id)
    ensures Gone(Apply(s, TagDone(oid, TDone, ok, a)), s.live[oid].id, oid)
  {
    hide Core, Admission, EventOf, Apply, Of, Fits;
    var act := TagDone(oid, TDone, ok, a);
    CoreParts(s);
    TagIsLive(s, oid, TDone);
    CoreLive(s, oid);
    NotToldYet(s, oid);
    OneObject(s, s.live[oid].id, oid);
    StepMoves(s, act);
    hide CallsOk, Ids;
    DoneObject(s, oid, ok, a);
  }

  lemma NotToldYet(s: Server, oid: nat)
    requires Core(s) && oid in s.live && TDone in s.live[oid].out
    ensures s.live[oid].id != 0 && Cancelled !in Of(s.box.pushed, s.live[oid].id)
  {
    hide Of, BoxInv;
    CoreLive(s, oid);
    NoTagsOnSlots(s.live[oid], TDone);
    DoneOnce(s.live[oid]);
    LiveFits(s, oid, TDone);
    hide Core, CallInv, LiveCall;
  }

  lemma DoneObject(s: Server, oid: nat, ok: bool, a: Arrival)
    requires Ids(s) && oid in s.live && Dereferenceable(s, oid, TDone) && Enabled(s, TagDone(oid, TDone, ok, a))
    ensures Object(Apply(s, TagDone(oid, TDone, ok, a)), oid) == Some(OnDone(s.live[oid]))
    ensures OnDone(s.live[oid]).doneBack && OnDone(s.live[oid]).id == s.live[oid].id
  {
    hide EventOf, PutBack, Grows, Below, Ids;
    var c := s.live[oid];
    var ev := EventOf(c, TDone, ok, a);
    PutBackObject(s, oid, OnDone(c), ev, oid);
    AfterHandlerObject(PutBack(s, oid, OnDone(c), ev), oid, TDone, oid);
    hide AfterHandler, OnDone;
    assert OnDone(c).doneBack by { DoneBackSet(c); }
  }

  lemma DoneBackSet(c: Call)
    ensures OnDone(c).doneBack
  {
    hide Grows;
  }

  lemma DoneQueues(s: Server, oid: nat, ok: bool, a: Arrival)
    requires Dereferenceable(s, oid, TDone)
    ensures var c := s.live[oid];
      Cancelled in Of(Queued(s, TagDone(oid, TDone, ok, a)), c.id) <==> c.delivered && !c.replied
  {
    var q := Queued(s, TagDone(oid, TDone, ok, a));
    if q != [] {
      assert q[1..] == [];
    }
  }

  /** The exact condition, over every run: once a call's done tag has come back its owner has been sent
      "cancelled", or ever will be, if and only if at that moment the request had been delivered and no
      terminal accepted. */
  lemma CancelledIff(s: Server, oid: nat, ok: bool, a: Arrival, later: seq<Action>)
    requires Reachable(s) && Enabled(s, TagDone(oid, TDone, ok, a))
    requires ValidRun(Apply(s, TagDone(oid, TDone, ok, a)), later)
    ensures oid in s.live
    ensures var c, t := s.live[oid], Exec(Apply(s, TagDone(oid, TDone, ok, a)), later);
      Cancelled in Of(t.box.pushed, c.id) <==> c.delivered && !c.replied
  {
    hide Inv, Apply, Of, Reachable, Exec, ValidRun;
    ReachableInv(s);
    OwedIsLive(s, oid, TDone);
    DoneDecides(s, oid, ok, a, later);
  }

  // ---- a request whose peer was gone before it was delivered ----

  lemma ReadAfterDone(c: Call, bytes: Bytes)
    requires CallInv(c, false) || CallInv(c, true)
    requires !c.delivered && !c.dead && TRead in c.out
    ensures TRead in OnDone(c).out
    ensures EventOf(OnDone(c), TRead, true, Arrival(Some(bytes))) == Some(Request(bytes))
  {
    hide Grows, CallInv;
  }

  /** A call that has not been delivered and owes both its done tag and its first read. */
  predicate AwaitsBoth(s: Server, oid: nat) {
    && oid in s.live && !s.live[oid].delivered && !s.live[oid].dead
    && TDone in s.live[oid].out && TRead in s.live[oid].out
  }

  lemma AfterDone(s: Server, oid: nat, bytes: Bytes)
    requires Inv(s) && AwaitsBoth(s, oid)
    ensures var c, done := s.live[oid], TagDone(oid, TDone, true, NOTHING);
      && Enabled(s, done) && Inv(Apply(s, done)) && Gone(Apply(s, done), c.id, oid)
      && Object(Apply(s, done), oid) == Some(OnDone(c)) && OnDone(c).id == c.id
      && TRead in OnDone(c).out
      && EventOf(OnDone(c), TRead, true, Arrival(Some(bytes))) == Some(Request(bytes))
      && Cancelled !in Of(Apply(s, done).box.pushed, c.id)
  {
    hide Inv, Apply, Of, Gone, OnDone, Ids, EventOf, Object;
    BothOwed(s, oid, bytes);
    DoneTagIsGone(s, oid, true, NOTHING);
    DoneObject(s, oid, true, NOTHING);
    ApplyInv(s, TagDone(oid, TDone, true, NOTHING));
    assert ValidRun(Apply(s, TagDone(oid, TDone, true, NOTHING)), []);
    DoneDecides(s, oid, true, NOTHING, []);
  }

  lemma BothOwed(s: Server, oid: nat, bytes: Bytes)
    requires Inv(s) && AwaitsBoth(s, oid)
    ensures Ids(s) && Enabled(s, TagDone(oid, TDone, true, NOTHING)) && Dereferenceable(s, oid, TDone)
    ensures TRead in OnDone(s.live[oid]).out && OnDone(s.live[oid]).id == s.live[oid].id
    ensures EventOf(OnDone(s.live[oid]), TRead, true, Arrival(Some(bytes))) == Some(Request(bytes))
  {
    hide Inv, CallInv, LiveCall, OnDone, Core, Ids, CallsOk, EventOf, BoxInv;
    InvCore(s);
    CoreParts(s);
    CoreLive(s, oid);
    ReadAfterDone(s.live[oid], bytes);
  }

  lemma ObjectOwes(s: Server, oid: nat, c: Call, k: TagKind)
    requires Inv(s) && Object(s, oid) == Some(c) && k in c.out
    ensures Outstanding(s, oid, k) && Dereferenceable(s, oid, k) && s.live[oid] == c
  {
    hide Inv;
    OwedIsLive(s, oid, k);
  }

  lemma AfterRead(s: Server, oid: nat, c: Call, id: nat, bytes: Bytes)
    requires Inv(s) && Gone(s, id, oid) && Object(s, oid) == Some(c) && c.id == id && TRead in c.out
    requires EventOf(c, TRead, true, Arrival(Some(bytes))) == Some(Request(bytes))
    requires Cancelled !in Of(s.box.pushed, id)
    ensures var read := TagDone(oid, TRead, true, Arrival(Some(bytes)));
      && Enabled(s, read) && Inv(Apply(s, read)) && Gone(Apply(s, read), id, oid)
      && Request(bytes) in Of(Apply(s, read).box.pushed, id) && Cancelled !in Of(Apply(s, read).box.pushed, id)
  {
    var read := TagDone(oid, TRead, true, Arrival(Some(bytes)));
    hide Inv, Apply, Of, Gone, EventOf;
    ObjectOwes(s, oid, c, TRead);
    assert Enabled(s, read);
    hide Enabled, Object;
    ApplyInv(s, read);
    GoneStays(s, read, id, oid);
    StepMoves(s, read);
    OfAppend(s.box.pushed, Event(id, Request(bytes)), id);
  }

  /** Whenever a call that has not been delivered owes both its done tag and its first read, the two may
      come back in that order: R is then given a request whose peer is gone, and in no continuation is
      it ever told so. */
  lemma LateRequest(s: Server, oid: nat, bytes: Bytes, later: seq<Action>)
    requires Reachable(s) && AwaitsBoth(s, oid)
    ensures var done, read := TagDone(oid, TDone, true, NOTHING), TagDone(oid, TRead, true, Arrival(Some(bytes)));
      && Enabled(s, done) && Enabled(Apply(s, done), read)
      && Request(bytes) in Of(Apply(Apply(s, done), read).box.pushed, s.live[oid].id)
      && (ValidRun(Apply(Apply(s, done), read), later) ==>
            Cancelled !in Of(Exec(Apply(Apply(s, done), read), later).box.pushed, s.live[oid].id))
  {
    hide Inv, Apply, Of, Gone, EventOf, Enabled, OnDone, Object, Reachable;
    ReachableInv(s);
    AfterDone(s, oid, bytes);
    var id, s1 := s.live[oid].id, Apply(s, TagDone(oid, TDone, true, NOTHING));
    AfterRead(s1, oid, OnDone(s.live[oid]), id, bytes);
    var s2 := Apply(s1, TagDone(oid, TRead, true, Arrival(Some(bytes))));
    if ValidRun(s2, later) {
      NeverLater(s2, later, id, oid);
    }
  }

  lemma AcceptAwaits(c: Call, id: nat)
    requires CallInv(c, false) && c.id == 0
    ensures var d := OnAccept(c, id, false);
      !d.delivered && !d.dead && TDone in d.out && TRead in d.out
  {
    hide Grows, WritesOk, ReadsOk, OpsOk, Driven;
  }

  lemma AcceptedAwaits(s: Server, o: nat)
    requires Quiet(s) && o in s.live && s.live[o].id == 0 && TAccept in s.live[o].out
    ensures AwaitsBoth(DoTagDone(s, o, TAccept, true, NOTHING), o)
  {
    hide Inv, Core, Ids, CallsOk, BoxInv, CallInv, LiveCall, OnAccept, AcceptOk, Refill, FullyStaffed, Untouched, Below;
    AcceptOne(s, o);
    InvCore(s);
    CoreParts(s);
    CoreLive(s, o);
    AcceptAwaits(s.live[o], s.nextId);
    AcceptOkObject(s, o, o);
    RefillObject(AcceptOk(s, o), o);
    ObjectOwes(DoTagDone(s, o, TAccept, true, NOTHING), o, OnAccept(s.live[o], s.nextId, false), TDone);
  }

  /** Whatever its limits, a server gets there with its first accept. */
  lemma LateReachable(window: int, maxActive: int) returns (acts: seq<Action>, oid: nat)
    requires window >= 1 && maxActive >= 1
    ensures ValidRun(Init(window, maxActive, 1), acts)
    ensures Reachable(Exec(Init(window, maxActive, 1), acts)) && AwaitsBoth(Exec(Init(window, maxActive, 1), acts), oid)
  {
    hide Quiet, Init, FullyStaffed, DoTagDone, AwaitsBoth;
    var s := Init(window, maxActive, 1);
    InitQuiet(window, maxActive);
    oid := SlotExists(s);
    AcceptedAwaits(s, oid);
    OwesAccept(s, oid);
    var act := TagDone(oid, TAccept, true, NOTHING);
    ExecSnoc(s, [], act);
    acts := [] + [act];
    assert Exec(s, acts) == After(window, maxActive, 1, acts);
  }

  lemma OwesAccept(s: Server, o: nat)
    requires o in s.live && TAccept in s.live[o].out
    ensures Outstanding(s, o, TAccept)
  {
  }
}
