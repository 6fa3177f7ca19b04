/** What the events, writes and terminals of a server carry. Each law ties the data in the machine's logs to
    the actions of the run: the bytes that completions brought, and what callers sent, asked and replied. */
module ServerData {
  import opened Common
  import opened Events
  import opened Mailbox
  import opened ServerCall
  import opened ServerHistory
  import opened ServerModel
  import opened ServerInv
  import opened ServerRuns
  import opened ServerCancel

  // ---- what one action brings for one call ----

  /** What one action has the owner of call `id` told: the first good read is the request and each later one
      a message, with the bytes it brought, or none if they could not be copied; a bad read of a delivered
      call is the peer's half-close; a good write that was the last one queued, before any terminal,
      is "writable"; the done tag of a delivered call without a terminal is "cancelled". */
  function Tells(s: Server, act: Action, id: nat): seq<EventKind> {
    match act
    case TagDone(oid, k, ok, a) =>
      if id == 0 || oid !in s.live || s.live[oid].id != id then []
      else
        var c, bytes := s.live[oid], if a.bytes.Some? then a.bytes.value else [];
        if k == TRead && ok && !c.dead && !c.delivered then [Request(bytes)]
        else if k == TRead && ok && !c.dead then [Msg(bytes)]
        else if k == TRead && !ok && c.delivered && !c.dead then [ClientDone]
        else if k == TWrite && ok && !c.dead && |c.writeQueue| == 1 && !c.replied then [Writable]
        else if k == TDone && c.delivered && !c.replied then [Cancelled]
        else []
    case _ => []
  }

  /** The bytes of a send that is taken: the call is delivered and neither dead nor replied, and fewer than 16
      writes are queued. */
  function Takes(s: Server, act: Action, id: nat): seq<Bytes> {
    match act
    case SendTo(i, bytes) =>
      if i == id && Found(s, id)
         && s.live[s.active[id]].delivered && !s.live[s.active[id]].dead && !s.live[s.active[id]].replied
         && |s.live[s.active[id]].writeQueue| < 16
      then [bytes] else []
    case _ => []
  }

  /** The terminal that a call's owner asked for, and whether queued writes were to be dropped. */
  datatype Asking = Asking(final: Final, abort: bool)

  /** The call can take a terminal: delivered, not dead, none asked for yet. */
  predicate Open(s: Server, id: nat) {
    Found(s, id) && s.live[s.active[id]].delivered && !s.live[s.active[id]].dead && !s.live[s.active[id]].replied
  }

  /** The terminal an action asks for, if the call can take one: a reply's own, or a bare status. */
  function Asks(s: Server, act: Action, id: nat): Option<Asking> {
    match act
    case ReplyTo(i, final) => if i == id && Open(s, id) then Some(Asking(final, false)) else None
    case FinishCall(i, code, drain) =>
      if i == id && Open(s, id) then Some(Asking(Final(None, code), !drain)) else None
    case _ => None
  }

  /** A read that is taken: the call is delivered, not dead, has no read in flight and no terminal posted. */
  predicate ReadsOn(s: Server, act: Action, id: nat) {
    && act == ReadFrom(id) && Found(s, id)
    && s.live[s.active[id]].delivered && !s.live[s.active[id]].dead
    && !s.live[s.active[id]].readInflight && !s.live[s.active[id]].finishPosted
  }

  /** What kills a call: a bad read before it was delivered, a bad write, its peer gone before a terminal, or
      an accept during shutdown. */
  predicate Kills(s: Server, act: Action, id: nat) {
    && act.TagDone? && act.oid in s.live
    && if act.kind == TAccept then act.ok && s.shutting && s.live[act.oid].id == 0 && id == s.nextId
       else
         var c := s.live[act.oid];
         && id != 0 && c.id == id
         && ((act.kind == TRead && !act.ok && !c.delivered)
             || (act.kind == TWrite && !act.ok)
             || (act.kind == TDone && c.delivered && !c.replied))
  }

  /** The write that a good completion finishes. */
  function Finishes(s: Server, act: Action, id: nat): seq<Bytes> {
    if act.TagDone? && act.kind == TWrite && act.ok && id != 0 && act.oid in s.live && s.live[act.oid].id == id
       && !s.live[act.oid].dead && s.live[act.oid].writeQueue != []
    then [s.live[act.oid].writeQueue[0]] else []
  }

  // ---- one step on a history ----

  lemma TagTells(s: Server, oid: nat, k: TagKind, ok: bool, a: Arrival, id: nat)
    requires Dereferenceable(s, oid, k) && (k != TAccept ==> s.live[oid].id != 0)
    ensures Of(Queued(s, TagDone(oid, k, ok, a)), id) == Tells(s, TagDone(oid, k, ok, a), id)
  {
    OfOne(Queued(s, TagDone(oid, k, ok, a)), id);
    hide Of;
  }

  lemma QueuedTells(s: Server, act: Action, id: nat)
    requires Inv(s) && Enabled(s, act)
    ensures Of(Queued(s, act), id) == Tells(s, act, id)
  {
    hide Inv;
    if act.TagDone? {
      OwedIsLive(s, act.oid, act.kind);
      if act.kind != TAccept {
        OwedCall(s, act.oid, act.kind);
      }
      hide Tells, Queued, Of;
      TagTells(s, act.oid, act.kind, act.ok, act.arrival, id);
    } else {
      assert Queued(s, act) == [];
    }
  }

  lemma OfOne(q: seq<Event<EventKind>>, id: nat)
    requires |q| <= 1
    ensures Of(q, id) == if q != [] && q[0].id == id then [q[0].kind] else []
  {
    assert q != [] ==> q[1..] == [];
  }

  lemma OwedCall(s: Server, oid: nat, k: TagKind)
    requires Inv(s) && oid in s.live && k in s.live[oid].out && k != TAccept
    ensures s.live[oid].id != 0
  {
    InvCore(s);
    hide Inv;
    CoreLive(s, oid);
    hide Core, CallInv;
    NotSlot(s.live[oid], k, s.shutting);
  }

  lemma NotSlot(c: Call, k: TagKind, shutting: bool)
    requires CallInv(c, shutting) && k in c.out && k != TAccept
    ensures c.id != 0
  {
    hide Driven;
    NoTagsOnSlots(c, k);
  }

  /** One step adds to a call's history exactly what its action tells. */
  lemma StepTells(s: Server, act: Action, id: nat)
    requires Inv(s) && Enabled(s, act)
    ensures Of(Apply(s, act).box.pushed, id) == Of(s.box.pushed, id) + Tells(s, act, id)
  {
    hide Inv, Apply, Enabled, Queued, Tells, Of;
    StepMoves(s, act);
    OfConcat(s.box.pushed, Queued(s, act), id);
    QueuedTells(s, act, id);
  }

  // ---- one step on a record ----

  function AcceptedOf(r: Option<Call>): seq<Bytes> {
    if r.Some? then r.value.accepted else []
  }

  function CompletedOf(r: Option<Call>): seq<Bytes> {
    if r.Some? then r.value.completed else []
  }

  function AskedBy(c: Call): Option<Asking> {
    if c.replied then Some(Asking(c.final, c.aborted)) else None
  }

  function AskedOf(r: Option<Call>): Option<Asking> {
    if r.Some? then AskedBy(r.value) else None
  }

  function ReadsOf(r: Option<Call>): nat {
    if r.Some? then r.value.readsAccepted else 0
  }

  predicate DeadIs(r: Option<Call>) {
    r.Some? && r.value.dead
  }

  /** What one step does to a call's data, `r` before and `r'` after. */
  predicate DataMoves(s: Server, act: Action, id: nat, r: Option<Call>, r': Option<Call>) {
    && AcceptedOf(r') == AcceptedOf(r) + Takes(s, act, id)
    && CompletedOf(r') == CompletedOf(r) + Finishes(s, act, id)
    && AskedOf(r') == (if Asks(s, act, id).Some? then Asks(s, act, id) else AskedOf(r))
    && ReadsOf(r') == ReadsOf(r) + B(ReadsOn(s, act, id))
    && (DeadIs(r') <==> DeadIs(r) || Kills(s, act, id))
  }

  // The handlers' and entry points' effect on the data of their call.

  /** What a pump leaves alone. */
  predicate SameData(c: Call, d: Call) {
    && d.accepted == c.accepted && d.completed == c.completed && d.readsAccepted == c.readsAccepted
    && AskedBy(d) == AskedBy(c) && (d.dead <==> c.dead)
  }

  lemma PostWriteData(c: Call)
    requires c.writeQueue != [] && !c.finishPosted
    ensures SameData(c, PostWrite(c))
  {
    hide Grows, SameObject, SameTold;
  }

  lemma PostTerminalData(c: Call)
    requires !c.finishPosted
    ensures SameData(c, PostTerminal(c))
  {
    hide Grows, SameObject, SameTold;
  }

  lemma PumpData(c: Call, shutting: bool)
    ensures SameData(c, Pump(c, shutting))
  {
    hide Grows, SameObject, SameTold, PostWrite, PostTerminal, SameData;
    UnchangedData(c);
    if !c.finishPosted {
      PostTerminalData(c);
      if c.writeQueue != [] {
        PostWriteData(c);
      }
    }
  }

  lemma UnchangedData(c: Call)
    ensures SameData(c, c)
  {
  }

  lemma OnReadData(c: Call, ok: bool)
    ensures var d := OnRead(c, ok);
      && d.accepted == c.accepted && d.completed == c.completed && d.readsAccepted == c.readsAccepted
      && AskedBy(d) == AskedBy(c)
      && (d.dead <==> c.dead || (!ok && !c.delivered))
  {
    hide Grows;
  }

  lemma OnWriteData(c: Call, ok: bool, shutting: bool)
    requires c.writeQueue != []
    ensures var d := OnWrite(c, ok, shutting);
      && d.accepted == c.accepted && d.readsAccepted == c.readsAccepted && AskedBy(d) == AskedBy(c)
      && d.completed == c.completed + (if ok && !c.dead then [c.writeQueue[0]] else [])
      && (d.dead <==> c.dead || !ok)
  {
    hide Grows, SameObject, SameTold, Pump;
    var d := Settle(c, TWrite).(writeInflight := false);
    if ok && !d.dead {
      PumpData(d.(writeQueue := d.writeQueue[1..], completed := d.completed + [d.writeQueue[0]]), shutting);
    }
  }

  lemma OnDoneData(c: Call)
    ensures var d := OnDone(c);
      && d.accepted == c.accepted && d.completed == c.completed && d.readsAccepted == c.readsAccepted
      && AskedBy(d) == AskedBy(c)
      && (d.dead <==> c.dead || (c.delivered && !c.replied))
  {
    hide Grows;
  }

  lemma OnFinishData(c: Call)
    ensures SameData(c, OnFinish(c))
  {
    hide Grows;
  }

  lemma OnTagData(c: Call, k: TagKind, ok: bool, shutting: bool)
    requires k != TAccept && (k == TWrite ==> c.writeQueue != [])
    ensures var d := OnTag(c, k, ok, shutting);
      && d.accepted == c.accepted && d.readsAccepted == c.readsAccepted && AskedBy(d) == AskedBy(c)
      && d.completed == c.completed + (if k == TWrite && ok && !c.dead then [c.writeQueue[0]] else [])
      && (d.dead <==> c.dead || (k == TRead && !ok && !c.delivered) || (k == TWrite && !ok)
                      || (k == TDone && c.delivered && !c.replied))
  {
    hide Grows, SameTold, OnRead, OnWrite, OnDone, OnFinish, AskedBy;
    assert c.completed + [] == c.completed;
    match k
    case TRead => OnReadData(c, ok);
    case TWrite => OnWriteData(c, ok, shutting);
    case TDone => OnDoneData(c);
    case TFinish => OnFinishData(c);
  }

  lemma AcceptData(c: Call, id: nat, shutting: bool)
    requires CallInv(c, shutting) && c.id == 0
    ensures var d := OnAccept(c, id, shutting);
      d.accepted == [] && d.completed == [] && d.readsAccepted == 0 && AskedBy(d) == None && (d.dead <==> shutting)
  {
    SlotIsBlank(c, shutting);
    hide Grows, CallInv;
  }

  lemma SlotIsBlank(c: Call, shutting: bool)
    requires CallInv(c, shutting) && c.id == 0
    ensures c.accepted == [] && c.completed == [] && c.readsAccepted == 0 && !c.replied && !c.dead
  {
    hide Writes, TagsExact, OpsOk, Driven;
  }

  lemma ReplyData(c: Call, final: Final, at: nat, shutting: bool)
    requires !c.replied ==> !c.aborted
    ensures var d := Reply(c, final, at, shutting);
      && d.accepted == c.accepted && d.completed == c.completed && d.readsAccepted == c.readsAccepted
      && (d.dead <==> c.dead)
      && AskedBy(d) == if c.delivered && !c.dead && !c.replied then Some(Asking(final, false)) else AskedBy(c)
  {
    hide Grows, SameObject, SameTold, Pump;
    if !TerminalRefused(c) {
      PumpData(c.(replied := true, repliedAt := at, final := final), shutting);
    }
  }

  lemma FinishData(c: Call, code: int, drain: bool, at: nat, shutting: bool)
    requires !c.replied ==> !c.aborted
    ensures var d := Finish(c, code, drain, at, shutting);
      && d.accepted == c.accepted && d.completed == c.completed && d.readsAccepted == c.readsAccepted
      && (d.dead <==> c.dead)
      && AskedBy(d) == if c.delivered && !c.dead && !c.replied then Some(Asking(Final(None, code), !drain)) else AskedBy(c)
  {
    hide Grows, SameObject, SameTold, Pump;
    if !TerminalRefused(c) {
      PumpData(Ending(c, code, drain, at), shutting);
    }
  }

  lemma ReadData(c: Call)
    ensures var d := Read(c);
      && d.accepted == c.accepted && d.completed == c.completed && AskedBy(d) == AskedBy(c) && (d.dead <==> c.dead)
      && d.readsAccepted == c.readsAccepted + B(c.delivered && !c.dead && !c.readInflight && !c.finishPosted)
  {
    hide Grows, SameObject;
  }

  lemma SendData(c: Call, bytes: Bytes, shutting: bool)
    ensures var d := Send(c, bytes, shutting);
      && d.completed == c.completed && d.readsAccepted == c.readsAccepted && AskedBy(d) == AskedBy(c)
      && (d.dead <==> c.dead)
      && d.accepted == c.accepted +
           (if c.delivered && !c.dead && !c.replied && |c.writeQueue| < 16 then [bytes] else [])
  {
    hide Grows, SameObject, SameTold, Pump;
    assert c.accepted + [] == c.accepted;
    if !SendRefused(c) {
      PumpData(c.(writeQueue := c.writeQueue + [bytes], accepted := c.accepted + [bytes]), shutting);
    }
  }

  // What an entry point's answer means for the call's record.

  lemma ReplyTaken(c: Call, final: Final, at: nat, shutting: bool)
    ensures TerminalRefused(c) ==> Reply(c, final, at, shutting) == c
    ensures !TerminalRefused(c) ==> AskedBy(Reply(c, final, at, shutting)) == Some(Asking(final, c.aborted))
  {
    hide Grows, SameObject, SameTold, Pump;
    if !TerminalRefused(c) {
      PumpData(c.(replied := true, repliedAt := at, final := final), shutting);
    }
  }

  lemma FinishTaken(c: Call, code: int, drain: bool, at: nat, shutting: bool)
    ensures TerminalRefused(c) ==> Finish(c, code, drain, at, shutting) == c
    ensures !TerminalRefused(c) ==>
      AskedBy(Finish(c, code, drain, at, shutting)) == Some(Asking(Final(None, code), c.aborted || !drain))
  {
    hide Grows, SameObject, SameTold, Pump;
    if !TerminalRefused(c) {
      PumpData(Ending(c, code, drain, at), shutting);
    }
  }

  lemma ReadTaken(c: Call)
    ensures ReadRefused(c) ==> Read(c) == c
    ensures !ReadRefused(c) ==> Read(c).ops == c.ops + [ReadOp] && TRead in Read(c).out
  {
    hide Grows, SameObject;
  }

  lemma SendTaken(c: Call, bytes: Bytes, shutting: bool)
    ensures SendRefused(c) ==> Send(c, bytes, shutting) == c
    ensures !SendRefused(c) ==> Send(c, bytes, shutting).accepted == c.accepted + [bytes]
  {
    hide Grows, SameObject, SameTold, Pump;
    SendData(c, bytes, shutting);
  }

  // ---- the server's step on a record ----

  /** A refill touches no call. */
  lemma {:induction false} PostAcceptsRecord(s: Server, id: nat)
    requires Ids(s)
    ensures Record(PostAccepts(s), id) == Record(s, id)
    decreases s.window - s.accepts
  {
    hide Ids, AddSlot, Record;
    if HasRoom(s) {
      AddSlotNames(s);
      AddSlotRecords(s);
      SlotCounted(s);
      PostAcceptsRecord(AddSlot(s), id);
    }
  }

  lemma SlotCounted(s: Server)
    ensures AddSlot(s).window == s.window && AddSlot(s).accepts == s.accepts + 1
  {
  }

  lemma RefillRecord(s: Server, id: nat)
    requires Ids(s)
    ensures Record(Refill(s), id) == Record(s, id)
  {
    hide PostAccepts, Ids;
    PostAcceptsRecord(s, id);
  }

  lemma RecordFrame(s: Server, t: Server, id: nat)
    requires t.live == s.live && t.freed == s.freed && t.owner == s.owner
    ensures Record(t, id) == Record(s, id)
  {
  }

  lemma HandledRecord(s: Server, oid: nat, k: TagKind, ok: bool, a: Arrival, id: nat)
    requires Ids(s) && Dereferenceable(s, oid, k) && k != TAccept && s.live[oid].id != 0
    ensures Record(DoTagDone(s, oid, k, ok, a), id)
         == if s.live[oid].id == id then Some(OnTag(s.live[oid], k, ok, s.shutting)) else Record(s, id)
  {
    hide Ids, PutBack, OnTag, EventOf, Grows, Refill, Record;
    var d, ev := OnTag(s.live[oid], k, ok, s.shutting), EventOf(s.live[oid], k, ok, a);
    var t := PutBack(s, oid, d, ev);
    PutBackRecord(s, oid, d, ev, id);
    PutBackIds(s, oid, d, ev);
    RefillRecord(t, id);
    RecordFrame(t, AfterHandlerLag(t, oid), id);
  }

  function AfterHandlerLag(t: Server, oid: nat): Server {
    t.(lag := if oid in t.live then t.lag else t.lag + 1)
  }

  lemma AcceptedRecord(s: Server, oid: nat, a: Arrival, id: nat)
    requires Ids(s) && Dereferenceable(s, oid, TAccept)
    ensures Record(DoTagDone(s, oid, TAccept, true, a), id)
         == if id == s.nextId then Some(OnAccept(s.live[oid], s.nextId, s.shutting)) else Record(s, id)
  {
    hide Ids, OnAccept, Refill, Record, AcceptOk;
    AcceptOkRecord(s, oid, id);
    AcceptOkIds(s, oid);
    RefillRecord(AcceptOk(s, oid), id);
  }

  lemma RefusedRecord(s: Server, oid: nat, a: Arrival, id: nat)
    requires Ids(s) && Dereferenceable(s, oid, TAccept)
    ensures Record(DoTagDone(s, oid, TAccept, false, a), id) == Record(s, id)
  {
    hide Ids, PutBack, Record, Settle;
    var c := Settle(s.live[oid], TAccept).(acceptBack := true);
    assert c.id == 0 by { SettledSlot(s.live[oid]); }
    PutBackRecord(s, oid, c, None, id);
    var t := PutBack(s, oid, c, None);
    RecordFrame(t, t.(accepts := s.accepts - 1, lag := s.lag + 1), id);
  }

  lemma SettledSlot(c: Call)
    ensures Settle(c, TAccept).(acceptBack := true).id == c.id
  {
  }

  lemma UpdatedRecord(s: Server, i: nat, d: Call, id: nat)
    requires Inv(s) && Found(s, i)
    ensures Record(s, i) == Some(s.live[s.active[i]])
    ensures Record(Update(s, i, d), id) == if id == i then Some(d) else Record(s, id)
  {
    hide CallsOk, HistoryOk, BoxInv;
  }

  lemma NothingMoves(s: Server, act: Action, id: nat, r: Option<Call>)
    requires Takes(s, act, id) == [] && Finishes(s, act, id) == [] && Asks(s, act, id) == None
    requires !ReadsOn(s, act, id) && !Kills(s, act, id)
    ensures DataMoves(s, act, id, r, r)
  {
    assert AcceptedOf(r) + [] == AcceptedOf(r) && CompletedOf(r) + [] == CompletedOf(r);
  }

  lemma HandledMoves(s: Server, oid: nat, k: TagKind, ok: bool, a: Arrival, id: nat)
    requires Inv(s) && Dereferenceable(s, oid, k) && k in s.live[oid].out && k != TAccept
    ensures DataMoves(s, TagDone(oid, k, ok, a), id, Record(s, id), Record(DoTagDone(s, oid, k, ok, a), id))
  {
    hide Inv, Core, BoxInv, Ids, CallsOk, DoTagDone, OnTag, Record, AskedBy, DataMoves;
    InvCore(s);
    CoreParts(s);
    OwedCall(s, oid, k);
    LiveRecord(s, oid);
    HandledRecord(s, oid, k, ok, a, id);
    var act := TagDone(oid, k, ok, a);
    if s.live[oid].id == id {
      TaggedMoves(s, act, id);
    } else {
      assert Finishes(s, act, id) == [] && Takes(s, act, id) == [] && !Kills(s, act, id);
      NothingMoves(s, act, id, Record(s, id));
    }
  }

  lemma TaggedMoves(s: Server, act: Action, id: nat)
    requires act.TagDone? && act.kind != TAccept && Dereferenceable(s, act.oid, act.kind)
    requires id != 0 && s.live[act.oid].id == id
    ensures DataMoves(s, act, id, Some(s.live[act.oid]), Some(OnTag(s.live[act.oid], act.kind, act.ok, s.shutting)))
  {
    hide OnTag, AskedBy;
    var c := s.live[act.oid];
    OnTagData(c, act.kind, act.ok, s.shutting);
    assert c.accepted + [] == c.accepted && c.completed + [] == c.completed;
  }

  lemma LiveRecord(s: Server, oid: nat)
    requires Ids(s) && oid in s.live && s.live[oid].id != 0
    ensures Record(s, s.live[oid].id) == Some(s.live[oid])
  {
  }

  lemma AcceptMoves(s: Server, oid: nat, ok: bool, a: Arrival, id: nat)
    requires Inv(s) && Dereferenceable(s, oid, TAccept)
    ensures DataMoves(s, TagDone(oid, TAccept, ok, a), id, Record(s, id), Record(DoTagDone(s, oid, TAccept, ok, a), id))
  {
    hide Inv, Core, BoxInv, Ids, CallsOk, DoTagDone, OnAccept, Record, CallInv, LiveCall, DataMoves;
    InvCore(s);
    CoreParts(s);
    CoreLive(s, oid);
    NextRecord(s);
    var act := TagDone(oid, TAccept, ok, a);
    if ok {
      AcceptedRecord(s, oid, a, id);
    } else {
      RefusedRecord(s, oid, a, id);
    }
    if ok && id == s.nextId {
      BornMoves(s, act, oid, id);
    } else {
      assert Finishes(s, act, id) == [] && Takes(s, act, id) == [] && !Kills(s, act, id);
      NothingMoves(s, act, id, Record(s, id));
    }
  }

  lemma BornMoves(s: Server, act: Action, oid: nat, id: nat)
    requires act.TagDone? && act.kind == TAccept && act.ok && act.oid == oid && id == s.nextId
    requires oid in s.live && s.live[oid].id == 0 && CallInv(s.live[oid], s.shutting)
    ensures DataMoves(s, act, id, None, Some(OnAccept(s.live[oid], s.nextId, s.shutting)))
  {
    hide CallInv, OnAccept, AskedBy;
    AcceptData(s.live[oid], s.nextId, s.shutting);
  }

  lemma NextRecord(s: Server)
    requires Ids(s)
    ensures Record(s, s.nextId) == None && s.nextId !in s.active
  {
  }

  lemma EntryMoves(s: Server, act: Action, i: nat, d: Call, id: nat)
    requires Inv(s) && Found(s, i)
    requires DataMoves(s, act, i, Some(s.live[s.active[i]]), Some(d))
    requires id != i ==> DataMoves(s, act, id, Record(s, id), Record(s, id))
    ensures DataMoves(s, act, id, Record(s, id), Record(Update(s, i, d), id))
  {
    hide Inv, DataMoves, Update, Record;
    UpdatedRecord(s, i, d, id);
  }

  lemma CallUnasked(s: Server, i: nat)
    requires Inv(s) && Found(s, i)
    ensures !s.live[s.active[i]].replied ==> !s.live[s.active[i]].aborted
  {
    InvCore(s);
    hide Inv;
    FoundIsLive(s, i);
    hide Core, Fits, Of, WritesOk, OpsOk, ReadsOk, TagsExact;
  }

  lemma ReplyMoves(s: Server, i: nat, final: Final, id: nat)
    requires Inv(s)
    ensures DataMoves(s, ReplyTo(i, final), id, Record(s, id), Record(DoReply(s, i, final), id))
  {
    hide Inv, Record, Update, Reply, Of, AskedBy;
    if Found(s, i) {
      var c := s.live[s.active[i]];
      CallUnasked(s, i);
      ReplyData(c, final, Sent(s, i), s.shutting);
      assert c.accepted + [] == c.accepted && c.completed + [] == c.completed;
      if id != i {
        NothingMoves(s, ReplyTo(i, final), id, Record(s, id));
      }
      EntryMoves(s, ReplyTo(i, final), i, Reply(c, final, Sent(s, i), s.shutting), id);
    } else {
      NothingMoves(s, ReplyTo(i, final), id, Record(s, id));
    }
  }

  lemma FinishMoves(s: Server, i: nat, code: int, drain: bool, id: nat)
    requires Inv(s)
    ensures DataMoves(s, FinishCall(i, code, drain), id, Record(s, id), Record(DoFinish(s, i, code, drain), id))
  {
    hide Inv, Record, Update, Finish, Of, AskedBy;
    if Found(s, i) {
      var c := s.live[s.active[i]];
      CallUnasked(s, i);
      FinishData(c, code, drain, Sent(s, i), s.shutting);
      assert c.accepted + [] == c.accepted && c.completed + [] == c.completed;
      if id != i {
        NothingMoves(s, FinishCall(i, code, drain), id, Record(s, id));
      }
      EntryMoves(s, FinishCall(i, code, drain), i, Finish(c, code, drain, Sent(s, i), s.shutting), id);
    } else {
      NothingMoves(s, FinishCall(i, code, drain), id, Record(s, id));
    }
  }

  lemma ReadMoves(s: Server, i: nat, id: nat)
    requires Inv(s)
    ensures DataMoves(s, ReadFrom(i), id, Record(s, id), Record(DoRead(s, i), id))
  {
    hide Inv, Record, Update, Read, AskedBy;
    if Found(s, i) {
      var c := s.live[s.active[i]];
      ReadData(c);
      assert c.accepted + [] == c.accepted && c.completed + [] == c.completed;
      if id != i {
        NothingMoves(s, ReadFrom(i), id, Record(s, id));
      }
      EntryMoves(s, ReadFrom(i), i, Read(c), id);
    } else {
      NothingMoves(s, ReadFrom(i), id, Record(s, id));
    }
  }

  lemma SendMoves(s: Server, i: nat, bytes: Bytes, id: nat)
    requires Inv(s)
    ensures DataMoves(s, SendTo(i, bytes), id, Record(s, id), Record(DoSend(s, i, bytes), id))
  {
    hide Inv, Record, Update, Send, AskedBy;
    if Found(s, i) {
      var c := s.live[s.active[i]];
      SendData(c, bytes, s.shutting);
      assert c.completed + [] == c.completed;
      if id != i {
        NothingMoves(s, SendTo(i, bytes), id, Record(s, id));
      }
      EntryMoves(s, SendTo(i, bytes), i, Send(c, bytes, s.shutting), id);
    } else {
      NothingMoves(s, SendTo(i, bytes), id, Record(s, id));
    }
  }

  lemma RestKeeps(s: Server, act: Action, id: nat)
    requires Enabled(s, act)
    requires act.PollEnter? || act.PollReadable? || act.PollOver? || act.Shutdown?
    ensures Record(Apply(s, act), id) == Record(s, id)
  {
    hide Record, DeliverBox, HaveMatch, DoTagDone, DoReply, DoFinish, DoRead, DoSend;
    RecordFrame(s, Apply(s, act), id);
  }

  lemma StepData(s: Server, act: Action, id: nat)
    requires Inv(s) && Enabled(s, act)
    ensures DataMoves(s, act, id, Record(s, id), Record(Apply(s, act), id))
  {
    hide Inv, DoTagDone, DoReply, DoFinish, DoRead, DoSend, DoPollEnter, DoPollReadable, DoPollOver;
    hide DoShutdown, DataMoves, Record;
    match act
    case TagDone(oid, k, ok, a) =>
      OwedIsLive(s, oid, k);
      if k == TAccept {
        AcceptMoves(s, oid, ok, a, id);
      } else {
        HandledMoves(s, oid, k, ok, a, id);
      }
    case ReplyTo(i, final) => ReplyMoves(s, i, final, id);
    case FinishCall(i, code, drain) => FinishMoves(s, i, code, drain, id);
    case ReadFrom(i) => ReadMoves(s, i, id);
    case SendTo(i, bytes) => SendMoves(s, i, bytes, id);
    case _ =>
      RestKeeps(s, act, id);
      NothingMoves(s, act, id, Record(s, id));
  }

  // ---- whole runs ----

  /** Everything the actions of a run told about one call, in order. */
  ghost function Told(s0: Server, acts: seq<Action>, id: nat): seq<EventKind>
    requires ValidRun(s0, acts)
  {
    if acts == [] then []
    else
      var n := |acts| - 1;
      Told(s0, acts[..n], id) + Tells(Exec(s0, acts[..n]), acts[n], id)
  }

  /** The payloads of the sends that were taken, in order. */
  ghost function SentTo(s0: Server, acts: seq<Action>, id: nat): seq<Bytes>
    requires ValidRun(s0, acts)
  {
    if acts == [] then []
    else
      var n := |acts| - 1;
      SentTo(s0, acts[..n], id) + Takes(Exec(s0, acts[..n]), acts[n], id)
  }

  /** The terminal that was asked for and taken, if any. */
  ghost function Asked(s0: Server, acts: seq<Action>, id: nat): Option<Asking>
    requires ValidRun(s0, acts)
  {
    if acts == [] then None
    else
      var n := |acts| - 1;
      var asks := Asks(Exec(s0, acts[..n]), acts[n], id);
      if asks.Some? then asks else Asked(s0, acts[..n], id)
  }

  /** How many reads were taken. */
  ghost function ReadsTaken(s0: Server, acts: seq<Action>, id: nat): nat
    requires ValidRun(s0, acts)
  {
    if acts == [] then 0
    else
      var n := |acts| - 1;
      ReadsTaken(s0, acts[..n], id) + B(ReadsOn(Exec(s0, acts[..n]), acts[n], id))
  }

  /** In every run a call's history, delivered and still queued, is exactly what the actions told: the bytes
      that good reads brought, and each notice when its cause occurred. */
  lemma {:induction false} HistoryIsTold(window: int, maxActive: int, capacity: nat, acts: seq<Action>, id: nat)
    requires 1 <= capacity && ValidRun(Init(window, maxActive, capacity), acts)
    ensures Of(Exec(Init(window, maxActive, capacity), acts).box.pushed, id)
         == Told(Init(window, maxActive, capacity), acts, id)
  {
    hide Apply, Tells, Of, Init, Inv;
    var s0 := Init(window, maxActive, capacity);
    if acts == [] {
      EmptyHistory(window, maxActive, capacity, id);
    } else {
      var n := |acts| - 1;
      HistoryIsTold(window, maxActive, capacity, acts[..n], id);
      RunInv(window, maxActive, capacity, acts[..n]);
      StepTells(Exec(s0, acts[..n]), acts[n], id);
    }
  }

  lemma EmptyHistory(window: int, maxActive: int, capacity: nat, id: nat)
    ensures Of(Init(window, maxActive, capacity).box.pushed, id) == []
    ensures Record(Init(window, maxActive, capacity), id) == None
  {
    hide Refill;
    RefillFrame(Blank(window, maxActive, capacity));
    RefillRecord(Blank(window, maxActive, capacity), id);
  }

  /** In every run what a call accepted is what its owner handed over: the sends that were taken, in order;
      the terminal that was asked for, with its response and status; and the reads that were taken. */
  lemma {:induction false} RecordIsAsked(window: int, maxActive: int, capacity: nat, acts: seq<Action>, id: nat)
    requires 1 <= capacity && ValidRun(Init(window, maxActive, capacity), acts)
    ensures var s0 := Init(window, maxActive, capacity);
      var r := Record(Exec(s0, acts), id);
      AcceptedOf(r) == SentTo(s0, acts, id) && AskedOf(r) == Asked(s0, acts, id) && ReadsOf(r) == ReadsTaken(s0, acts, id)
  {
    hide Apply, Init, Inv, Record, Takes, Asks, ReadsOn, Kills, Finishes, AcceptedOf, AskedOf, ReadsOf, CompletedOf, DeadIs;
    var s0 := Init(window, maxActive, capacity);
    if acts == [] {
      EmptyHistory(window, maxActive, capacity, id);
      NothingAtFirst();
    } else {
      var n := |acts| - 1;
      RecordIsAsked(window, maxActive, capacity, acts[..n], id);
      RunInv(window, maxActive, capacity, acts[..n]);
      StepData(Exec(s0, acts[..n]), acts[n], id);
    }
  }

  lemma NothingAtFirst()
    ensures AcceptedOf(None) == [] && AskedOf(None) == None && ReadsOf(None) == 0
  {
  }

  /** In every run the terminal that goes out on a call, if one does, is the one that its accepted reply or
      finish asked for. */
  lemma TerminalIsAsked(window: int, maxActive: int, capacity: nat, acts: seq<Action>, id: nat, i: nat)
    requires 1 <= capacity && ValidRun(Init(window, maxActive, capacity), acts)
    requires Record(Exec(Init(window, maxActive, capacity), acts), id).Some?
    requires i < |Record(Exec(Init(window, maxActive, capacity), acts), id).value.ops|
    requires Record(Exec(Init(window, maxActive, capacity), acts), id).value.ops[i].TerminalOp?
    ensures var s0 := Init(window, maxActive, capacity);
      var c := Record(Exec(s0, acts), id).value;
      Asked(s0, acts, id) == Some(Asking(c.ops[i].final, c.aborted))
  {
    hide Inv, Record, Init, Exec, Asked, Shape, AskedBy;
    var s := Exec(Init(window, maxActive, capacity), acts);
    RunInv(window, maxActive, capacity, acts);
    RecordShape(s, id);
    RecordIsAsked(window, maxActive, capacity, acts, id);
    TerminalOfShape(Record(s, id).value, i);
  }

  lemma TerminalOfShape(c: Call, i: nat)
    requires Shape(c) && i < |c.ops| && c.ops[i].TerminalOp?
    ensures AskedBy(c) == Some(Asking(c.ops[i].final, c.aborted))
  {
    hide TagsExact, WritesOk, ReadsOk;
  }

  lemma RecordShape(s: Server, id: nat)
    requires Inv(s) && Record(s, id).Some?
    ensures Shape(Record(s, id).value)
  {
    InvCore(s);
    CoreParts(s);
    hide Inv, Core, Ids, BoxInv, Shape;
    var oid := s.owner[id];
    if oid in s.live {
      LiveShape(s.live[oid], oid, s.shutting);
    } else {
      assert FreedCall(s.freed[oid]);
    }
  }
}
