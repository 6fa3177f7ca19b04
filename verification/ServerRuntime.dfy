/** The server as the program has it: call objects, the `active` map, the slot counter and the shared
    queue, updated in place by the entry points, the completion thread and the poll. Each method is
    proved to take the steps of ServerModel, so every theorem about the model's runs is a theorem about
    these objects. */
module ServerRuntime {
  import opened Common
  import opened Events
  import opened Mailbox
  import opened EventQueue
  import opened SC = ServerCall
  import opened CallRuntime
  import SM = ServerModel
  import ServerInv
  import ServerRuns
  import ServerShutdown
  import ServerData

  class ServerHandle {
    const window: int
    const maxActive: int
    var live: map<nat, SvCall>      // what the outstanding tags point at; accept slots are in no other map
    var active: map<nat, SvCall>
    var accepts: int
    var nextId: nat
    var nextOid: nat
    var closed: bool
    var shutting: bool
    const queue: Queue<EventKind>
    ghost var freed: map<nat, Call>
    ghost var deleted: multiset<nat>
    ghost var owner: map<nat, nat>
    ghost var lag: nat

    ghost function LiveView(): map<nat, Call>
      reads this, live.Values
    {
      map o | o in live :: live[o].View()
    }

    ghost function ActiveView(): map<nat, nat>
      reads this
    {
      map id | id in active :: active[id].oid
    }

    /** The state of the machine that this heap represents. */
    ghost function View(): SM.Server
      reads this, queue, queue.wake, live.Values
    {
      SM.Server(window, maxActive, LiveView(), ActiveView(), accepts, nextId, nextOid, closed, shutting,
                queue.View(), freed, deleted, owner, lag)
    }

    /** The representation is sound: distinct names are distinct objects, and `active` points at live
        ones. What holds of the state it represents is ServerInv.Inv, which every step keeps. */
    ghost predicate Valid()
      reads this, queue, queue.wake, live.Values
    {
      && queue.Valid()
      && nextId >= 1
      && 0 !in active
      && (forall o :: o in live ==> live[o].oid == o && o < nextOid)
      && (forall id :: id in active ==> active[id].oid in live && live[active[id].oid] == active[id])
      && (forall id :: id in active ==> active[id].Id() == id)
    }

    constructor (window: int, maxActive: int, capacity: nat)
      requires 1 <= capacity
      ensures Valid() && View() == SM.Init(window, maxActive, capacity) && fresh(queue) && fresh(queue.wake)
      ensures fresh(live.Values)
    {
      this.window := window;
      this.maxActive := maxActive;
      live, active, accepts := map[], map[], 0;
      nextId, nextOid, closed, shutting := 1, 0, false, false;
      freed, deleted, owner, lag := map[], multiset{}, map[], 0;
      queue := new Queue(capacity);
      new;
      assert LiveView() == map[] && ActiveView() == map[];
      assert View() == SM.Blank(window, maxActive, capacity);
      PostAccepts();
    }

    // ---- admission ----

    lemma ActiveCount()
      ensures |ActiveView()| == |active|
    {
      assert ActiveView().Keys == active.Keys;
    }

    method Place(c: SvCall)
      requires Valid() && c.oid == View().nextOid
      modifies this`live, this`nextOid
      ensures Valid() && live == old(live)[c.oid := c]
      ensures var v := old(View()); View() == v.(live := v.live[c.oid := c.View()], nextOid := v.nextOid + 1)
    {
      hide SvCall.View, Queue.View;
      live := live[c.oid := c];
      nextOid := nextOid + 1;
      assert LiveView() == old(LiveView())[c.oid := c.View()];
      assert ActiveView() == old(ActiveView());
    }

    method CountSlot()
      requires Valid()
      modifies this`accepts
      ensures Valid() && View() == old(View()).(accepts := old(View()).accepts + 1) && accepts == old(accepts) + 1
    {
      hide SvCall.View, Queue.View;
      accepts := accepts + 1;
      assert LiveView() == old(LiveView()) && ActiveView() == old(ActiveView());
    }

    method NewSlot() returns (c: SvCall)
      requires Valid()
      ensures fresh(c) && c.oid == View().nextOid && c.View() == SC.Slot(c.oid)
      ensures Valid() && View() == old(View())
    {
      hide SvCall.View, Queue.View, SC.Slot;
      c := new SvCall(nextOid);
      assert LiveView() == old(LiveView());
    }

    method AddSlot()
      requires Valid()
      modifies this`live, this`nextOid, this`accepts
      ensures Valid() && View() == SM.AddSlot(old(View())) && accepts == old(accepts) + 1
      ensures forall c :: c in live.Values ==> c in old(live).Values || fresh(c)
    {
      hide SvCall.View, SC.Slot, View, Valid, Queue.View;
      var c := NewSlot();
      Place(c);
      CountSlot();
    }

    method PostAccepts()
      requires Valid()
      modifies this`live, this`nextOid, this`accepts, this`lag
      ensures Valid() && View() == SM.Refill(old(View()))
      ensures forall c :: c in live.Values ==> c in old(live).Values || fresh(c)
    {
      hide SvCall.View, Queue.View, SM.AddSlot, SM.PostAccepts, View, Valid;
      ghost var v0 := View();
      assert SM.PostAccepts(View()) == SM.PostAccepts(v0);
      while Wanting()
        invariant Valid() && SM.PostAccepts(View()) == SM.PostAccepts(v0)
        invariant forall c :: c in live.Values ==> c in old(live).Values || fresh(c)
        decreases window - accepts
      {
        PostAcceptsStep(View());
        AddSlot();
      }
      PostAcceptsStep(View());
      ClearLag();
    }

    lemma PostAcceptsStep(s: SM.Server)
      ensures SM.PostAccepts(s) == if SM.HasRoom(s) then SM.PostAccepts(SM.AddSlot(s)) else s
    {
    }

    ghost method ClearLag()
      modifies this`lag
      ensures View() == old(View()).(lag := 0) && (old(Valid()) ==> Valid())
    {
      hide SvCall.View, Queue.View;
      lag := 0;
      assert LiveView() == old(LiveView()) && ActiveView() == old(ActiveView());
    }

    predicate Wanting()
      reads this, queue, queue.wake, live.Values
      ensures Wanting() == SM.HasRoom(View())
      ensures Wanting() ==> accepts < window
    {
      ActiveCount();
      !shutting && accepts < window && |active| + accepts < maxActive
    }

    // ---- completions: the body of the completion thread's loop, one tag at a time ----

    /** The tag's object, reached through the tag. */
    ghost predicate Holds(c: SvCall)
      reads this
    {
      c.oid in live && live[c.oid] == c
    }

    method Unlist(c: SvCall)
      requires Valid() && Holds(c)
      modifies this`active
      ensures Valid() && (forall id :: id in active ==> active[id] != c)
      ensures var v, id := old(View()), c.View().id;
        View() == v.(active := if id != 0 then v.active - {id} else v.active)
    {
      hide SvCall.View, Queue.View;
      if c.Id() != 0 {
        active := active - {c.Id()};
        assert ActiveView() == old(ActiveView()) - {c.Id()};
      }
      assert LiveView() == old(LiveView());
    }

    method Delete(c: SvCall)
      requires Valid() && Holds(c) && forall id :: id in active ==> active[id] != c
      modifies this`live, this`freed, this`deleted
      ensures Valid() && live == old(live) - {c.oid}
      ensures var v := old(View());
        View() == v.(live := v.live - {c.oid}, freed := v.freed[c.oid := c.View()],
                     deleted := v.deleted + multiset{c.oid})
    {
      hide SvCall.View, Queue.View;
      freed := freed[c.oid := c.View()];
      deleted := deleted + multiset{c.oid};
      live := live - {c.oid};
      assert LiveView() == old(LiveView()) - {c.oid};
      assert ActiveView() == old(ActiveView());
    }

    lemma HoldsView(c: SvCall)
      requires Holds(c)
      ensures c.oid in View().live && View().live[c.oid] == c.View()
    {
    }

    method MaybeFree(c: SvCall)
      requires Valid() && Holds(c)
      modifies this`active, this`live, this`freed, this`deleted
      ensures Valid() && live.Values <= old(live).Values
      ensures c.oid in old(View()).live && View() == SM.MaybeFree(old(View()), c.oid)
    {
      hide SvCall.View, View, Valid;
      HoldsView(c);
      if c.IsIdle() {
        Unlist(c);
        Delete(c);
      }
    }

    /** The handler of a tag other than accept: the record changes, an event may be queued. */
    method Handle(c: SvCall, k: TagKind, ok: bool, a: Arrival)
      requires Valid() && Holds(c) && k != TAccept && (k == TWrite ==> c.View().writeQueue != [])
      modifies c, queue, queue.wake
      ensures Valid()
      ensures var v := old(View());
        var d, ev := SC.OnTag(old(c.View()), k, ok, v.shutting), EventOf(old(c.View()), k, ok, a);
        View() == SM.Emit(v, d.id, ev).(live := v.live[c.oid := d])
      ensures var v, bytes := old(c.View()), if a.bytes.Some? then a.bytes.value else [];
        queue.pushed == old(queue.pushed) +
          (if k == TRead && ok && !v.dead && !v.delivered then [Event(v.id, Request(bytes))]
           else if k == TRead && ok && !v.dead then [Event(v.id, Msg(bytes))]
           else if k == TRead && !ok && v.delivered && !v.dead then [Event(v.id, ClientDone)]
           else if k == TWrite && ok && !v.dead && |v.writeQueue| == 1 && !v.replied then [Event(v.id, Writable)]
           else if k == TDone && v.delivered && !v.replied then [Event(v.id, Cancelled)]
           else [])
    {
      hide SvCall.View, SC.OnTag, EventOf, Grows, Queue.View, Mailbox.Push;
      c.OnTag(k, ok, a, shutting, queue);
      assert LiveView() == old(LiveView())[c.oid := c.View()];
      assert ActiveView() == old(ActiveView());
    }

    ghost method CountUnfilled(oid: nat)
      modifies this`lag
      ensures View() == old(View()).(lag := if oid in old(View()).live then old(View()).lag else old(View()).lag + 1)
      ensures old(Valid()) ==> Valid()
    {
      hide SvCall.View, Queue.View;
      if oid !in live {
        lag := lag + 1;
      }
      assert LiveView() == old(LiveView()) && ActiveView() == old(ActiveView());
    }

    method Handled(c: SvCall, k: TagKind, ok: bool, a: Arrival)
      requires Valid() && Holds(c) && k != TAccept && (k == TWrite ==> c.View().writeQueue != [])
      modifies this, c, queue, queue.wake
      ensures Valid() && (forall d :: d in live.Values ==> d in old(live).Values || fresh(d))
      ensures SM.Dereferenceable(old(View()), c.oid, k)
      ensures View() == SM.Handled(old(View()), c.oid, k, ok, a)
      ensures var v, bytes := old(c.View()), if a.bytes.Some? then a.bytes.value else [];
        queue.pushed == old(queue.pushed) +
          (if k == TRead && ok && !v.dead && !v.delivered then [Event(v.id, Request(bytes))]
           else if k == TRead && ok && !v.dead then [Event(v.id, Msg(bytes))]
           else if k == TRead && !ok && v.delivered && !v.dead then [Event(v.id, ClientDone)]
           else if k == TWrite && ok && !v.dead && |v.writeQueue| == 1 && !v.replied then [Event(v.id, Writable)]
           else if k == TDone && v.delivered && !v.replied then [Event(v.id, Cancelled)]
           else [])
    {
      hide SvCall.View, View, Valid, SC.OnTag, EventOf, SM.MaybeFree, SM.Emit, SM.Refill, Grows;
      HoldsView(c);
      Handle(c, k, ok, a);
      MaybeFree(c);
      if k == TDone || k == TFinish {
        PostAccepts();
      } else {
        CountUnfilled(c.oid);
      }
    }

    /** An accept matched: the slot becomes a call. */
    method Match(c: SvCall)
      requires Valid() && Holds(c) && c.View().id == 0
      modifies c
      ensures Valid() && c.View().id == View().nextId
      ensures var v := old(View());
        View() == v.(live := v.live[c.oid := SC.OnAccept(old(c.View()), v.nextId, v.shutting)])
    {
      hide SvCall.View, SC.OnAccept, Queue.View;
      c.OnAccept(nextId, shutting);
      assert LiveView() == old(LiveView())[c.oid := c.View()];
      assert ActiveView() == old(ActiveView());
    }

    method Enlist(c: SvCall)
      requires Valid() && Holds(c) && c.View().id == View().nextId
      modifies this`active, this`owner
      ensures Valid()
      ensures var v := old(View());
        View() == v.(active := v.active[v.nextId := c.oid], owner := v.owner[v.nextId := c.oid])
    {
      hide SvCall.View, Queue.View;
      active := active[nextId := c];
      owner := owner[nextId := c.oid];
      assert LiveView() == old(LiveView());
      assert ActiveView() == old(ActiveView())[nextId := c.oid];
    }

    method UseId()
      requires Valid()
      modifies this`nextId, this`accepts
      ensures Valid() && View() == old(View()).(nextId := old(View()).nextId + 1, accepts := old(View()).accepts - 1)
    {
      hide SvCall.View, Queue.View;
      nextId := nextId + 1;
      accepts := accepts - 1;
      assert LiveView() == old(LiveView()) && ActiveView() == old(ActiveView());
    }

    method AcceptOk(c: SvCall)
      requires Valid() && Holds(c) && c.View().id == 0
      modifies this, c
      ensures Valid() && (forall d :: d in live.Values ==> d in old(live).Values || fresh(d))
      ensures c.oid in old(View()).live && old(View()).live[c.oid].id == 0
      ensures View() == SM.Refill(SM.AcceptOk(old(View()), c.oid))
    {
      hide SvCall.View, View, Valid, SC.OnAccept, SM.Refill;
      HoldsView(c);
      Match(c);
      Enlist(c);
      UseId();
      PostAccepts();
    }

    method Refuse(c: SvCall)
      requires Valid() && Holds(c)
      modifies c
      ensures Valid()
      ensures var v := old(View());
        View() == v.(live := v.live[c.oid := Settle(old(c.View()), TAccept).(acceptBack := true)])
    {
      hide SvCall.View, Settle, Queue.View;
      RefuseSlot(c);
      assert LiveView() == old(LiveView())[c.oid := c.View()];
      assert ActiveView() == old(ActiveView());
    }

    static method RefuseSlot(c: SvCall)
      modifies c
      ensures c.View() == Settle(old(c.View()), TAccept).(acceptBack := true) && c.View().id == old(c.View()).id
    {
      hide SvCall.View;
      c.Settle(TAccept);
      c.SlotRefused();
    }

    method SlotGone()
      requires Valid()
      modifies this`accepts, this`lag
      ensures Valid() && View() == old(View()).(accepts := old(View()).accepts - 1, lag := old(View()).lag + 1)
    {
      hide SvCall.View, Queue.View;
      accepts := accepts - 1;
      lag := lag + 1;
      assert LiveView() == old(LiveView()) && ActiveView() == old(ActiveView());
    }

    method AcceptFailed(c: SvCall)
      requires Valid() && Holds(c)
      modifies this, c
      ensures Valid() && live.Values <= old(live).Values
      ensures c.oid in old(View()).live && View() == SM.AcceptFailed(old(View()), c.oid)
    {
      hide SvCall.View, View, Valid, Settle;
      HoldsView(c);
      Refuse(c);
      MaybeFree(c);
      SlotGone();
    }

    /** One tag comes back. That its object can be reached through it is what ServerInv.TagIsLive proves
        of every reachable state. */
    method TagDone(c: SvCall, k: TagKind, ok: bool, a: Arrival)
      requires Valid() && Holds(c) && SM.Dereferenceable(View(), c.oid, k)
      modifies this, c, queue, queue.wake
      ensures Valid() && (forall d :: d in live.Values ==> d in old(live).Values || fresh(d))
      ensures View() == SM.DoTagDone(old(View()), c.oid, k, ok, a)
      ensures var v, bytes := old(c.View()), if a.bytes.Some? then a.bytes.value else [];
        queue.pushed == old(queue.pushed) +
          (if k == TRead && ok && !v.dead && !v.delivered then [Event(v.id, Request(bytes))]
           else if k == TRead && ok && !v.dead then [Event(v.id, Msg(bytes))]
           else if k == TRead && !ok && v.delivered && !v.dead then [Event(v.id, ClientDone)]
           else if k == TWrite && ok && !v.dead && |v.writeQueue| == 1 && !v.replied then [Event(v.id, Writable)]
           else if k == TDone && v.delivered && !v.replied then [Event(v.id, Cancelled)]
           else [])
    {
      hide SvCall.View, View, Valid, SM.Handled, SM.AcceptOk, SM.AcceptFailed, SM.Refill;
      HoldsView(c);
      if k != TAccept {
        Handled(c, k, ok, a);
      } else if ok {
        AcceptOk(c);
      } else {
        AcceptFailed(c);
      }
    }

    // ---- entry points ----

    lemma FoundHere(id: nat)
      requires Valid()
      ensures queue.Valid() && View().shutting == shutting
      ensures SM.Found(View(), id) <==> id in active
      ensures id in active ==> Holds(active[id]) && View().active[id] == active[id].oid && active[id] in live.Values
      ensures id in active ==> View().live[View().active[id]] == active[id].View()
    {
      hide SvCall.View, Queue.View;
    }

    /** An entry point has changed the record of the call that `active` names. */
    twostate lemma Updated(id: nat)
      requires old(Valid()) && id in old(active) && queue.View() == old(queue.View())
      requires unchanged(this) && active[id].View().id == old(active[id].View()).id
      requires forall c :: c in live.Values && c != active[id] ==> c.View() == old(c.View())
      requires queue.Valid()
      ensures Valid() && SM.Found(old(View()), id) && View() == SM.Update(old(View()), id, active[id].View())
    {
      hide SvCall.View, Queue.View;
      var c := active[id];
      assert LiveView() == old(LiveView())[c.oid := c.View()];
      assert ActiveView() == old(ActiveView());
    }

    /** Putting a call's own record back changes nothing. */
    lemma Unchanged(id: nat)
      requires Valid() && id in active && SM.Found(View(), id)
      ensures SM.Update(View(), id, active[id].View()) == View()
    {
      hide SvCall.View, Queue.View;
      var v := View();
      assert v.live[v.active[id] := active[id].View()] == v.live;
    }

    ghost function Sent(id: nat): nat
      reads this, queue, queue.wake, live.Values
      ensures Sent(id) == SM.Sent(View(), id)
    {
      |Of(queue.pushed, id)|
    }

    /** The terminal that a reply asks for: the response with status OK, or a bare error status. */
    static function Terminal(response: Option<Bytes>, code: int): Final {
      if code == 0 then Final(response, 0) else Final(None, code)
    }

    method ReplyTo(id: nat, response: Option<Bytes>, code: int) returns (r: Result<bool>)
      requires Valid()
      modifies live.Values
      ensures Valid()
      ensures old(closed) ==> r == HandleClosed && View() == old(View())
      ensures !old(closed) && code == 0 && response.None? ==> r == ResponseMissing && View() == old(View())
      ensures !old(closed) && (code != 0 || response.Some?) ==>
        && r == Ok(id in old(active) && old(active[id].View()).delivered && !old(active[id].View()).replied
                   && !old(active[id].View()).dead)
        && View() == SM.DoReply(old(View()), id, Terminal(response, code))
      ensures r == Ok(true) ==> id in active && active[id].View().replied
      ensures r == Ok(true) && code == 0 ==> active[id].View().final == Final(response, 0)
      ensures r == Ok(true) && code != 0 ==> active[id].View().final == Final(None, code)
      ensures r != Ok(true) ==> View() == old(View())
    {
      hide SvCall.View, View, Valid, SC.Reply, SM.Update, Sent, Grows, SM.Found;
      if closed {
        return HandleClosed;
      }
      if code == 0 && response.None? {
        return ResponseMissing;
      }
      FoundHere(id);
      if id !in active {
        return Ok(false);
      }
      var final := Terminal(response, code);
      ghost var at := Sent(id);
      Unchanged(id);
      ServerData.ReplyTaken(active[id].View(), final, at, shutting);
      var taken := active[id].Reply(final.write, final.code, at, shutting);
      Updated(id);
      return Ok(taken);
    }

    method FinishCall(id: nat, code: int, drain: bool) returns (r: Result<bool>)
      requires Valid()
      modifies live.Values
      ensures Valid()
      ensures old(closed) ==> r == HandleClosed && View() == old(View())
      ensures !old(closed) ==>
        r == Ok(id in old(active) && old(active[id].View()).delivered && !old(active[id].View()).replied
                && !old(active[id].View()).dead)
      ensures !old(closed) ==> View() == SM.DoFinish(old(View()), id, code, drain)
      ensures r == Ok(true) ==> id in active && active[id].View().replied
      ensures r == Ok(true) ==> active[id].View().final == Final(None, code)
      ensures r == Ok(true) ==> (active[id].View().aborted <==> old(active[id].View()).aborted || !drain)
      ensures r != Ok(true) ==> View() == old(View())
    {
      hide SvCall.View, View, Valid, SC.Finish, SM.Update, Sent, Grows, SM.Found;
      if closed {
        return HandleClosed;
      }
      FoundHere(id);
      if id !in active {
        return Ok(false);
      }
      ghost var at := Sent(id);
      Unchanged(id);
      ServerData.FinishTaken(active[id].View(), code, drain, at, shutting);
      var taken := active[id].Finish(code, drain, at, shutting);
      Updated(id);
      return Ok(taken);
    }

    method ReadFrom(id: nat) returns (r: Result<bool>)
      requires Valid()
      modifies live.Values
      ensures Valid()
      ensures old(closed) ==> r == HandleClosed && View() == old(View())
      ensures !old(closed) ==>
        r == Ok(id in old(active) && old(active[id].View()).delivered && !old(active[id].View()).dead
                && !old(active[id].View()).readInflight && !old(active[id].View()).finishPosted)
      ensures !old(closed) ==> View() == SM.DoRead(old(View()), id)
      ensures r == Ok(true) ==> id in active && active[id].View().ops == old(active[id].View()).ops + [ReadOp]
      ensures r != Ok(true) ==> View() == old(View())
    {
      hide SvCall.View, View, Valid, SC.Read, SM.Update, Sent, Grows, SM.Found;
      if closed {
        return HandleClosed;
      }
      FoundHere(id);
      if id !in active {
        return Ok(false);
      }
      Unchanged(id);
      ServerData.ReadTaken(active[id].View());
      var posted := active[id].Read();
      Updated(id);
      return Ok(posted);
    }

    method SendTo(id: nat, bytes: Bytes) returns (r: Result<bool>)
      requires Valid()
      modifies live.Values
      ensures Valid()
      ensures old(closed) ==> r == HandleClosed && View() == old(View())
      ensures !old(closed) ==>
        r == Ok(id in old(active) && old(active[id].View()).delivered && !old(active[id].View()).dead
                && !old(active[id].View()).replied && |old(active[id].View()).writeQueue| < 16)
      ensures !old(closed) ==> View() == SM.DoSend(old(View()), id, bytes)
      ensures r == Ok(true) ==> id in active && active[id].View().accepted == old(active[id].View()).accepted + [bytes]
      ensures r != Ok(true) ==> View() == old(View())
    {
      hide SvCall.View, View, Valid, SC.Send, SM.Update, Sent, Grows, SM.Found;
      if closed {
        return HandleClosed;
      }
      FoundHere(id);
      if id !in active {
        return Ok(false);
      }
      Unchanged(id);
      ServerData.SendTaken(active[id].View(), bytes, shutting);
      var queued := active[id].Send(bytes, shutting);
      Updated(id);
      return Ok(queued);
    }

    method BeginShutdown()
      requires Valid()
      modifies this`closed, this`shutting
      ensures Valid()
      ensures View() == if old(closed) then old(View()) else SM.DoShutdown(old(View()))
    {
      hide SvCall.View, Queue.View;
      if closed {
        return;
      }
      closed := true;
      shutting := true;
      assert LiveView() == old(LiveView()) && ActiveView() == old(ActiveView());
    }

    // ---- the completion thread ----

    /** A live object is owed some tag. */
    lemma SomethingOwed(c: SvCall)
      requires ServerInv.Inv(View()) && Holds(c)
      ensures c.View().out != multiset{}
    {
      hide SvCall.View, View, ServerInv.Inv, Shape;
      HoldsView(c);
      ServerShutdown.CoreLiveOf(View(), c.oid);
      ServerShutdown.ShapeAccepted(c.View());
    }

    lemma OwedTag(c: SvCall, k: TagKind)
      requires ServerInv.Inv(View()) && Holds(c) && k in c.View().out
      ensures SM.Outstanding(View(), c.oid, k) && SM.Dereferenceable(View(), c.oid, k)
    {
      hide SvCall.View, View, ServerInv.Inv, ServerInv.CallsOk, ServerInv.Ids, ServerInv.Core;
      HoldsView(c);
      ServerInv.InvCore(View());
      ServerInv.CoreParts(View());
      ServerInv.TagIsLive(View(), c.oid, k);
    }

    /** One completion: any tag the queue owes, with any outcome. */
    method OneTag() returns (ghost act: SM.Action)
      requires Valid() && ServerInv.Inv(View()) && live != map[]
      modifies this, queue, queue.wake, live.Values
      ensures Valid() && ServerInv.Inv(View())
      ensures forall d :: d in live.Values ==> d in old(live).Values || fresh(d)
      ensures act.TagDone? && SM.Enabled(old(View()), act) && View() == SM.Apply(old(View()), act)
    {
      hide SvCall.View, View, Valid, ServerInv.Inv, SM.DoTagDone, SM.Dereferenceable;
      var o :| o in live;
      var c := live[o];
      LiveHolds(o);
      SomethingOwed(c);
      assert c.Owed() == c.View().out;
      var k :| k in c.Owed();
      OwedTag(c, k);
      var ok: bool := *;
      var bytes: Option<Bytes> := *;
      act := SM.TagDone(c.oid, k, ok, Arrival(bytes));
      ServerInv.ApplyInv(View(), act);
      TagDone(c, k, ok, Arrival(bytes));
    }

    lemma LiveHolds(o: nat)
      requires Valid() && o in live
      ensures Holds(live[o])
    {
    }

    lemma LiveDomain()
      ensures live == map[] <==> View().live == map[]
      ensures shutting == View().shutting && closed == View().closed && queue.View() == View().box
      ensures queue.View().poller == queue.poller
    {
      hide SvCall.View;
      assert LiveView().Keys == live.Keys;
      assert live == map[] <==> live.Keys == {};
      assert LiveView() == map[] <==> LiveView().Keys == {};
    }

    // ---- closing ----

    /** The completion thread runs the queue dry after shutdown; it ends because every completion lowers
        what is owed. */
    method RunDry() returns (ghost acts: seq<SM.Action>)
      requires Valid() && ServerInv.Inv(View()) && shutting
      modifies this, queue, queue.wake, live.Values
      ensures Valid() && ServerInv.Inv(View()) && View().live == map[] && View().shutting
      ensures forall d :: d in live.Values ==> d in old(live).Values || fresh(d)
      ensures SM.ValidRun(old(View()), acts) && View() == SM.Exec(old(View()), acts)
    {
      hide SvCall.View, View, Valid, ServerInv.Inv, SM.Apply, SM.Enabled, ServerShutdown.TotalDebt;
      acts := [];
      LiveDomain();
      while live != map[]
        invariant Valid() && ServerInv.Inv(View()) && View().shutting
        invariant live == map[] <==> View().live == map[]
        invariant forall d :: d in live.Values ==> d in old(live).Values || fresh(d)
        invariant SM.ValidRun(old(View()), acts) && View() == SM.Exec(old(View()), acts)
        decreases ServerShutdown.TotalDebt(View())
      {
        ghost var before := View();
        ghost var act := OneTag();
        ServerShutdown.ShuttingStep(before, act);
        SM.ExecSnoc(old(View()), acts, act);
        acts := acts + [act];
        LiveDomain();
      }
    }

    /** rserver_shutdown(): nothing is live when it returns, so the last loop finds `active` empty, and
        every call object ever created was deleted exactly once. */
    method Close() returns (ghost acts: seq<SM.Action>)
      requires Valid() && ServerInv.Inv(View()) && queue.poller.Idle?
      modifies this, queue, queue.wake, live.Values
      ensures Valid() && ServerInv.Inv(View()) && closed && queue.poller.Idle?
      ensures forall d :: d in live.Values ==> d in old(live).Values || fresh(d)
      ensures old(closed) ==> View() == old(View()) && acts == []
      ensures !old(closed) ==> active == map[] && forall o: nat :: deleted[o] == if o < nextOid then 1 else 0
      ensures !old(closed) ==> SM.ValidRun(SM.DoShutdown(old(View())), acts)
      ensures !old(closed) ==> View() == SM.Exec(SM.DoShutdown(old(View())), acts)
    {
      hide SvCall.View, View, Valid, ServerInv.Inv;
      acts := [];
      LiveDomain();
      if closed {
        return;
      }
      ShutdownEnabled();
      ServerInv.ApplyInv(View(), SM.Shutdown);
      BeginShutdown();
      LiveDomain();
      acts := RunDry();
      NothingLeft();
      ServerShutdown.ShuttingIsIdle(View());
      LiveDomain();
    }

    lemma ShutdownEnabled()
      requires queue.poller.Idle? && !closed
      ensures SM.Enabled(View(), SM.Shutdown) && SM.Apply(View(), SM.Shutdown) == SM.DoShutdown(View())
    {
      hide SvCall.View;
    }

    lemma NothingLeft()
      requires Valid() && ServerInv.Inv(View()) && View().live == map[]
      ensures active == map[] && forall o: nat :: deleted[o] == if o < nextOid then 1 else 0
    {
      hide SvCall.View, ServerInv.Inv;
      forall o: nat ensures View().deleted[o] == if o < View().nextOid then 1 else 0 {
        ServerShutdown.EmptyIsClean(View(), o);
      }
      assert ActiveView().Keys == active.Keys;
      ServerShutdown.EmptyIsClean(View(), 0);
    }

    // ---- polls ----

    lemma Sees()
      ensures View().box == queue.View() && View().closed == closed
      ensures queue.View().ready == queue.ready && queue.View().poller == queue.poller
      ensures queue.View().delivered == queue.delivered && queue.View().bytes == queue.wake.bytes
      ensures queue.View().pushed == queue.pushed
    {
      hide SvCall.View;
    }

    /** The queue's critical section at the end of a poll; the calls are not touched. */
    method FinishPoll(want: Option<nat>, max: int) returns (batch: seq<Event<EventKind>>)
      requires Valid()
      modifies queue, queue.wake
      ensures Valid() && View() == SM.Deliver(old(View()), want, max) && queue.poller.Idle?
      ensures queue.delivered == old(queue.delivered) + batch
    {
      hide SvCall.View, Mailbox.TakeLoop, Mailbox.Rearm;
      queue.Drain();
      batch := queue.TakeBatch(want, max);
      queue.Rearm();
      assert LiveView() == old(LiveView()) && ActiveView() == old(ActiveView());
    }

    /** A section that found no match: drain, and release the mutex. */
    method Park(want: Option<nat>, max: int)
      requires Valid()
      modifies queue`poller, queue.wake
      ensures Valid()
      ensures View() == old(View()).(box := old(View()).box.(bytes := 0,
                          poller := NextPark(old(View()).box.poller, want, max)))
    {
      hide SvCall.View;
      queue.Drain();
      queue.Park(want, max, if queue.poller.Idle? then 0 else queue.poller.arrivals,
                 if queue.poller.Idle? then 0 else queue.poller.wakeups + 1);
      assert LiveView() == old(LiveView()) && ActiveView() == old(ActiveView());
    }

    method DrainHandle()
      requires Valid()
      modifies queue.wake
      ensures Valid() && View() == old(View()).(box := Drained(old(View()).box))
    {
      hide SvCall.View;
      queue.Drain();
      assert LiveView() == old(LiveView()) && ActiveView() == old(ActiveView());
    }

    /** The completion thread while the mutex is free: any number of tags, in any order, with any
        outcome. */
    method RunCompletions() returns (ghost acts: seq<SM.Action>)
      requires Valid() && ServerInv.Inv(View())
      modifies this, queue, queue.wake, live.Values
      ensures Valid() && ServerInv.Inv(View())
      ensures forall d :: d in live.Values ==> d in old(live).Values || fresh(d)
      ensures SM.ValidRun(old(View()), acts) && View() == SM.Exec(old(View()), acts)
      ensures SM.StillParked(old(View()), View())
      ensures forall i :: 0 <= i < |acts| ==> SM.IsCompletion(acts[i])
    {
      hide SvCall.View, View, Valid, ServerInv.Inv, SM.Apply, SM.Enabled;
      acts := [];
      var count: nat := *;
      while count > 0 && live != map[]
        invariant Valid() && ServerInv.Inv(View())
        invariant forall d :: d in live.Values ==> d in old(live).Values || fresh(d)
        invariant SM.ValidRun(old(View()), acts) && View() == SM.Exec(old(View()), acts)
        invariant SM.StillParked(old(View()), View())
        invariant forall i :: 0 <= i < |acts| ==> SM.IsCompletion(acts[i])
        decreases count
      {
        count := count - 1;
        ghost var before := View();
        ghost var act := OneTag();
        SM.CompletionKeepsPoll(before, act);
        SM.ExecSnoc(old(View()), acts, act);
        acts := acts + [act];
      }
    }

    method ParkAndWait(want: Option<nat>, max: int, timeout: int) returns (ghost acts: seq<SM.Action>)
      requires Valid() && ServerInv.Inv(View()) && SM.AtSection(View(), want, max)
      requires timeout != 0 && !HaveMatch(View().box.ready, want)
      modifies this, queue, queue.wake, live.Values
      ensures Valid() && ServerInv.Inv(View())
      ensures forall d :: d in live.Values ==> d in old(live).Values || fresh(d)
      ensures Parked(View().box.poller, want, max) && View().box.delivered == old(View()).box.delivered
      ensures SM.ValidRun(old(View()), acts) && View() == SM.Exec(old(View()), acts)
      ensures acts != [] && acts[0] == SM.Section(old(View()), want, max, timeout, false)
      ensures forall i :: 1 <= i < |acts| ==> SM.IsCompletion(acts[i])
    {
      hide SvCall.View, View, Valid, ServerInv.Inv, HaveMatch, SM.Apply, SM.Section, SM.Enabled, SM.IsCompletion;
      ghost var v0 := View();
      ghost var act := SM.Section(v0, want, max, timeout, false);
      SM.SectionParks(v0, want, max, timeout);
      ServerInv.ApplyInv(v0, act);
      SM.ExecSnoc(v0, [], act);
      Park(want, max);
      assert [] + [act] == [act];
      var more := RunCompletions();
      SM.ExecConcat(v0, [act], more);
      acts := [act] + more;
    }

    method GiveUp(want: Option<nat>, max: int)
      requires Valid()
      modifies queue.wake
      ensures Valid() && SM.Deliver(View(), want, max) == SM.Deliver(old(View()), want, max)
      ensures View().box.delivered == old(View()).box.delivered
    {
      hide SvCall.View, View, Valid, SM.Deliver;
      SM.DeliverDrains(View(), want, max);
      DrainHandle();
    }

    /** The wait loop. It ends holding the mutex, in the section `last` of a run that is in progress:
        with a match, past the deadline, or because the wait timed out or was interrupted. How many
        times the handle turns readable before that is the environment's choice. */
    method Wait(want: Option<nat>, max: int, timeout: int)
      returns (ghost acts: seq<SM.Action>, ghost last: SM.Action)
      requires Valid() && ServerInv.Inv(View()) && SM.AtSection(View(), want, max)
      requires timeout != 0 && View().box.poller.Idle?
      modifies this, queue, queue.wake, live.Values
      ensures Valid()
      ensures forall d :: d in live.Values ==> d in old(live).Values || fresh(d)
      ensures SM.ValidRun(old(View()), acts)
      ensures SM.Waited(acts, want, max, timeout) && SM.IsLast(acts, last, want, max, timeout)
      ensures View().box.delivered == old(View()).box.delivered
      ensures var s := SM.Exec(old(View()), acts);
        && ServerInv.Inv(s) && SM.Enabled(s, last) && s.box.delivered == old(View()).box.delivered
        && SM.Apply(s, last) == SM.Deliver(s, want, max)
        && SM.Deliver(View(), want, max) == SM.Deliver(s, want, max)
    {
      hide SvCall.View, View, Valid, ServerInv.Inv, HaveMatch, SM.Apply, SM.Section,
           SM.Enabled, SM.AtSection, Parked, SM.Deliver, SM.Waited,
           SM.IsEntry, SM.IsReturn;
      acts := [];
      WaitedNone(want, max, timeout);
      var wakeups: nat := *;
      Sees();
      var found := queue.SearchMatch(want);
      while !found
        invariant Valid()
        invariant forall d :: d in live.Values ==> d in old(live).Values || fresh(d)
        invariant View().box.delivered == old(View()).box.delivered
        invariant ServerInv.Inv(View()) && SM.AtSection(View(), want, max)
        invariant found == HaveMatch(View().box.ready, want)
        invariant SM.ValidRun(old(View()), acts) && View() == SM.Exec(old(View()), acts)
        invariant SM.Waited(acts, want, max, timeout) && (acts == [] <==> View().box.poller.Idle?)
        decreases wakeups, !found
      {
        var expired: bool := *;
        if timeout > 0 && expired {
          last := SM.Section(View(), want, max, timeout, true);
          SM.SectionIsOwn(View(), want, max, timeout, true);
          SM.SectionDelivers(View(), want, max, timeout, true);
          GiveUp(want, max);
          return;
        }
        SM.SectionIsOwn(View(), want, max, timeout, false);
        ghost var more := ParkAndWait(want, max, timeout);
        SM.ExecConcat(old(View()), acts, more);
        SM.WaitedMore(acts, more, want, max, timeout);
        acts := acts + more;
        ParkedWaits(View().box.poller, want, max);
        Sees();
        var interrupted: bool := *;
        if wakeups == 0 || interrupted || queue.wake.bytes == 0 {
          last := SM.PollOver;
          SM.OverDelivers(View(), want, max);
          return;
        }
        wakeups := wakeups - 1;
        SM.ParkedAtSection(View(), want, max);
        found := queue.SearchMatch(want);
      }
      last := SM.Section(View(), want, max, timeout, false);
      SM.SectionIsOwn(View(), want, max, timeout, false);
      SM.SectionDelivers(View(), want, max, timeout, false);
    }

    static lemma WaitedNone(want: Option<nat>, max: int, timeout: int)
      ensures SM.Waited([], want, max, timeout)
    {
    }

    /** grpc_poll() and grpc_await(): an R error on a closed server, otherwise the batch. The server has
        gone through a run made of this poll's own sections, with completions only while it waited; the
        run ends with the section that took the batch, and the batch is the first `max` matching events
        that were queued at that moment. */
    method Poll(want: Option<nat>, max: int, timeout: int)
      returns (r: Result<seq<Event<EventKind>>>, ghost acts: seq<SM.Action>)
      requires Valid() && ServerInv.Inv(View()) && queue.poller.Idle?
      modifies this, queue, queue.wake, live.Values
      ensures Valid() && ServerInv.Inv(View()) && queue.poller.Idle?
      ensures forall d :: d in live.Values ==> d in old(live).Values || fresh(d)
      ensures old(closed) ==> r == HandleClosed && acts == [] && View() == old(View())
      ensures !old(closed) ==> r.Ok?
      ensures !old(closed) ==> SM.ValidRun(old(View()), acts) && View() == SM.Exec(old(View()), acts)
      ensures !old(closed) ==> SM.PollRun(acts, want, max, timeout)
      ensures !old(closed) ==> SM.PollGives(old(View()), acts, want, max, r.value)
      ensures !old(closed) ==> queue.delivered == old(queue.delivered) + r.value
      ensures !old(closed) ==> |r.value| <= Max(0, max)
      ensures !old(closed) && want.Some? ==> forall e :: e in r.value ==> e.id == want.value
      ensures !old(closed) ==> ServerRuns.Returns(acts) <= |queue.pushed| - |old(queue.pushed)|
    {
      hide SvCall.View, View, Valid, ServerInv.Inv, HaveMatch, SM.Apply, SM.Section, Matches,
           SM.Enabled, SM.AtSection, SM.Deliver, SM.Waited, SM.PollRun,
           SM.PollGives, FirstMatching, RemoveFirst, SM.IsEntry, SM.IsReturn;
      Sees();
      if closed {
        return HandleClosed, [];
      }
      acts := [];
      EntersPoll(want, max);
      WaitedNone(want, max, timeout);
      ghost var last := SM.Section(View(), want, max, timeout, false);
      if timeout != 0 {
        acts, last := Wait(want, max, timeout);
      } else {
        SM.SectionDelivers(View(), want, max, timeout, false);
        SM.SectionIsOwn(View(), want, max, timeout, false);
      }
      ghost var s := SM.Exec(old(View()), acts);
      ServerInv.ApplyInv(s, last);
      ServerInv.PollEnds(old(View()), acts, last, want, max, timeout);
      ServerInv.DeliverTakes(s, want, max);
      FirstMatchingMeans(s.box.ready, want, max);
      Sees();
      var batch := FinishPoll(want, max);
      Sees();
      assert batch == queue.delivered[|old(queue.delivered)|..];
      assert batch == FirstMatching(s.box.ready, want, max);
      acts := acts + [last];
      ServerRuns.PollReturns(old(View()), acts, want, max, timeout);
      r := Ok(batch);
    }

    lemma EntersPoll(want: Option<nat>, max: int)
      requires !closed && queue.poller.Idle?
      ensures SM.AtSection(View(), want, max)
    {
      hide SvCall.View;
    }
  }
}
