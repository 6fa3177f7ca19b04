/** A server call as the program has it: an object whose flags the pump, the completion handlers and the
    entry points update in place. Each method is proved to take the step ServerCall says. */
module CallRuntime {
  import opened Common
  import opened Events
  import opened Mailbox
  import opened EventQueue
  import opened SC = ServerCall

  // A read's completion, branch by branch: a message landed, the peer is done, or the call is dead.

  function ReadBack(c: Call): (r: Call)
    ensures r.id == c.id && r.dead == c.dead && r.delivered == c.delivered
  {
    SC.Settle(c, TRead).(readInflight := false)
  }

  function MessageLanded(c: Call): Call {
    c.(delivered := true, readResults := c.readResults + B(c.delivered))
  }

  function PeerDone(c: Call): Call {
    c.(readResults := c.readResults + 1)
  }

  function Died(c: Call): Call {
    c.(dead := true)
  }

  lemma MessageCase(c: Call, a: Arrival)
    requires !c.dead
    ensures SC.OnRead(c, true) == MessageLanded(ReadBack(c))
    ensures EventOf(c, TRead, true, a) == Some(if !c.delivered then Request(Payload(a)) else Msg(Payload(a)))
  {
    hide Grows;
  }

  lemma DoneCase(c: Call, a: Arrival)
    requires c.delivered && !c.dead
    ensures SC.OnRead(c, false) == PeerDone(ReadBack(c))
    ensures EventOf(c, TRead, false, a) == Some(ClientDone)
  {
    hide Grows;
  }

  lemma DeadCase(c: Call, ok: bool, a: Arrival)
    requires !(ok && !c.dead) && !(c.delivered && !c.dead)
    ensures SC.OnRead(c, ok) == Died(ReadBack(c))
    ensures EventOf(c, TRead, ok, a) == None
  {
    hide Grows;
  }

  /** What a completion queues, with the bytes it carries: none if they could not be copied. */
  lemma Queues(b: Box<EventKind>, c: Call, k: TagKind, ok: bool, a: Arrival)
    ensures var bytes := if a.bytes.Some? then a.bytes.value else [];
      Emitted(b, c.id, EventOf(c, k, ok, a)).pushed == b.pushed +
      (if k == TRead && ok && !c.dead && !c.delivered then [Event(c.id, Request(bytes))]
       else if k == TRead && ok && !c.dead then [Event(c.id, Msg(bytes))]
       else if k == TRead && !ok && c.delivered && !c.dead then [Event(c.id, ClientDone)]
       else if k == TWrite && ok && !c.dead && |c.writeQueue| == 1 && !c.replied then [Event(c.id, Writable)]
       else if k == TDone && c.delivered && !c.replied then [Event(c.id, Cancelled)]
       else [])
  {
    assert b.pushed + [] == b.pushed;
  }

  class SvCall {
    const oid: nat
    var id: nat
    var pending: int
    var delivered: bool
    var replied: bool
    var dead: bool
    var readInflight: bool
    var writeInflight: bool
    var finishPosted: bool
    var writeQueue: seq<Bytes>
    var finalWrite: Option<Bytes>
    var finalStatus: int
    var out: multiset<TagKind>   // the tags of this object that the completion queue owes
    ghost var acceptBack: bool
    ghost var doneBack: bool
    ghost var finishBack: bool
    ghost var aborted: bool
    ghost var ops: seq<Op>
    ghost var accepted: seq<Bytes>
    ghost var completed: seq<Bytes>
    ghost var readsAccepted: nat
    ghost var readResults: nat
    ghost var repliedAt: nat

    ghost function View(): Call
      reads this
    {
      Call(oid, id, pending, delivered, replied, dead, readInflight, writeInflight, finishPosted, writeQueue,
           Final(finalWrite, finalStatus), out, acceptBack, doneBack, finishBack, aborted, ops, accepted,
           completed, readsAccepted, readResults, repliedAt)
    }

    /** A fresh accept slot. */
    constructor (oid: nat)
      ensures View() == SC.Slot(oid) && this.oid == oid
    {
      this.oid := oid;
      id, pending := 0, 1;
      delivered, replied, dead, readInflight, writeInflight, finishPosted := false, false, false, false, false, false;
      writeQueue, finalWrite, finalStatus := [], None, 0;
      out := multiset{TAccept};
      acceptBack, doneBack, finishBack, aborted := false, false, false, false;
      ops, accepted, completed := [], [], [];
      readsAccepted, readResults, repliedAt := 0, 0, 0;
    }

    // What the methods below test.

    function Id(): nat
      reads this
      ensures Id() == View().id
    {
      id
    }

    function Owed(): multiset<TagKind>
      reads this
      ensures Owed() == View().out
    {
      out
    }

    predicate IsIdle()
      reads this
      ensures IsIdle() == (View().pending == 0)
    {
      pending == 0
    }

    predicate IsDead()
      reads this
      ensures IsDead() == View().dead
    {
      dead
    }

    predicate IsDelivered()
      reads this
      ensures IsDelivered() == View().delivered
    {
      delivered
    }

    predicate IsReplied()
      reads this
      ensures IsReplied() == View().replied
    {
      replied
    }

    predicate IsWriting()
      reads this
      ensures IsWriting() == View().writeInflight
    {
      writeInflight
    }

    function Queued(): seq<Bytes>
      reads this
      ensures Queued() == View().writeQueue
    {
      writeQueue
    }

    predicate QueueEmpty()
      reads this
      ensures QueueEmpty() == (View().writeQueue == [])
    {
      writeQueue == []
    }

    // The assignments the handlers make, one group each.

    /** Hands an op to gRPC; its tag is owed from here on. */
    method Post(k: TagKind, ghost op: Op)
      modifies this`pending, this`out, this`ops
      ensures View() == SC.Post(old(View()), k, op)
    {
      pending := pending + 1;
      out := out + multiset{k};
      ops := ops + [op];
      assert out == old(out) + multiset{k} && ops == old(ops) + [op];
    }

    method Owe(k: TagKind)
      modifies this`pending, this`out
      ensures View() == SC.Owe(old(View()), k)
    {
      pending := pending + 1;
      out := out + multiset{k};
    }

    /** A completion for one of this object's tags has come back. */
    method Settle(k: TagKind)
      modifies this`pending, this`out
      ensures View() == SC.Settle(old(View()), k)
    {
      pending := pending - 1;
      out := out - multiset{k};
    }

    method SetId(id: nat)
      modifies this`id, this`acceptBack
      ensures View() == old(View()).(acceptBack := true, id := id)
    {
      this.id := id;
      acceptBack := true;
    }

    ghost method SlotRefused()
      modifies this`acceptBack
      ensures View() == old(View()).(acceptBack := true)
    {
      acceptBack := true;
    }

    method MarkDead()
      modifies this`dead
      ensures View() == Died(old(View()))
    {
      dead := true;
    }

    method SetReading(reading: bool)
      modifies this`readInflight
      ensures View() == old(View()).(readInflight := reading)
    {
      readInflight := reading;
    }

    method SetWriting(writing: bool)
      modifies this`writeInflight
      ensures View() == old(View()).(writeInflight := writing)
    {
      writeInflight := writing;
    }

    method MarkDelivered()
      modifies this`delivered
      ensures View() == old(View()).(delivered := true)
    {
      delivered := true;
    }

    ghost method CountResult()
      modifies this`readResults
      ensures View() == PeerDone(old(View()))
    {
      readResults := readResults + 1;
    }

    ghost method CountRead()
      modifies this`readsAccepted
      ensures View() == old(View()).(readsAccepted := old(View()).readsAccepted + 1)
    {
      readsAccepted := readsAccepted + 1;
    }

    ghost method NoteDone()
      modifies this`doneBack
      ensures View() == old(View()).(doneBack := true)
    {
      doneBack := true;
    }

    ghost method NoteFinish()
      modifies this`finishBack
      ensures View() == old(View()).(finishBack := true)
    {
      finishBack := true;
    }

    method PopWrite()
      requires View().writeQueue != []
      modifies this`writeQueue, this`completed
      ensures var v := old(View());
        View() == v.(writeQueue := v.writeQueue[1..], completed := v.completed + [v.writeQueue[0]])
    {
      completed := completed + [writeQueue[0]];
      writeQueue := writeQueue[1..];
    }

    method MarkReplied(ghost at: nat)
      modifies this`replied, this`repliedAt
      ensures View() == old(View()).(replied := true, repliedAt := at)
    {
      replied := true;
      repliedAt := at;
    }

    method StoreFinal(write: Option<Bytes>, code: int)
      modifies this`finalWrite, this`finalStatus
      ensures View() == old(View()).(final := Final(write, code))
    {
      finalWrite := write;
      finalStatus := code;
    }

    method SetQueue(queue: seq<Bytes>)
      modifies this`writeQueue
      ensures View() == old(View()).(writeQueue := queue)
    {
      writeQueue := queue;
    }

    /** An abortive close: drop what is queued, except the buffer of a write already posted. */
    method DiscardWrites()
      modifies this`writeQueue
      ensures View() == old(View()).(writeQueue := Kept(old(View())))
    {
      hide View;
      if IsWriting() {
        if |Queued()| > 1 {
          SetQueue(Queued()[..1]);
        }
      } else {
        SetQueue([]);
      }
    }

    ghost method NoteAborted()
      modifies this`aborted
      ensures View() == old(View()).(aborted := true)
    {
      aborted := true;
    }

    method Abort()
      modifies this`writeQueue, this`aborted
      ensures View() == Aborted(old(View()))
    {
      hide View, Kept;
      DiscardWrites();
      NoteAborted();
    }

    // ---- the pump ----

    method PostWrite()
      requires View().writeQueue != [] && !View().finishPosted
      modifies this
      ensures View() == SC.PostWrite(old(View()))
    {
      hide Grows, SameObject, SameTold;
      writeInflight := true;
      Post(TWrite, WriteOp(writeQueue[0]));
    }

    method PostTerminal()
      requires !View().finishPosted
      modifies this
      ensures View() == SC.PostTerminal(old(View()))
    {
      hide Grows, SameObject, SameTold;
      finishPosted := true;
      Post(TFinish, TerminalOp(Final(finalWrite, finalStatus)));
    }

    method Pump(shutting: bool)
      modifies this
      ensures View() == SC.Pump(old(View()), shutting)
    {
      hide Grows, SameObject, SameTold, SC.PostWrite, SC.PostTerminal;
      if shutting || dead || finishPosted {
        return;
      }
      if writeInflight {
        return;
      }
      if writeQueue != [] {
        PostWrite();
        return;
      }
      if replied {
        PostTerminal();
      }
    }

    // ---- completion handlers ----

    method OnAccept(id: nat, shutting: bool)
      requires View().id == 0
      modifies this
      ensures View() == SC.OnAccept(old(View()), id, shutting)
    {
      hide View, Grows;
      Settle(TAccept);
      SetId(id);
      Owe(TDone);
      if shutting {
        MarkDead();
      } else {
        SetReading(true);
        Post(TRead, ReadOp);
      }
    }

    method TakeReadBack()
      modifies this
      ensures View() == ReadBack(old(View()))
    {
      hide View;
      Settle(TRead);
      SetReading(false);
    }

    /** A message landed: the first one is the request. */
    method Land(a: Arrival, q: Queue<EventKind>)
      requires q.Valid()
      modifies this, q, q.wake
      ensures q.Valid() && View() == MessageLanded(old(View()))
      ensures var v := old(View());
        q.View() == Mailbox.Push(old(q.View()),
                                 Event(v.id, if !v.delivered then Request(Payload(a)) else Msg(Payload(a))))
    {
      hide View, Mailbox.Push, Payload;
      if !IsDelivered() {
        MarkDelivered();
        q.Push(Event(Id(), Request(Payload(a))));
      } else {
        CountResult();
        q.Push(Event(Id(), Msg(Payload(a))));
      }
    }

    method OnRead(ok: bool, a: Arrival, q: Queue<EventKind>)
      requires q.Valid()
      modifies this, q, q.wake
      ensures q.Valid() && View() == SC.OnRead(old(View()), ok)
      ensures q.View() == Emitted(old(q.View()), old(View()).id, EventOf(old(View()), TRead, ok, a))
    {
      hide View, Grows, Mailbox.Push, Payload, SC.OnRead, EventOf, ReadBack, MessageLanded, PeerDone, Died;
      ghost var c := View();
      TakeReadBack();
      if ok && !IsDead() {
        MessageCase(c, a);
        Land(a, q);
      } else if IsDelivered() && !IsDead() {
        DoneCase(c, a);
        q.Push(Event(Id(), ClientDone));
        CountResult();
      } else {
        DeadCase(c, ok, a);
        MarkDead();
      }
    }

    method OnWrite(ok: bool, a: Arrival, shutting: bool, q: Queue<EventKind>)
      requires q.Valid() && View().writeQueue != []
      modifies this, q, q.wake
      ensures q.Valid() && View() == SC.OnWrite(old(View()), ok, shutting)
      ensures q.View() == Emitted(old(q.View()), old(View()).id, EventOf(old(View()), TWrite, ok, a))
    {
      hide View, Grows, SC.Pump, SameObject, SameTold, Mailbox.Push;
      Settle(TWrite);
      SetWriting(false);
      if ok && !IsDead() {
        PopWrite();
        if QueueEmpty() && !IsReplied() {
          q.Push(Event(Id(), Writable));
        }
        Pump(shutting);
      } else {
        MarkDead();
      }
    }

    method OnDone(a: Arrival, q: Queue<EventKind>)
      requires q.Valid()
      modifies this, q, q.wake
      ensures q.Valid() && View() == SC.OnDone(old(View()))
      ensures q.View() == Emitted(old(q.View()), old(View()).id, EventOf(old(View()), TDone, true, a))
    {
      hide View, Grows, Mailbox.Push;
      Settle(TDone);
      NoteDone();
      if IsDelivered() && !IsReplied() {
        MarkDead();
        q.Push(Event(Id(), Cancelled));
      }
    }

    method OnFinish()
      modifies this
      ensures View() == SC.OnFinish(old(View()))
    {
      hide View, Grows;
      Settle(TFinish);
      NoteFinish();
    }

    /** One of this object's tags, other than accept, came back. */
    method OnTag(k: TagKind, ok: bool, a: Arrival, shutting: bool, q: Queue<EventKind>)
      requires q.Valid() && k != TAccept && (k == TWrite ==> View().writeQueue != [])
      modifies this, q, q.wake
      ensures q.Valid() && View() == SC.OnTag(old(View()), k, ok, shutting)
      ensures q.View() == Emitted(old(q.View()), old(View()).id, EventOf(old(View()), k, ok, a))
      ensures var c, bytes := old(View()), if a.bytes.Some? then a.bytes.value else [];
        q.pushed == old(q.pushed) +
          (if k == TRead && ok && !c.dead && !c.delivered then [Event(c.id, Request(bytes))]
           else if k == TRead && ok && !c.dead then [Event(c.id, Msg(bytes))]
           else if k == TRead && !ok && c.delivered && !c.dead then [Event(c.id, ClientDone)]
           else if k == TWrite && ok && !c.dead && |c.writeQueue| == 1 && !c.replied then [Event(c.id, Writable)]
           else if k == TDone && c.delivered && !c.replied then [Event(c.id, Cancelled)]
           else [])
    {
      Queues(q.View(), View(), k, ok, a);
      hide Emitted, EventOf;
      hide View, SC.OnRead, SC.OnWrite, SC.OnDone, SC.OnFinish, Grows, SameTold, Mailbox.Push;
      match k {
        case TRead => OnRead(ok, a, q);
        case TWrite => OnWrite(ok, a, shutting, q);
        case TDone => OnDone(a, q);
        case TFinish => OnFinish();
      }
    }

    // ---- entry points ----

    predicate RefusesTerminal()
      reads this
      ensures RefusesTerminal() == TerminalRefused(View())
    {
      !delivered || replied || dead
    }

    predicate RefusesRead()
      reads this
      ensures RefusesRead() == ReadRefused(View())
    {
      !delivered || dead || readInflight || finishPosted
    }

    predicate RefusesSend()
      reads this
      ensures RefusesSend() == SendRefused(View())
    {
      !delivered || dead || replied || |writeQueue| >= WRITE_CAP
    }

    method Reply(write: Option<Bytes>, code: int, ghost at: nat, shutting: bool) returns (taken: bool)
      modifies this
      ensures taken == !TerminalRefused(old(View()))
      ensures View() == SC.Reply(old(View()), Final(write, code), at, shutting)
    {
      hide View, Grows, SameObject, SameTold, SC.Pump, TerminalRefused;
      if RefusesTerminal() {
        return false;
      }
      MarkReplied(at);
      StoreFinal(write, code);
      Pump(shutting);
      return true;
    }

    method Conclude(code: int, drain: bool, ghost at: nat)
      modifies this
      ensures View() == Ending(old(View()), code, drain, at)
    {
      hide View, Aborted;
      MarkReplied(at);
      StoreFinal(None, code);
      if !drain {
        Abort();
      }
    }

    method Finish(code: int, drain: bool, ghost at: nat, shutting: bool) returns (taken: bool)
      modifies this
      ensures taken == !TerminalRefused(old(View()))
      ensures View() == SC.Finish(old(View()), code, drain, at, shutting)
    {
      hide View, Grows, SameObject, SameTold, SC.Pump, TerminalRefused, Ending;
      if RefusesTerminal() {
        return false;
      }
      Conclude(code, drain, at);
      Pump(shutting);
      return true;
    }

    method Read() returns (posted: bool)
      modifies this
      ensures posted == !ReadRefused(old(View()))
      ensures View() == SC.Read(old(View()))
    {
      hide View, Grows, SameObject, ReadRefused;
      if RefusesRead() {
        return false;
      }
      SetReading(true);
      CountRead();
      Post(TRead, ReadOp);
      return true;
    }

    method Append(bytes: Bytes)
      modifies this`writeQueue, this`accepted
      ensures var v := old(View());
        View() == v.(writeQueue := v.writeQueue + [bytes], accepted := v.accepted + [bytes])
    {
      writeQueue := writeQueue + [bytes];
      accepted := accepted + [bytes];
    }

    method Send(bytes: Bytes, shutting: bool) returns (queued: bool)
      modifies this
      ensures queued == !SendRefused(old(View()))
      ensures View() == SC.Send(old(View()), bytes, shutting)
    {
      hide View, Grows, SameObject, SameTold, SC.Pump, SendRefused;
      if RefusesSend() {
        return false;
      }
      Append(bytes);
      Pump(shutting);
      return true;
    }
  }
}
