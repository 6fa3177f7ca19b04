/** A client stream as the program has it: an object whose flags the helpers, the completion handlers
    and the entry points update in place. Each method is proved to take the step ClientStream says. */
module StreamRuntime {
  import opened Common
  import opened Events
  import opened Mailbox
  import opened EventQueue
  import opened CS = ClientStream

  /** What a completion queues, with what it carries: the bytes read, or the status that Finish filled in. */
  lemma Queues(b: Box<EventKind>, s: Stream, k: TagKind, ok: bool, a: Arrival)
    ensures Emitted(b, s.id, EventOf(s, k, ok, a)).pushed == b.pushed +
      (if k == TRead && ok && !s.broken then [Event(s.id, Msg(a.bytes))]
       else if k == TWrite && ok && !s.broken && |s.writeQueue| == 1 then [Event(s.id, Writable)]
       else if k == TFinish then [Event(s.id, Status(a.code))]
       else [])
  {
    assert b.pushed + [] == b.pushed;
  }

  class StreamState {
    var id: nat
    var pending: int
    var started: bool
    var readInflight: bool
    var writeInflight: bool
    var wdoneInflight: bool
    var wdoneRequested: bool
    var wdoneSent: bool
    var readsClosed: bool
    var broken: bool
    var wantFinish: bool
    var finishPosted: bool
    var statusEmitted: bool
    var unread: int
    var readCap: int
    var writeCap: nat
    var writeQueue: seq<Bytes>
    var out: multiset<TagKind>   // the tags of this object that the completion queue owes
    ghost var ops: seq<Op>
    ghost var accepted: seq<Bytes>
    ghost var completed: seq<Bytes>

    ghost function View(): Stream
      reads this
    {
      Stream(id, pending, started, readInflight, writeInflight, wdoneInflight, wdoneRequested, wdoneSent,
             readsClosed, broken, wantFinish, finishPosted, statusEmitted, unread, readCap, writeCap,
             writeQueue, out, ops, accepted, completed)
    }

    constructor (id: nat, readCap: int, writeCap: int)
      ensures View() == CS.Opened(id, readCap, writeCap)
      ensures this.readCap == readCap
      ensures this.writeCap == if writeCap >= 0 then writeCap else writeCap % 0x1_0000_0000_0000_0000
    {
      this.id := id;
      started, readInflight, writeInflight, wdoneInflight := false, false, false, false;
      wdoneRequested, wdoneSent, readsClosed, broken := false, false, false, false;
      wantFinish, finishPosted, statusEmitted := false, false, false;
      unread := 0;
      this.readCap := readCap;
      this.writeCap := SizeT(writeCap);
      writeQueue := [];
      accepted, completed := [], [];
      pending := 1;
      out := multiset{TStart};
      ops := [StartOp];
    }

    /** Hands an op to gRPC; its tag is owed from here on. */
    method Post(k: TagKind, ghost op: Op)
      modifies this`pending, this`out, this`ops
      ensures View() == CS.Post(old(View()), k, op)
    {
      pending := pending + 1;
      out := out + multiset{k};
      ops := ops + [op];
      assert out == old(out) + multiset{k} && ops == old(ops) + [op];
    }

    method PostRead(shutting: bool)
      modifies this
      ensures View() == CS.PostRead(old(View()), shutting)
    {
      if shutting || readInflight || readsClosed || broken || finishPosted || !started {
        return;
      }
      readInflight := true;
      Post(TRead, ReadOp);
    }

    method PumpWrites(shutting: bool)
      modifies this
      ensures View() == CS.Pump(old(View()), shutting)
    {
      if shutting || !started || broken || finishPosted {
        return;
      }
      if !writeInflight && writeQueue != [] {
        writeInflight := true;
        Post(TWrite, WriteOp(writeQueue[0]));
        return;
      }
      if !writeInflight && writeQueue == [] && wdoneRequested && !wdoneSent && !wdoneInflight {
        wdoneInflight := true;
        Post(TWDone, WritesDoneOp);
      }
    }

    method TryFinish(shutting: bool)
      modifies this
      ensures View() == CS.TryFinish(old(View()), shutting)
    {
      if shutting || !wantFinish || finishPosted {
        return;
      }
      if readInflight || writeInflight || wdoneInflight {
        return;
      }
      if !started {
        return;
      }
      finishPosted := true;
      Post(TFinish, FinishOp);
    }

    /** A completion for one of this object's tags has come back. */
    method Settle(k: TagKind)
      modifies this`pending, this`out
      ensures View() == CS.Settle(old(View()), k)
    {
      pending := pending - 1;
      out := out - multiset{k};
    }

    // The assignments the handlers make, one group each.

    method MarkStarted()
      modifies this`started
      ensures View() == old(View()).(started := true)
    {
      started := true;
    }

    method MarkBroken()
      modifies this`broken, this`wantFinish
      ensures View() == old(View()).(broken := true, wantFinish := true)
    {
      broken := true;
      wantFinish := true;
    }

    method MarkReadsClosed()
      modifies this`readsClosed, this`wantFinish
      ensures View() == old(View()).(readsClosed := true, wantFinish := true)
    {
      readsClosed := true;
      wantFinish := true;
    }

    method ReadLanded()
      modifies this`readInflight
      ensures View() == old(View()).(readInflight := false)
    {
      readInflight := false;
    }

    method WriteLanded()
      modifies this`writeInflight
      ensures View() == old(View()).(writeInflight := false)
    {
      writeInflight := false;
    }

    method WDoneLanded()
      modifies this`wdoneInflight, this`wdoneSent
      ensures View() == old(View()).(wdoneInflight := false, wdoneSent := true)
    {
      wdoneInflight := false;
      wdoneSent := true;
    }

    method MarkStatusEmitted()
      modifies this`statusEmitted
      ensures View() == old(View()).(statusEmitted := true)
    {
      statusEmitted := true;
    }

    method AddUnread(n: int)
      modifies this`unread
      ensures View() == old(View()).(unread := old(View()).unread + n)
    {
      unread := unread + n;
    }

    method PopWrite()
      requires View().writeQueue != []
      modifies this`writeQueue, this`completed
      ensures View() == Pop(old(View()))
    {
      completed := completed + [writeQueue[0]];
      writeQueue := writeQueue[1..];
    }

    method OnStart(ok: bool, shutting: bool)
      modifies this
      ensures View() == CS.OnStart(old(View()), ok, shutting)
    {
      hide View, CS.PostRead, CS.Pump, CS.TryFinish, CS.Settle, Grows, Resumed;
      Settle(TStart);
      if ok {
        MarkStarted();
        PostRead(shutting);
        PumpWrites(shutting);
      } else {
        // The call never started; Finish is legal now and still yields its status.
        MarkBroken();
        MarkStarted();
      }
      TryFinish(shutting);
    }

    method OnWDone(ok: bool, shutting: bool)
      modifies this
      ensures View() == CS.OnWDone(old(View()), ok, shutting)
    {
      hide View, CS.TryFinish, CS.Settle, Grows, Resumed;
      Settle(TWDone);
      WDoneLanded();
      if !ok {
        MarkBroken();
      }
      TryFinish(shutting);
    }

    predicate IsBroken()
      reads this
      ensures IsBroken() == View().broken
    {
      broken
    }

    predicate HasRoom()
      reads this
      ensures HasRoom() == (View().unread < View().readCap)
    {
      unread < readCap
    }

    predicate QueueEmpty()
      reads this
      ensures QueueEmpty() == (View().writeQueue == [])
    {
      writeQueue == []
    }

    predicate IsFinished()
      reads this
      ensures IsFinished() == (View().pending == 0 && View().statusEmitted)
    {
      pending == 0 && statusEmitted
    }

    function Owed(): multiset<TagKind>
      reads this
      ensures Owed() == View().out
    {
      out
    }

    function Id(): nat
      reads this
      ensures Id() == View().id
    {
      id
    }

    /** A message landed: count it, and read on while there is room. */
    method CountAndReadOn(shutting: bool)
      modifies this
      ensures var u := old(View()).(unread := old(View()).unread + 1);
        View() == if u.unread < u.readCap then CS.PostRead(u, shutting) else u
    {
      hide View, CS.PostRead, Grows, Resumed;
      AddUnread(1);
      if HasRoom() {
        PostRead(shutting);
      }
    }

    method OnRead(ok: bool, a: Arrival, shutting: bool, q: Queue<EventKind>)
      requires q.Valid()
      modifies this, q, q.wake
      ensures q.Valid()
      ensures View() == CS.OnRead(old(View()), ok, shutting)
      ensures q.View() == Emitted(old(q.View()), old(View()).id, EventOf(old(View()), TRead, ok, a))
    {
      hide View, CS.PostRead, CS.TryFinish, Grows, Resumed, Mailbox.Push;
      Settle(TRead);
      ReadLanded();
      if ok && !IsBroken() {
        q.Push(Event(Id(), Msg(a.bytes)));
        CountAndReadOn(shutting);
      } else {
        MarkReadsClosed();
      }
      TryFinish(shutting);
    }

    method OnWrite(ok: bool, a: Arrival, shutting: bool, q: Queue<EventKind>)
      requires q.Valid() && View().writeQueue != []
      modifies this, q, q.wake
      ensures q.Valid()
      ensures View() == CS.OnWrite(old(View()), ok, shutting)
      ensures q.View() == Emitted(old(q.View()), old(View()).id, EventOf(old(View()), TWrite, ok, a))
    {
      hide View, CS.Pump, CS.TryFinish, Pop, Grows, Resumed, Mailbox.Push;
      Settle(TWrite);
      WriteLanded();
      if ok && !IsBroken() {
        PopWrite();
        if QueueEmpty() {
          q.Push(Event(Id(), Writable));
        }
        PumpWrites(shutting);
      } else {
        MarkBroken();
      }
      TryFinish(shutting);
    }

    method OnFinish(a: Arrival, q: Queue<EventKind>)
      requires q.Valid()
      modifies this, q, q.wake
      ensures q.Valid()
      ensures View() == CS.OnFinish(old(View()))
      ensures q.View() == Emitted(old(q.View()), old(View()).id, Some(Status(a.code)))
    {
      hide View, Grows, Mailbox.Push;
      Settle(TFinish);
      q.Push(Event(Id(), Status(a.code)));
      MarkStatusEmitted();
    }

    /** One of this object's tags came back. */
    method OnTag(k: TagKind, ok: bool, a: Arrival, shutting: bool, q: Queue<EventKind>)
      requires q.Valid() && (k == TWrite ==> View().writeQueue != [])
      modifies this, q, q.wake
      ensures q.Valid()
      ensures View() == CS.OnTag(old(View()), k, ok, shutting)
      ensures q.View() == Emitted(old(q.View()), old(View()).id, EventOf(old(View()), k, ok, a))
      ensures var v := old(View());
        q.pushed == old(q.pushed) +
          (if k == TRead && ok && !v.broken then [Event(v.id, Msg(a.bytes))]
           else if k == TWrite && ok && !v.broken && |v.writeQueue| == 1 then [Event(v.id, Writable)]
           else if k == TFinish then [Event(v.id, Status(a.code))]
           else [])
    {
      Queues(q.View(), View(), k, ok, a);
      hide Emitted, EventOf;
      hide View, CS.OnStart, CS.OnRead, CS.OnWrite, CS.OnWDone, CS.OnFinish, Grows, Mailbox.Push;
      match k {
        case TStart => OnStart(ok, shutting);
        case TRead => OnRead(ok, a, shutting, q);
        case TWrite => OnWrite(ok, a, shutting, q);
        case TWDone => OnWDone(ok, shutting);
        case TFinish => OnFinish(a, q);
      }
    }

    method Send(bytes: Bytes, shutting: bool) returns (queued: bool)
      modifies this
      ensures queued == (!old(broken) && !old(finishPosted) && !old(wdoneRequested) && |old(writeQueue)| < old(writeCap))
      ensures accepted == old(accepted) + (if queued then [bytes] else [])
      ensures View() == CS.Send(old(View()), bytes, shutting)
    {
      hide CS.Pump, Grows;
      if broken || finishPosted || wdoneRequested {
        return false;
      }
      if |writeQueue| >= writeCap {
        return false;
      }
      writeQueue := writeQueue + [bytes];
      accepted := accepted + [bytes];
      PumpWrites(shutting);
      return true;
    }

    method HalfClose(shutting: bool) returns (accepted: bool)
      modifies this
      ensures accepted == !old(wdoneRequested) && wdoneRequested
      ensures View() == CS.WritesDone(old(View()), shutting)
    {
      hide CS.Pump, Grows;
      if wdoneRequested {
        return false;
      }
      wdoneRequested := true;
      PumpWrites(shutting);
      return true;
    }

    /** The part of a poll that concerns the stream whose message it took. */
    method Resume(shutting: bool)
      modifies this
      ensures View() == CS.Resume(old(View()), shutting)
    {
      AddUnread(-1);
      if unread < readCap {
        PostRead(shutting);
      }
    }
  }
}
