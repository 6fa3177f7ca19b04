/** What a call's owner is told: the grammar of server events for one id, tied to the call's record. */
module ServerHistory {
  import opened Common
  import opened Events
  import opened ServerCall

  predicate IsResult(k: EventKind) {
    k.Msg? || k.ClientDone?
  }

  /** How many read results a history holds. */
  function Results(h: seq<EventKind>): nat {
    if h == [] then 0
    else
      var n := |h| - 1;
      Results(h[..n]) + (if IsResult(h[n]) then 1 else 0)
  }

  lemma ResultsAppend(h: seq<EventKind>, k: EventKind)
    ensures Results(h + [k]) == Results(h) + (if IsResult(k) then 1 else 0)
  {
    assert (h + [k])[..|h|] == h;
  }

  /** The request comes first and once; "cancelled" comes last. */
  predicate Grammar(h: seq<EventKind>) {
    && (forall i :: 0 <= i < |h| ==> (h[i].Request? <==> i == 0))
    && (forall i :: 0 <= i < |h| - 1 ==> !h[i].Cancelled?)
  }

  /** From the moment a terminal is accepted, neither "writable" nor "cancelled". */
  predicate QuietAfter(h: seq<EventKind>, at: nat) {
    at <= |h| && forall i :: at <= i < |h| ==> !h[i].Writable? && !h[i].Cancelled?
  }

  /** A call's record and its history agree. */
  predicate Fits(c: Call, h: seq<EventKind>) {
    && Grammar(h)
    && (h == [] <==> !c.delivered)
    && (Cancelled in h ==> c.dead && c.doneBack)
    && Results(h) == c.readResults
    && (c.replied ==> QuietAfter(h, c.repliedAt))
  }

  /** A handler that queues nothing and delivers nothing leaves the agreement as it was. */
  lemma FitsSilent(c: Call, d: Call, h: seq<EventKind>)
    requires Fits(c, h) && Grows(c, d) && d.readResults == c.readResults
    requires d.delivered == c.delivered && d.replied == c.replied && (c.doneBack ==> d.doneBack)
    ensures Fits(d, h)
  {
  }

  /** A handler that queues one event keeps the agreement when the event is allowed where it falls. */
  lemma FitsEvent(c: Call, d: Call, h: seq<EventKind>, k: EventKind)
    requires Fits(c, h) && Grows(c, d) && Cancelled !in h
    requires k.Request? <==> h == []
    requires d.delivered && d.replied == c.replied
    requires d.readResults == c.readResults + (if IsResult(k) then 1 else 0)
    requires k.Cancelled? ==> d.dead && d.doneBack
    requires c.replied ==> !k.Writable? && !k.Cancelled?
    ensures Fits(d, h + [k])
  {
    ResultsAppend(h, k);
    hide Results;
  }

  lemma FitsRead(c: Call, ok: bool, a: Arrival, h: seq<EventKind>)
    requires Fits(c, h)
    ensures var ev := EventOf(c, TRead, ok, a);
      Fits(OnRead(c, ok), if ev.Some? then h + [ev.value] else h)
  {
    ReadTells(c, ok, a);
    var ev := EventOf(c, TRead, ok, a);
    hide Grows, Results, OnRead, EventOf;
    if ev.Some? {
      FitsEvent(c, OnRead(c, ok), h, ev.value);
    } else {
      FitsSilent(c, OnRead(c, ok), h);
    }
  }

  lemma ReadTells(c: Call, ok: bool, a: Arrival)
    ensures var d, ev := OnRead(c, ok), EventOf(c, TRead, ok, a);
      && d.replied == c.replied && d.doneBack == c.doneBack
      && (ev.Some? ==> d.delivered && !c.dead && !ev.value.Writable? && !ev.value.Cancelled?)
      && (ev.Some? ==> (ev.value.Request? <==> !c.delivered))
      && (ev.None? ==> d.delivered == c.delivered)
      && d.readResults == c.readResults + (if ev.Some? && IsResult(ev.value) then 1 else 0)
  {
    hide Grows;
  }

  lemma FitsWrite(c: Call, ok: bool, shutting: bool, a: Arrival, h: seq<EventKind>)
    requires Fits(c, h) && CallInv(c, shutting) && TWrite in c.out && c.writeQueue != []
    ensures var ev := EventOf(c, TWrite, ok, a);
      Fits(OnWrite(c, ok, shutting), if ev.Some? then h + [ev.value] else h)
  {
    assert c.delivered;
    hide OnWrite, Results, CallInv, Pump, Grows;
    if ok && !c.dead && |c.writeQueue| == 1 && !c.replied {
      FitsEvent(c, OnWrite(c, ok, shutting), h, Writable);
    } else {
      FitsSilent(c, OnWrite(c, ok, shutting), h);
    }
  }

  lemma FitsDone(c: Call, a: Arrival, h: seq<EventKind>)
    requires Fits(c, h) && !c.doneBack
    ensures var ev := EventOf(c, TDone, true, a);
      Fits(OnDone(c), if ev.Some? then h + [ev.value] else h)
  {
    hide Grows, Results;
    if c.delivered && !c.replied {
      ResultsAppend(h, Cancelled);
    }
  }

  /** Every handler keeps record and history in agreement. */
  lemma FitsOnTag(c: Call, k: TagKind, ok: bool, shutting: bool, a: Arrival, h: seq<EventKind>)
    requires Fits(c, h) && CallInv(c, shutting) && k in c.out && k != TAccept
    requires k == TWrite ==> c.writeQueue != []
    ensures var ev := EventOf(c, k, ok, a);
      Fits(OnTag(c, k, ok, shutting), if ev.Some? then h + [ev.value] else h)
  {
    assert k == TDone ==> !c.doneBack;
    hide CallInv, OnRead, OnWrite, OnDone, Fits;
    match k
    case TRead => FitsRead(c, ok, a, h);
    case TWrite => FitsWrite(c, ok, shutting, a, h);
    case TDone => FitsDone(c, a, h);
    case TFinish => FitsFinish(c, h);
  }

  lemma FitsFinish(c: Call, h: seq<EventKind>)
    requires Fits(c, h)
    ensures Fits(OnFinish(c), h)
  {
  }

  lemma FitsAccept(c: Call, id: nat, shutting: bool)
    requires CallInv(c, shutting) && c.id == 0 && Fits(c, [])
    ensures Fits(OnAccept(c, id, shutting), [])
  {
    hide Grows;
  }

  /** Accepting a terminal: from here on the history stays quiet. */
  lemma FitsReply(c: Call, final: Final, h: seq<EventKind>, shutting: bool)
    requires Fits(c, h)
    ensures Fits(Reply(c, final, |h|, shutting), h)
  {
    hide Results, Pump;
  }

  lemma FitsFinishCall(c: Call, code: int, drain: bool, h: seq<EventKind>, shutting: bool)
    requires Fits(c, h)
    ensures Fits(Finish(c, code, drain, |h|, shutting), h)
  {
    hide Results, Pump;
  }

  lemma FitsReadSend(c: Call, bytes: Bytes, h: seq<EventKind>, shutting: bool)
    requires Fits(c, h)
    ensures Fits(Read(c), h) && Fits(Send(c, bytes, shutting), h)
  {
    hide Grows, Results, Pump;
  }
}
