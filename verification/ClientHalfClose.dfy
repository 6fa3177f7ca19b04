/** What a half-close is worth. grpc_writes_done() answers TRUE on every stream in the map that was not
    half-closed before; WritesDone goes out, sooner or later, only on a stream that is neither broken nor
    finishing. */
module ClientHalfClose {
  import opened Common
  import opened Events
  import opened Mailbox
  import opened ClientStream
  import opened ClientModel
  import opened ClientInv
  import opened ClientRuns
  import opened ClientShutdown

  /** WritesDone was posted on this stream. */
  predicate HalfClosed(c: Client, id: nat) {
    Record(c, id).Some? && WritesDoneOp in Record(c, id).value.ops
  }

  // ---- broken or finishing: never ----

  predicate TooLate(c: Client, id: nat) {
    Record(c, id).Some? && (Record(c, id).value.broken || Record(c, id).value.finishPosted) && !HalfClosed(c, id)
  }

  lemma {:induction false} NeverSent(c: Client, id: nat, later: seq<Action>)
    requires Inv(c) && TooLate(c, id) && ValidRun(c, later)
    ensures Inv(Exec(c, later)) && TooLate(Exec(c, later), id)
  {
    hide Inv, Apply, Record;
    if later != [] {
      var n := |later| - 1;
      NeverSent(c, id, later[..n]);
      ApplyInv(Exec(c, later[..n]), later[n]);
      StepGrows(Exec(c, later[..n]), later[n], id);
    }
  }

  // ---- otherwise: some continuation sends it ----

  /** A half-close was requested on a stream that can still take it. */
  predicate Wanted(s: Stream) {
    s.wdoneRequested && !s.broken && !s.finishPosted
  }

  lemma WhatNext(s: Stream)
    requires StreamInv(s, false) && Wanted(s) && WritesDoneOp !in s.ops
    ensures !s.started ==> TStart in s.out
    ensures s.started ==> TWrite in s.out
  {
    hide WritesOk, OpsOk, ReadsOk;
  }

  lemma StartGoesOn(s: Stream)
    requires StreamInv(s, false) && Wanted(s) && !s.started
    ensures Wanted(OnStart(s, true, false)) && OnStart(s, true, false).started
  {
    hide Grows, TagsExact, WritesOk, OpsOk, ReadsOk;
  }

  lemma WriteGoesOn(s: Stream)
    requires StreamInv(s, false) && Wanted(s) && s.started && TWrite in s.out
    ensures s.writeQueue != [] && Wanted(OnWrite(s, true, false)) && OnWrite(s, true, false).started
    ensures |OnWrite(s, true, false).writeQueue| < |s.writeQueue|
  {
    WriteInFlight(s);
    hide Grows, Shape, Driven;
  }

  lemma WriteInFlight(s: Stream)
    requires Shape(s) && TWrite in s.out
    ensures s.writeQueue != [] && !s.wdoneInflight && !s.wdoneSent
  {
    hide WritesOk, OpsOk, ReadsOk;
  }

  /** A good completion of this kind keeps the stream in the map with the handler's record. */
  lemma GoodCompletion(c: Client, id: nat, k: TagKind)
    requires Inv(c) && !c.shutting && id in c.streams && k in c.streams[id].out && k != TFinish
    requires k == TWrite ==> c.streams[id].writeQueue != []
    ensures var act := TagDone(id, k, true, NO_DATA);
      && Enabled(c, act) && Inv(Apply(c, act)) && !Apply(c, act).shutting
      && id in Apply(c, act).streams && Apply(c, act).streams[id] == OnTag(c.streams[id], k, true, false)
  {
    hide Inv, DoTagDone, OnTag;
    ApplyInv(c, TagDone(id, k, true, NO_DATA));
    TagDoneMaps(c, id, k, true, NO_DATA);
    TagDoneFrame(c, id, k, true, NO_DATA);
  }

  lemma {:induction false} SomeRunSends(c: Client, id: nat) returns (later: seq<Action>)
    requires Inv(c) && !c.shutting && id in c.streams && Wanted(c.streams[id])
    ensures ValidRun(c, later) && HalfClosed(Exec(c, later), id)
    decreases if c.streams[id].started then 0 else 1, |c.streams[id].writeQueue|
  {
    hide Inv, StreamInv, Apply, Enabled, Wanted, HalfClosed;
    later := [];
    assert Record(c, id) == Some(c.streams[id]);
    if WritesDoneOp in c.streams[id].ops {
      assert HalfClosed(c, id) by { SentAlready(c, id); }
    } else {
      var act := NextGood(c, id);
      ExecSnoc(c, [], act);
      assert [] + [act] == [act];
      var rest := SomeRunSends(Apply(c, act), id);
      ExecConcat(c, [act], rest);
      later := [act] + rest;
    }
  }

  lemma SentAlready(c: Client, id: nat)
    requires id in c.streams && WritesDoneOp in c.streams[id].ops
    ensures HalfClosed(c, id)
  {
  }

  /** The completion that brings WritesDone closer. */
  lemma NextGood(c: Client, id: nat) returns (act: Action)
    requires Inv(c) && !c.shutting && id in c.streams && Wanted(c.streams[id]) && WritesDoneOp !in c.streams[id].ops
    ensures Enabled(c, act)
    ensures var c' := Apply(c, act);
      && Inv(c') && !c'.shutting && id in c'.streams && Wanted(c'.streams[id]) && c'.streams[id].started
      && (c.streams[id].started ==> |c'.streams[id].writeQueue| < |c.streams[id].writeQueue|)
  {
    hide Inv, StreamInv, Apply, Enabled, OnTag, Wanted;
    StreamOf(c, id);
    var k := NextTag(c.streams[id]);
    act := TagDone(id, k, true, NO_DATA);
    GoodCompletion(c, id, k);
  }

  lemma NextTag(s: Stream) returns (k: TagKind)
    requires StreamInv(s, false) && Wanted(s) && WritesDoneOp !in s.ops
    ensures k in s.out && k != TFinish && (k == TWrite ==> s.writeQueue != [])
    ensures Wanted(OnTag(s, k, true, false)) && OnTag(s, k, true, false).started
    ensures s.started ==> |OnTag(s, k, true, false).writeQueue| < |s.writeQueue|
  {
    hide StreamInv, OnStart, OnWrite, Wanted;
    WhatNext(s);
    if s.started {
      k := TWrite;
      WriteGoesOn(s);
    } else {
      k := TStart;
      StartGoesOn(s);
    }
  }

  lemma StreamOf(c: Client, id: nat)
    requires Inv(c) && id in c.streams
    ensures StreamInv(c.streams[id], c.shutting) && c.closed == c.shutting
  {
    assert LiveStream(c, id);
    hide StreamInv, Of, Msgs, HistoryOk;
  }

  // ---- the result ----

  lemma HalfCloseRecord(c: Client, id: nat)
    requires Inv(c) && !c.shutting && AcceptsHalfClose(c, id)
    ensures id in DoHalfClose(c, id).streams && !DoHalfClose(c, id).shutting
    ensures var s := c.streams[id];
      if s.broken || s.finishPosted then TooLate(DoHalfClose(c, id), id) else Wanted(DoHalfClose(c, id).streams[id])
  {
    StreamOf(c, id);
    NotYet(c.streams[id]);
    hide Inv, StreamInv, Grows;
  }

  lemma NotYet(s: Stream)
    requires StreamInv(s, false) && !s.wdoneRequested
    ensures WritesDoneOp !in s.ops
  {
    hide TagsExact, WritesOk, OpsOk, ReadsOk, Driven;
  }

  /** The exact condition, over every run: after a half-close that is answered TRUE, some continuation posts
      WritesDone if and only if the stream was neither broken nor finishing at the call. */
  lemma HalfCloseIff(capacity: nat, acts: seq<Action>, id: nat)
    requires 1 <= capacity && ValidRun(Init(capacity), acts)
    requires Enabled(Exec(Init(capacity), acts), HalfClose(id))
    requires AcceptsHalfClose(Exec(Init(capacity), acts), id)
    ensures var c := Exec(Init(capacity), acts);
      (exists later :: ValidRun(DoHalfClose(c, id), later) && HalfClosed(Exec(DoHalfClose(c, id), later), id))
      <==> !c.streams[id].broken && !c.streams[id].finishPosted
  {
    var c := Exec(Init(capacity), acts);
    var d := DoHalfClose(c, id);
    RunInv(capacity, acts);
    assert !c.shutting by { StreamOf(c, id); }
    HalfCloseRecord(c, id);
    ApplyInv(c, HalfClose(id));
    hide Inv, DoHalfClose, HalfClosed, Wanted, Exec, ValidRun, Enabled;
    if c.streams[id].broken || c.streams[id].finishPosted {
      forall later | ValidRun(d, later) ensures !HalfClosed(Exec(d, later), id) {
        NeverSent(d, id, later);
      }
    } else {
      var later := SomeRunSends(d, id);
      assert ValidRun(d, later) && HalfClosed(Exec(d, later), id);
    }
  }

  function FailedStart(readCap: int): seq<Action> {
    [StreamStart(readCap, 1), TagDone(1, TStart, false, NO_DATA)]
  }

  /** A stream whose start failed is broken and finishing, still in the map, and a half-close on it is
      answered TRUE. */
  lemma HalfCloseWitness(readCap: int)
    ensures ValidRun(Init(1), FailedStart(readCap))
    ensures var c := Exec(Init(1), FailedStart(readCap));
      && Enabled(c, HalfClose(1)) && AcceptsHalfClose(c, 1)
      && c.streams[1].broken && c.streams[1].finishPosted
  {
    var acts, c0, c1 := FailedStart(readCap), Init(1), Opening(readCap);
    OpeningOwesStart(readCap);
    FailedStartRecord(readCap);
    hide DoTagDone, DoStreamStart, Opening;
    ExecSnoc(c0, [], acts[0]);
    assert [] + [acts[0]] == [acts[0]] && [acts[0]] + [acts[1]] == acts;
    assert Apply(c0, acts[0]) == c1 by { OpeningIs(readCap); }
    ExecSnoc(c0, [acts[0]], acts[1]);
  }

  lemma OpeningIs(readCap: int)
    ensures Apply(Init(1), StreamStart(readCap, 1)) == Opening(readCap)
  {
  }

  lemma FailedStartRecord(readCap: int)
    ensures var c := DoTagDone(Opening(readCap), 1, TStart, false, NO_DATA);
      && AcceptsHalfClose(c, 1) && c.streams[1].broken && c.streams[1].finishPosted
      && c.box.poller.Idle? && !c.closed
  {
  }
}
