/** Closing a client: once `shutting` is set nothing is posted, the completion queue drains, and what
    is left is deleted exactly once. */
module ClientShutdown {
  import opened Common
  import opened Events
  import opened Mailbox
  import opened ClientStream
  import opened ClientModel
  import opened ClientInv
  import opened ClientRuns
  import opened Sums

  // ---- counting what the queue owes ----

  function OwedByStream(streams: map<nat, Stream>): map<nat, nat> {
    map id | id in streams :: |streams[id].out|
  }

  /** The number of tags the completion queue still owes this client. */
  ghost function Owed(c: Client): nat {
    |c.unaryTags| + Sum(OwedByStream(c.streams))
  }

  lemma OwedPut(streams: map<nat, Stream>, id: nat, s: Stream)
    requires id in streams
    ensures Sum(OwedByStream(streams[id := s])) + |streams[id].out| == Sum(OwedByStream(streams)) + |s.out|
  {
    SumUpdate(OwedByStream(streams), id, |s.out|);
    assert OwedByStream(streams[id := s]) == OwedByStream(streams)[id := |s.out|];
  }

  lemma OwedRemove(streams: map<nat, Stream>, id: nat)
    requires id in streams
    ensures Sum(OwedByStream(streams)) == |streams[id].out| + Sum(OwedByStream(streams - {id}))
  {
    SumRemove(OwedByStream(streams), id);
    assert OwedByStream(streams - {id}) == OwedByStream(streams) - {id};
  }

  // ---- shutting suppresses every post ----

  lemma TagDoneLowersOwed(c: Client, id: nat, k: TagKind, ok: bool, a: Arrival)
    requires Inv(c) && c.shutting && Outstanding(c, id, k)
    ensures Owed(DoTagDone(c, id, k, ok, a)) == Owed(c) - 1
    ensures DoTagDone(c, id, k, ok, a).shutting
  {
    hide Core, DoTagDone, OnTag, Sum;
    TagDoneMaps(c, id, k, ok, a);
    TagDoneFrame(c, id, k, ok, a);
    CoreStreams(c);
    TagIsLive(c, id, k);
    var s := OnTag(c.streams[id], k, ok, true);
    if k == TFinish {
      OwedRemove(c.streams, id);
      FinishLeavesNone(c, id);
    } else {
      OwedPut(c.streams, id, s);
    }
  }

  lemma TagDoneFrame(c: Client, id: nat, k: TagKind, ok: bool, a: Arrival)
    ensures var c' := DoTagDone(c, id, k, ok, a);
      c'.unaryTags == c.unaryTags && c'.shutting == c.shutting && c'.closed == c.closed && c'.calls == c.calls
      && c'.nextId == c.nextId
  {
    hide OnTag, Push;
  }

  lemma FinishLeavesNone(c: Client, id: nat)
    requires StreamsOk(c) && id in c.streams && TFinish in c.streams[id].out
    ensures |c.streams[id].out| == 1
  {
    assert LiveStream(c, id);
  }

  lemma ShuttingIsIdle(c: Client)
    requires Inv(c) && c.shutting
    ensures c.closed && c.box.poller.Idle?
  {
  }

  /** Every step of a shutting client is a completion, and lowers what is owed by exactly one. */
  lemma ShuttingStep(c: Client, act: Action)
    requires Inv(c) && c.shutting && Enabled(c, act)
    ensures act.UnaryDone? || act.TagDone?
    ensures Apply(c, act).shutting && Owed(Apply(c, act)) == Owed(c) - 1
  {
    hide Inv, DoTagDone, Push, OwedByStream;
    ShuttingIsIdle(c);
    match act
    case TagDone(id, k, ok, a) => TagDoneLowersOwed(c, id, k, ok, a);
    case UnaryDone(id, a) =>
    case _ =>
  }

  /** No step of a shutting client posts an op on any stream. */
  lemma ShuttingLogsFrozen(c: Client, act: Action, id: nat)
    requires Inv(c) && c.shutting && Enabled(c, act) && id in c.streams
    ensures Record(Apply(c, act), id).Some? && Record(Apply(c, act), id).value.ops == c.streams[id].ops
  {
    hide Inv, DoTagDone, Push, OnTag, Deliver, Grows;
    ShuttingIsIdle(c);
    match act
    case TagDone(i, k, ok, a) => TagDoneMaps(c, i, k, ok, a);
    case UnaryDone(i, a) =>
    case _ =>
  }

  /** The drain ends: from a shutting state no run is longer than the number of tags owed, each
      step pays one off, and nothing new is ever owed. */
  lemma {:induction false} DrainEnds(c: Client, acts: seq<Action>)
    requires Inv(c) && c.shutting && ValidRun(c, acts)
    ensures Inv(Exec(c, acts)) && Exec(c, acts).shutting
    ensures Owed(Exec(c, acts)) + |acts| == Owed(c)
  {
    if acts != [] {
      var n := |acts| - 1;
      DrainEnds(c, acts[..n]);
      ApplyInv(Exec(c, acts[..n]), acts[n]);
      ShuttingStep(Exec(c, acts[..n]), acts[n]);
    }
  }

  /** While anything is owed, some completion can happen. */
  lemma DrainProgresses(c: Client)
    requires Inv(c) && Owed(c) > 0
    ensures exists act: Action :: Enabled(c, act) && (act.UnaryDone? || act.TagDone?)
  {
    if c.unaryTags != multiset{} {
      var id :| id in c.unaryTags;
      assert Enabled(c, UnaryDone(id, NO_DATA));
    } else {
      SumZero(OwedByStream(c.streams));
      var id :| id in c.streams && OwedByStream(c.streams)[id] != 0;
      var k :| k in c.streams[id].out;
      assert Enabled(c, TagDone(id, k, true, NO_DATA));
    }
  }

  /** After the completion thread is joined: delete what the maps still hold. */
  function DeleteRest(c: Client): Client {
    c.(calls := {}, streams := map[], deleted := c.deleted + multiset(c.calls) + multiset(c.streams.Keys),
       box := c.box.(ready := []))
  }

  /** When the queue has drained no unary call is left, every stream left has no tag outstanding,
      and the final loop makes every object ever created deleted exactly once. */
  lemma DrainedThenDeletedOnce(c: Client, id: nat)
    requires Inv(c) && Owed(c) == 0
    ensures c.calls == {}
    ensures id in c.streams ==> c.streams[id].pending == 0 && c.streams[id].out == multiset{}
    ensures DeleteRest(c).deleted[id] == if 1 <= id < c.nextId then 1 else 0
  {
    hide Core, Sum, OwedByStream;
    CoreStreams(c);
    hide StreamsOk, Ids;
    NoCallsLeft(c);
    NoTagsLeft(c, id);
    DeletedInEnd(c, id);
  }

  lemma NoCallsLeft(c: Client)
    requires Ids(c) && Owed(c) == 0
    ensures c.calls == {}
  {
    assert forall i :: i in c.calls ==> c.unaryTags[i] == 1;
  }

  lemma NoTagsLeft(c: Client, id: nat)
    requires StreamsOk(c) && Owed(c) == 0
    ensures id in c.streams ==> c.streams[id].pending == 0 && c.streams[id].out == multiset{}
  {
    hide Of, Msgs, WritesOk, OpsOk;
    SumZero(OwedByStream(c.streams));
    if id in c.streams {
      assert OwedByStream(c.streams)[id] == 0;
      assert LiveStream(c, id);
    }
  }

  lemma DeletedInEnd(c: Client, id: nat)
    requires Ids(c) && c.calls == {}
    ensures DeleteRest(c).deleted[id] == if 1 <= id < c.nextId then 1 else 0
  {
  }

  /** Put together over whole runs: however a run went and whenever it was closed, the drain that
      follows has at most as many steps as tags were owed, and at its end no unary call is left, no
      stream left owes a tag, and every object ever created has been deleted exactly once. */
  lemma CloseIsClean(capacity: nat, acts: seq<Action>, drain: seq<Action>, id: nat)
    requires 1 <= capacity && ValidRun(Init(capacity), acts)
    requires Enabled(Exec(Init(capacity), acts), Shutdown)
    requires ValidRun(DoShutdown(Exec(Init(capacity), acts)), drain)
    ensures |drain| <= Owed(Exec(Init(capacity), acts))
    ensures var c := Exec(DoShutdown(Exec(Init(capacity), acts)), drain);
      && (Owed(c) == 0 <==> |drain| == Owed(Exec(Init(capacity), acts)))
      && (Owed(c) == 0 ==> c.calls == {})
      && (Owed(c) == 0 && id in c.streams ==> c.streams[id].pending == 0 && c.streams[id].out == multiset{})
      && (Owed(c) == 0 ==> DeleteRest(c).deleted[id] == if 1 <= id < c.nextId then 1 else 0)
  {
    RunInv(capacity, acts);
    var c0 := Exec(Init(capacity), acts);
    ApplyInv(c0, Shutdown);
    DrainEnds(DoShutdown(c0), drain);
    var c := Exec(DoShutdown(c0), drain);
    hide Inv, DeleteRest;
    if Owed(c) == 0 {
      DrainedThenDeletedOnce(c, id);
    }
  }
}
