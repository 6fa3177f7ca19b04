/** R's half of a typed call, end to end: the table entry made when the call starts, the events that the
    client machine delivers, and the decoding and forgetting that every poll does to its batch. R has one
    thread, so an entry point and its table update, or a poll and the walk over its batch, are one step;
    completions in between touch neither the table nor what was delivered. */
module TypedCalls {
  import opened Common
  import opened Events
  import opened Mailbox
  import opened ClientStream
  import opened ClientModel
  import opened ClientInv
  import opened ClientRuns
  import opened CallTable

  datatype Session = Session(
    core: Client,
    table: Table,
    typed: map<nat, Types>,             // history: the types that each typed call was started with
    walked: seq<Event<EventKind>>,      // history: events that the walk over a batch got past
    seen: seq<Decorated>,               // history: events that polls returned to their caller
    failed: bool)                       // history: some poll raised a decoding error

  datatype Step =
    | StartCall(output: Option<TypeName>)
    | OpenStream(types: Option<Types>, readCap: int, writeCap: int)
    | Core(act: Action)

  function Start(capacity: nat): Session {
    Session(Init(capacity), map[], map[], [], [], false)
  }

  /** Registers a typed call under the id it is about to get. */
  function Register(s: Session, types: Option<Types>): Session {
    if types.None? then s
    else s.(table := Set(s.table, s.core.nextId, types.value), typed := s.typed[s.core.nextId := types.value])
  }

  /** A unary call registers its output type only, and nothing when the method is untyped. */
  function UnaryTypes(output: Option<TypeName>): Option<Types> {
    if output.None? then None else Some(Types(None, output))
  }

  /** The events an action hands to R. */
  function Batch(c: Client, act: Action): seq<Event<EventKind>>
    requires Enabled(c, act)
  {
    var d := Apply(c, act).box.delivered;
    if |c.box.delivered| <= |d| then d[|c.box.delivered|..] else []
  }

  function HandOver(s: Session, batch: seq<Event<EventKind>>, decode: Decoder): Session {
    var r := Decorate(s.table, batch, decode);
    s.(table := r.types, walked := s.walked + batch[..Walked(s.table, batch, decode)],
       seen := if r.events.Some? then s.seen + r.events.value else s.seen,
       failed := s.failed || r.events.None?)
  }

  predicate Possible(s: Session, step: Step) {
    match step
    case StartCall(_) => Enabled(s.core, CallStart)
    case OpenStream(_, rc, wc) => Enabled(s.core, StreamStart(rc, wc))
    case Core(act) => Enabled(s.core, act) && !act.CallStart? && !act.StreamStart?
  }

  function Take(s: Session, step: Step, decode: Decoder): Session
    requires Possible(s, step)
  {
    match step
    case StartCall(output) => Register(s, UnaryTypes(output)).(core := Apply(s.core, CallStart))
    case OpenStream(types, rc, wc) => Register(s, types).(core := Apply(s.core, StreamStart(rc, wc)))
    case Core(act) => HandOver(s.(core := Apply(s.core, act)), Batch(s.core, act), decode)
  }

  ghost predicate ValidSteps(s: Session, steps: seq<Step>, decode: Decoder)
    decreases |steps|, 0
  {
    steps != [] ==>
      var n := |steps| - 1;
      ValidSteps(s, steps[..n], decode) && Possible(Run(s, steps[..n], decode), steps[n])
  }

  ghost function Run(s: Session, steps: seq<Step>, decode: Decoder): Session
    requires ValidSteps(s, steps, decode)
    decreases |steps|, 1
  {
    if steps == [] then s
    else
      var n := |steps| - 1;
      Take(Run(s, steps[..n], decode), steps[n], decode)
  }

  // ---- what the client machine promises about a batch ----

  /** Nothing of a call is delivered after its terminal event. */
  lemma NothingAfterTerminal(c: Client, i: nat, j: nat)
    requires Inv(c) && i < j < |c.box.delivered| && c.box.delivered[i].id == c.box.delivered[j].id
    ensures !Terminal(c.box.delivered[i].kind)
  {
    hide Inv, Of;
    var d, id := c.box.delivered, c.box.delivered[i].id;
    OfSplit(d, i, id);
    OfPresent(d[i + 1..], j - i - 1);
    var k := |Of(d[..i], id)|;
    assert Of(d, id)[k] == d[i].kind;
    if Terminal(d[i].kind) {
      TerminalDeliveredLast(c, id, k);
    }
  }

  /** Delivered events belong to ids that were handed out. */
  lemma DeliveredIds(c: Client, i: nat)
    requires Inv(c) && i < |c.box.delivered|
    ensures 1 <= c.box.delivered[i].id < c.nextId
  {
    var id := c.box.delivered[i].id;
    OfPresent(c.box.delivered, i);
    assert HistoryOk(c, id);
    assert Of(c.box.delivered, id) + Of(c.box.ready, id) == Of(c.box.pushed, id);
    hide Of, StreamsOk;
  }

  /** No step takes back what was delivered. */
  lemma DeliveredExtends(c: Client, act: Action)
    requires Enabled(c, act)
    ensures Apply(c, act).box.delivered == c.box.delivered + Batch(c, act)
    ensures Apply(c, act).nextId == c.nextId + (if act.CallStart? || act.StreamStart? then 1 else 0)
    ensures act.CallStart? || act.StreamStart? ==> Batch(c, act) == []
  {
    hide Deliver, DoTagDone;
    match act
    case TagDone(id, k, ok, a) => TagDoneKeepsDelivered(c, id, k, ok, a);
    case PollEnter(want, max, timeout, expired) => DeliverExtends(c, want, max);
    case PollReadable(expired) => DeliverExtends(c, c.box.poller.want, c.box.poller.max);
    case PollOver => DeliverExtends(c, c.box.poller.want, c.box.poller.max);
    case _ =>
  }

  lemma TagDoneKeepsDelivered(c: Client, id: nat, k: TagKind, ok: bool, a: Arrival)
    ensures DoTagDone(c, id, k, ok, a).box.delivered == c.box.delivered
    ensures DoTagDone(c, id, k, ok, a).nextId == c.nextId
  {
    hide OnTag, EventOf;
  }

  lemma {:induction false} DeliverLoopNextId(c: Client, pos: nat, n: int, want: Option<nat>)
    requires pos <= |c.box.ready|
    ensures DeliverLoop(c, pos, n, want).nextId == c.nextId
    decreases |c.box.ready| - pos
  {
    if pos == |c.box.ready| || n <= 0 {
    } else if !Matches(want, c.box.ready[pos]) {
      DeliverLoopNextId(c, pos + 1, n, want);
    } else {
      DeliverLoopNextId(DeliverAt(c, pos), pos, n - 1, want);
    }
  }

  lemma DeliverExtends(c: Client, want: Option<nat>, max: int)
    ensures c.box.delivered <= Deliver(c, want, max).box.delivered
    ensures Deliver(c, want, max).nextId == c.nextId
  {
    var c0 := c.(box := Drained(c.box));
    DeliverLoopBox(c0, 0, max, want);
    TakeLoopMeaning(c0.box, 0, max, want);
    DeliverLoopNextId(c0, 0, max, want);
    hide DeliverLoop;
  }

  // ---- the invariant ----

  /** Events returned to R carry the message that their own call says they hold. */
  ghost predicate SeenOk(s: Session, decode: Decoder) {
    forall i :: 0 <= i < |s.seen| ==>
      s.seen[i].event.id < s.core.nextId && OwnMessage(s.typed, s.seen[i].event, s.seen[i].message, decode)
  }

  /** As long as no poll has failed, what was delivered is what was walked and what R has seen. */
  predicate Lossless(s: Session) {
    && s.walked == s.core.box.delivered
    && |s.seen| == |s.core.box.delivered|
    && forall i :: 0 <= i < |s.seen| ==> s.seen[i].event == s.core.box.delivered[i]
  }

  ghost predicate SessionInv(s: Session, decode: Decoder) {
    && Inv(s.core)
    && Exact(s.table, s.typed, s.walked)
    && (forall id :: id in s.typed ==> id < s.core.nextId)
    && (forall id: nat :: Over(s.walked, id) ==> Over(s.core.box.delivered, id))
    && SeenOk(s, decode)
    && (!s.failed ==> Lossless(s))
  }

  lemma StartInv(capacity: nat, decode: Decoder)
    requires 1 <= capacity
    ensures SessionInv(Start(capacity), decode)
  {
    hide Inv;
    InitInv(capacity);
  }

  lemma SetExact(t: Table, typed: map<nat, Types>, walked: seq<Event<EventKind>>, id: nat, v: Types)
    requires Exact(t, typed, walked) && !Over(walked, id)
    ensures Exact(Set(t, id, v), typed[id := v], walked)
  {
    hide Over, Key;
    forall other: nat ensures Key(other) == Key(id) ==> other == id {
      if Key(other) == Key(id) {
        KeysDistinct(other, id);
      }
    }
    var t' := Set(t, id, v);
    forall key | key in t' ensures exists other: nat :: other in typed[id := v] && key == Key(other) {
      if key in t {
        var other: nat :| other in typed && key == Key(other);
        assert other in typed[id := v];
      } else {
        assert id in typed[id := v];
      }
    }
  }

  lemma RegisterInv(s: Session, types: Option<Types>, act: Action, decode: Decoder)
    requires SessionInv(s, decode) && Enabled(s.core, act) && (act.CallStart? || act.StreamStart?)
    ensures SessionInv(Register(s, types).(core := Apply(s.core, act)), decode)
  {
    hide Inv, Over, Exact, Apply, Set, Enabled;
    ApplyInv(s.core, act);
    DeliveredExtends(s.core, act);
    FreshId(s.core);
    assert s.core.box.delivered + [] == s.core.box.delivered;
    if types.Some? {
      SetExact(s.table, s.typed, s.walked, s.core.nextId, types.value);
    }
    RegisterKeepsSeen(s, types, s.core.nextId + 1, decode);
    hide OwnMessage;
  }

  lemma RegisterKeepsSeen(s: Session, types: Option<Types>, nextId: nat, decode: Decoder)
    requires SeenOk(s, decode) && s.core.nextId <= nextId
    ensures SeenOk(Register(s, types).(core := s.core.(nextId := nextId)), decode)
  {
    var typed := Register(s, types).typed;
    hide OwnMessage;
    forall i | 0 <= i < |s.seen| ensures OwnMessage(typed, s.seen[i].event, s.seen[i].message, decode) {
      SameOwnMessage(s.typed, typed, s.seen[i].event, s.seen[i].message, decode);
    }
  }

  /** Registering another call changes nothing about what an event holds. */
  lemma SameOwnMessage(typed: map<nat, Types>, typed': map<nat, Types>, e: Event<EventKind>,
                       message: Option<string>, decode: Decoder)
    requires OwnTypes(typed, e.id) == OwnTypes(typed', e.id) && OwnMessage(typed, e, message, decode)
    ensures OwnMessage(typed', e, message, decode)
  {
    assert forall b: Bytes, t: TypeName :: Holds(typed, e, b, t) <==> Holds(typed', e, b, t);
    hide Holds;
  }

  lemma FreshId(c: Client)
    requires Inv(c)
    ensures !Over(c.box.delivered, c.nextId)
  {
    hide Inv;
    forall i | 0 <= i < |c.box.delivered| ensures c.box.delivered[i].id != c.nextId {
      DeliveredIds(c, i);
    }
  }

  lemma OverPrefix(a: seq<Event<EventKind>>, b: seq<Event<EventKind>>, id: nat)
    ensures Over(a, id) ==> Over(a + b, id)
    ensures Over(a + b, id) <==> Over(a, id) || Over(b, id)
  {
    if Over(a, id) {
      var i :| 0 <= i < |a| && a[i].id == id && Terminal(a[i].kind);
      assert (a + b)[i] == a[i];
    }
    if Over(b, id) {
      var i :| 0 <= i < |b| && b[i].id == id && Terminal(b[i].kind);
      assert (a + b)[|a| + i] == b[i];
    }
    if Over(a + b, id) {
      var i :| 0 <= i < |a + b| && (a + b)[i].id == id && Terminal((a + b)[i].kind);
      assert if i < |a| then (a + b)[i] == a[i] else (a + b)[i] == b[i - |a|];
    }
  }

  /** The order that the client machine promises is the order that the walk needs. */
  lemma BatchInOrder(c: Client, d: seq<Event<EventKind>>, batch: seq<Event<EventKind>>, walked: seq<Event<EventKind>>)
    requires Inv(c) && c.box.delivered == d + batch
    requires forall id: nat :: Over(walked, id) ==> Over(d, id)
    ensures InOrder(walked, batch)
  {
    hide Inv;
    forall i | 0 <= i < |batch| ensures !Over(walked + batch[..i], batch[i].id) {
      var id := batch[i].id;
      OverPrefix(walked, batch[..i], id);
      OverPrefix(d, batch[..i], id);
      if Over(d + batch[..i], id) {
        var j :| 0 <= j < |d + batch[..i]| && (d + batch[..i])[j].id == id && Terminal((d + batch[..i])[j].kind);
        assert c.box.delivered[j] == (d + batch[..i])[j] && c.box.delivered[|d| + i] == batch[i];
        NothingAfterTerminal(c, j, |d| + i);
      }
    }
  }

  lemma HandOverExact(s: Session, d: seq<Event<EventKind>>, batch: seq<Event<EventKind>>, decode: Decoder)
    requires Exact(s.table, s.typed, s.walked)
    requires forall id: nat :: Over(s.walked, id) ==> Over(d, id)
    ensures var s' := HandOver(s, batch, decode);
      && Exact(s'.table, s.typed, s'.walked)
      && (forall id: nat :: Over(s'.walked, id) ==> Over(d + batch, id))
      && (!s'.failed ==> s'.walked == s.walked + batch)
  {
    DecorateExact(s.table, s.typed, s.walked, batch, decode);
    var n := Walked(s.table, batch, decode);
    assert batch == batch[..n] + batch[n..];
    hide Exact, Over, Decorate, Walked;
    forall id: nat ensures Over(s.walked + batch[..n], id) ==> Over(d + batch, id) {
      OverPrefix(s.walked, batch[..n], id);
      OverPrefix(batch[..n], batch[n..], id);
      OverPrefix(d, batch, id);
    }
  }

  lemma HandOverInv(s: Session, d: seq<Event<EventKind>>, batch: seq<Event<EventKind>>, decode: Decoder)
    requires Inv(s.core) && s.core.box.delivered == d + batch
    requires Exact(s.table, s.typed, s.walked) && InOrder(s.walked, batch) && SeenOk(s, decode)
    requires forall id :: id in s.typed ==> id < s.core.nextId
    requires forall id: nat :: Over(s.walked, id) ==> Over(d, id)
    requires !s.failed ==> s.walked == d && |s.seen| == |d|
    requires !s.failed ==> forall i :: 0 <= i < |s.seen| ==> s.seen[i].event == d[i]
    ensures SessionInv(HandOver(s, batch, decode), decode)
  {
    hide Inv, Exact, Over, InOrder, Decorate, Walked, Malformed, OwnMessage;
    HandOverExact(s, d, batch, decode);
    DecorateDecodesOwn(s.table, s.typed, s.walked, batch, decode);
    HandOverSeen(s, d, batch, decode);
    hide SeenOk;
  }

  lemma HandOverSeen(s: Session, d: seq<Event<EventKind>>, batch: seq<Event<EventKind>>, decode: Decoder)
    requires Inv(s.core) && s.core.box.delivered == d + batch
    requires Exact(s.table, s.typed, s.walked) && InOrder(s.walked, batch) && SeenOk(s, decode)
    ensures SeenOk(HandOver(s, batch, decode), decode)
  {
    hide Inv, Exact, Over, InOrder, Decorate, Walked, Malformed, OwnMessage;
    DecorateDecodesOwn(s.table, s.typed, s.walked, batch, decode);
    forall i | 0 <= i < |batch| ensures batch[i].id < s.core.nextId {
      assert s.core.box.delivered[|d| + i] == batch[i];
      DeliveredIds(s.core, |d| + i);
    }
  }

  lemma TakeInv(s: Session, step: Step, decode: Decoder)
    requires SessionInv(s, decode) && Possible(s, step)
    ensures SessionInv(Take(s, step, decode), decode)
  {
    hide Inv, Exact, Over, HandOver, Apply, Enabled, InOrder, Register;
    match step
    case StartCall(output) => RegisterInv(s, UnaryTypes(output), CallStart, decode);
    case OpenStream(types, rc, wc) => RegisterInv(s, types, StreamStart(rc, wc), decode);
    case Core(act) =>
      var c, batch := Apply(s.core, act), Batch(s.core, act);
      ApplyInv(s.core, act);
      DeliveredExtends(s.core, act);
      BatchInOrder(c, s.core.box.delivered, batch, s.walked);
      HandOverInv(s.(core := c), s.core.box.delivered, batch, decode);
  }

  lemma {:induction false} StepsInv(s: Session, steps: seq<Step>, decode: Decoder)
    requires SessionInv(s, decode) && ValidSteps(s, steps, decode)
    ensures SessionInv(Run(s, steps, decode), decode)
  {
    hide SessionInv, Take;
    if steps != [] {
      var n := |steps| - 1;
      StepsInv(s, steps[..n], decode);
      TakeInv(Run(s, steps[..n], decode), steps[n], decode);
    }
  }

  // ---- the results ----

  /** After every run the table holds exactly the typed calls whose terminal event no walk got past; and
      as long as no poll has failed, exactly those whose terminal event R has not been given. */
  lemma TableExact(capacity: nat, steps: seq<Step>, decode: Decoder)
    requires 1 <= capacity && ValidSteps(Start(capacity), steps, decode)
    ensures var s := Run(Start(capacity), steps, decode);
      && Exact(s.table, s.typed, s.walked)
      && (!s.failed ==> Exact(s.table, s.typed, s.core.box.delivered))
  {
    StartInv(capacity, decode);
    StepsInv(Start(capacity), steps, decode);
    hide Inv, Exact, Over, OwnMessage;
  }

  /** What a step registers: the output type of a typed unary call, or the types of a typed stream. */
  predicate RegisteredBy(step: Step, found: Option<Types>) {
    match step
    case StartCall(output) => if output == None then found == None else found.Some? && found.value.output == output
    case OpenStream(types, _, _) => found == types
    case Core(_) => true
  }

  lemma TakeTyped(s: Session, step: Step, decode: Decoder, id: nat)
    requires SessionInv(s, decode) && Possible(s, step)
    ensures var s' := Take(s, step, decode);
      && s.core.nextId <= s'.core.nextId
      && (id < s.core.nextId ==> OwnTypes(s'.typed, id) == OwnTypes(s.typed, id))
      && (!step.Core? ==> RegisteredBy(step, OwnTypes(s'.typed, s.core.nextId)) && s'.core.nextId == s.core.nextId + 1)
  {
    hide Inv, Exact, Over, SeenOk, Apply, Enabled, Batch, Decorate, Walked;
    match step
    case StartCall(_) => DeliveredExtends(s.core, CallStart);
    case OpenStream(_, rc, wc) => DeliveredExtends(s.core, StreamStart(rc, wc));
    case Core(act) => DeliveredExtends(s.core, act);
  }

  /** In every run, from the step that starts a call on, its id stands for what that step said: the types
      that messages are decoded with are the caller's. */
  lemma {:induction false} TypedAsStarted(s0: Session, steps: seq<Step>, decode: Decoder, i: nat)
    requires SessionInv(s0, decode) && ValidSteps(s0, steps, decode) && i < |steps| && !steps[i].Core?
    ensures ValidSteps(s0, steps[..i], decode)
    ensures var id := Run(s0, steps[..i], decode).core.nextId;
      && RegisteredBy(steps[i], OwnTypes(Run(s0, steps, decode).typed, id))
      && id < Run(s0, steps, decode).core.nextId
  {
    hide SessionInv, Take, RegisteredBy, OwnTypes;
    var n := |steps| - 1;
    StepsInv(s0, steps[..n], decode);
    if i < n {
      assert steps[..n][..i] == steps[..i];
      TypedAsStarted(s0, steps[..n], decode, i);
      TakeTyped(Run(s0, steps[..n], decode), steps[n], decode, Run(s0, steps[..i], decode).core.nextId);
    } else {
      TakeTyped(Run(s0, steps[..n], decode), steps[n], decode, 0);
    }
  }

  /** After every run, every event that R was given carries the message decoded as its own call's output
      type, and none when its call is untyped; as long as no poll has failed, R was given everything
      that was delivered, in order. */
  lemma MessagesDecodedAsOwn(capacity: nat, steps: seq<Step>, decode: Decoder, i: nat)
    requires 1 <= capacity && ValidSteps(Start(capacity), steps, decode)
    requires i < |Run(Start(capacity), steps, decode).seen|
    ensures var s := Run(Start(capacity), steps, decode);
      && (forall b: Bytes, t: TypeName :: Holds(s.typed, s.seen[i].event, b, t) ==> s.seen[i].message == decode(b, t))
      && ((forall b: Bytes, t: TypeName :: !Holds(s.typed, s.seen[i].event, b, t)) ==> s.seen[i].message == None)
      && (!s.failed ==> |s.seen| == |s.core.box.delivered| && s.seen[i].event == s.core.box.delivered[i])
  {
    StartInv(capacity, decode);
    StepsInv(Start(capacity), steps, decode);
    assert OwnMessage(Run(Start(capacity), steps, decode).typed, Run(Start(capacity), steps, decode).seen[i].event,
                      Run(Start(capacity), steps, decode).seen[i].message, decode);
    hide Inv, Exact, Over, Holds;
  }

  /** A poll raises a decoding error exactly when its batch holds a message that is malformed for the
      type its own call was started with. */
  lemma PollFailsIff(s: Session, act: Action, decode: Decoder)
    requires SessionInv(s, decode) && Enabled(s.core, act)
    ensures Decorate(s.table, Batch(s.core, act), decode).events.None?
       <==> exists i, b: Bytes, t: TypeName ::
         0 <= i < |Batch(s.core, act)| && Holds(s.typed, Batch(s.core, act)[i], b, t) && decode(b, t) == None
  {
    ApplyInv(s.core, act);
    DeliveredExtends(s.core, act);
    hide Inv, Exact, Over, InOrder, Apply, Enabled, Decorate, Batch;
    BatchInOrder(Apply(s.core, act), s.core.box.delivered, Batch(s.core, act), s.walked);
    DecorateDecodesOwn(s.table, s.typed, s.walked, Batch(s.core, act), decode);
  }

  /** The call's object is gone and nothing of it waits for R. */
  predicate Settled(c: Client, id: nat) {
    Of(c.box.ready, id) == [] && (RoleOf(c, id) == FinishedUnary || RoleOf(c, id) == FinishedStream)
  }

  /** R has been given a call's end exactly when its object is gone and nothing of it waits. */
  lemma OverIff(c: Client, id: nat)
    requires Inv(c)
    ensures Over(c.box.delivered, id) <==> Settled(c, id)
  {
    hide Inv, Over, Settled;
    if Over(c.box.delivered, id) {
      OverSettles(c, id);
    } else if Settled(c, id) {
      SettledIsOver(c, id);
    }
  }

  lemma OverSettles(c: Client, id: nat)
    requires Inv(c) && Over(c.box.delivered, id)
    ensures Settled(c, id)
  {
    hide Inv, Of, Terminal, RoleOf;
    var d := c.box.delivered;
    var i :| 0 <= i < |d| && d[i].id == id && Terminal(d[i].kind);
    OfPresent(d, i);
    var k: nat :| k < |Of(d, id)| && Of(d, id)[k] == d[i].kind;
    TerminalDeliveredLast(c, id, k);
  }

  lemma SettledIsOver(c: Client, id: nat)
    requires Inv(c) && Settled(c, id)
    ensures Over(c.box.delivered, id)
  {
    hide Of, Terminal, RoleOf, HistoryFits, StreamsOk, Ids, Subsequence;
    assert HistoryOk(c, id);
    var d := c.box.delivered;
    assert Of(d, id) + Of(c.box.ready, id) == Of(c.box.pushed, id);
    assert Of(d, id) == Of(c.box.pushed, id);
    TerminalPresent(RoleOf(c, id), Of(d, id));
    OfMember(d, id, |Of(d, id)| - 1);
  }

  /** Every entry of a call's history comes from one of its events. */
  lemma {:induction false} OfMember(q: seq<Event<EventKind>>, id: nat, k: nat)
    requires k < |Of(q, id)|
    ensures exists i :: 0 <= i < |q| && q[i].id == id && q[i].kind == Of(q, id)[k]
  {
    if q[0].id == id && k == 0 {
    } else {
      var j := if q[0].id == id then k - 1 else k;
      OfMember(q[1..], id, j);
      var i :| 0 <= i < |q[1..]| && q[1..][i].id == id && q[1..][i].kind == Of(q[1..], id)[j];
      assert q[i + 1] == q[1..][i];
    }
  }

  /** As long as no poll has failed, the table is empty exactly when every typed call is finished and has
      nothing waiting for R. */
  lemma TableEmptyIff(capacity: nat, steps: seq<Step>, decode: Decoder)
    requires 1 <= capacity && ValidSteps(Start(capacity), steps, decode)
    requires !Run(Start(capacity), steps, decode).failed
    ensures var s := Run(Start(capacity), steps, decode);
      s.table == map[] <==> forall id :: id in s.typed ==> Settled(s.core, id)
  {
    TableExact(capacity, steps, decode);
    StartInv(capacity, decode);
    StepsInv(Start(capacity), steps, decode);
    var s := Run(Start(capacity), steps, decode);
    hide Inv, Over, Settled, Key, SeenOk, Lossless;
    forall id | id in s.typed
      ensures Over(s.core.box.delivered, id) <==> Settled(s.core, id)
    {
      OverIff(s.core, id);
    }
    ExactEmpty(s.table, s.typed, s.core.box.delivered);
  }

  lemma ExactEmpty(t: Table, typed: map<nat, Types>, delivered: seq<Event<EventKind>>)
    requires Exact(t, typed, delivered)
    ensures t == map[] <==> forall id :: id in typed ==> Over(delivered, id)
  {
    hide Over, Key;
    if t == map[] {
      forall id | id in typed ensures Over(delivered, id) {
        assert Key(id) !in t;
      }
    } else {
      var key :| key in t;
      var id: nat :| id in typed && key == Key(id);
      assert !Over(delivered, id);
    }
  }

  // ---- what a malformed message costs ----

  /** The call is over for R, yet its entry was not forgotten. */
  predicate Leaked(s: Session, id: nat) {
    id in s.typed && Over(s.core.box.delivered, id) && !Over(s.walked, id)
  }

  /** After every run, failed polls or not: the table is exact for what was delivered if and only if no
      call leaked. */
  lemma ExactIff(s: Session, decode: Decoder)
    requires SessionInv(s, decode)
    ensures Exact(s.table, s.typed, s.core.box.delivered) <==> forall id: nat :: !Leaked(s, id)
  {
    hide Inv, SeenOk, Lossless, Over, Key;
    if id: nat :| Leaked(s, id) {
      assert Key(id) in s.table;
    } else {
      assert forall id :: id in s.typed && Over(s.core.box.delivered, id) ==> !Leaked(s, id);
      ExactSame(s.table, s.typed, s.walked, s.core.box.delivered);
    }
  }

  lemma ExactSame(t: Table, typed: map<nat, Types>, a: seq<Event<EventKind>>, b: seq<Event<EventKind>>)
    requires Exact(t, typed, a) && forall id :: id in typed ==> (Over(a, id) <==> Over(b, id))
    ensures Exact(t, typed, b)
  {
    hide Over, Key;
  }

  /** The batch holds a message malformed for its own type, and at or behind it the end of this call. */
  ghost predicate EndsBehindMalformed(typed: map<nat, Types>, batch: seq<Event<EventKind>>, id: nat, decode: Decoder) {
    exists i, j :: 0 <= i <= j < |batch| && Malformed(typed, batch[i], decode)
      && batch[j].id == id && Terminal(batch[j].kind)
  }

  /** Which calls leak, over every step of every session, earlier failures or not: those that had leaked
      before, and the typed calls that end in this batch at or behind a malformed message. */
  lemma LeakIff(s: Session, act: Action, decode: Decoder, id: nat)
    requires SessionInv(s, decode) && Possible(s, Core(act))
    ensures Leaked(Take(s, Core(act), decode), id) <==>
      Leaked(s, id) || (id in s.typed && EndsBehindMalformed(s.typed, Batch(s.core, act), id, decode))
  {
    var c, d, batch := Apply(s.core, act), s.core.box.delivered, Batch(s.core, act);
    var n := Walked(s.table, batch, decode);
    ApplyInv(s.core, act);
    DeliveredExtends(s.core, act);
    hide Inv, Exact, Over, InOrder, Apply, Enabled, Batch, Walked, Decorate, Malformed, Terminal, SeenOk, Lossless;
    BatchInOrder(c, d, batch, s.walked);
    WalkStopsAtMalformed(s.table, s.typed, s.walked, batch, decode);
    OverPrefix(d, batch, id);
    OverPrefix(s.walked, batch[..n], id);
    OverSuffix(batch, n, id);
    hide EndsBehindMalformed;
    EndsBehindIff(s.typed, batch, n, id, decode);
    if Over(d, id) {
      NothingMore(c, d, batch, id);
    } else if Over(batch, id) {
      OneEnd(c, d, batch, n, id);
    }
  }

  lemma OverSuffix(batch: seq<Event<EventKind>>, n: nat, id: nat)
    requires n <= |batch|
    ensures Over(batch, id) <==> Over(batch[..n], id) || Over(batch[n..], id)
  {
    assert batch[..n] + batch[n..] == batch;
    OverPrefix(batch[..n], batch[n..], id);
  }

  /** With `n` the first malformed message, the call ends at or behind a malformed one exactly when it ends
      at or behind `n`. */
  lemma EndsBehindIff(typed: map<nat, Types>, batch: seq<Event<EventKind>>, n: nat, id: nat, decode: Decoder)
    requires n <= |batch| && (forall i :: 0 <= i < n ==> !Malformed(typed, batch[i], decode))
    requires n < |batch| ==> Malformed(typed, batch[n], decode)
    ensures EndsBehindMalformed(typed, batch, id, decode) <==> Over(batch[n..], id)
  {
    hide Malformed, Terminal;
    if Over(batch[n..], id) {
      var k :| 0 <= k < |batch[n..]| && batch[n..][k].id == id && Terminal(batch[n..][k].kind);
      assert batch[n + k] == batch[n..][k];
    }
    if i, j :| 0 <= i <= j < |batch| && Malformed(typed, batch[i], decode) && batch[j].id == id && Terminal(batch[j].kind) {
      assert batch[n..][j - n] == batch[j];
    }
  }

  /** A call ends in one place only. */
  lemma OneEnd(c: Client, d: seq<Event<EventKind>>, batch: seq<Event<EventKind>>, n: nat, id: nat)
    requires Inv(c) && c.box.delivered == d + batch && n <= |batch|
    ensures !(Over(batch[..n], id) && Over(batch[n..], id))
  {
    hide Inv, Terminal;
    if Over(batch[..n], id) && Over(batch[n..], id) {
      var i :| 0 <= i < |batch[..n]| && batch[..n][i].id == id && Terminal(batch[..n][i].kind);
      var j :| 0 <= j < |batch[n..]| && batch[n..][j].id == id && Terminal(batch[n..][j].kind);
      assert c.box.delivered[|d| + i] == batch[..n][i];
      assert c.box.delivered[|d| + n + j] == batch[n..][j];
      NothingAfterTerminal(c, |d| + i, |d| + n + j);
    }
  }

  /** So one step leaves the table exact if and only if it was exact before and no typed call ends in the
      batch at or behind a message malformed for its own type. */
  lemma StaysExactIff(s: Session, act: Action, decode: Decoder)
    requires SessionInv(s, decode) && Possible(s, Core(act))
    ensures var s' := Take(s, Core(act), decode);
      Exact(s'.table, s'.typed, s'.core.box.delivered) <==>
        Exact(s.table, s.typed, s.core.box.delivered)
        && forall id :: id in s.typed ==> !EndsBehindMalformed(s.typed, Batch(s.core, act), id, decode)
  {
    var s' := Take(s, Core(act), decode);
    TakeInv(s, Core(act), decode);
    ExactIff(s, decode);
    ExactIff(s', decode);
    hide SessionInv, Exact, Leaked, Take, EndsBehindMalformed, Possible;
    forall id: nat
      ensures Leaked(s', id) <==>
        Leaked(s, id) || (id in s.typed && EndsBehindMalformed(s.typed, Batch(s.core, act), id, decode))
    {
      LeakIff(s, act, decode, id);
    }
  }

  lemma TakeKeepsLeak(s: Session, step: Step, decode: Decoder, id: nat)
    requires SessionInv(s, decode) && Possible(s, step) && Leaked(s, id)
    ensures Leaked(Take(s, step, decode), id)
  {
    match step
    case StartCall(_) =>
      DeliveredExtends(s.core, CallStart);
      hide Over, Inv, Exact, SeenOk, Apply;
    case OpenStream(_, rc, wc) =>
      DeliveredExtends(s.core, StreamStart(rc, wc));
      hide Over, Inv, Exact, SeenOk, Apply;
    case Core(act) =>
      ApplyInv(s.core, act);
      DeliveredExtends(s.core, act);
      hide Inv, Exact, SeenOk, Apply, Enabled, Batch;
      var batch, n := Batch(s.core, act), Walked(s.table, Batch(s.core, act), decode);
      OverPrefix(s.core.box.delivered, batch, id);
      NothingMore(Apply(s.core, act), s.core.box.delivered, batch, id);
      OverPrefix(s.walked, batch[..n], id);
      OverPrefix(batch[..n], batch[n..], id);
      assert batch[..n] + batch[n..] == batch;
      hide Over;
  }

  /** Once R has a call's end, no later batch holds another. */
  lemma NothingMore(c: Client, d: seq<Event<EventKind>>, batch: seq<Event<EventKind>>, id: nat)
    requires Inv(c) && c.box.delivered == d + batch && Over(d, id)
    ensures !Over(batch, id)
  {
    hide Inv, Terminal;
    var j :| 0 <= j < |d| && d[j].id == id && Terminal(d[j].kind);
    assert c.box.delivered[j] == d[j];
    if Over(batch, id) {
      var i :| 0 <= i < |batch| && batch[i].id == id && Terminal(batch[i].kind);
      assert c.box.delivered[|d| + i] == batch[i];
      NothingAfterTerminal(c, j, |d| + i);
    }
  }

  /** A leaked entry stays for the rest of the client's life. */
  lemma {:induction false} LeaksForever(s: Session, steps: seq<Step>, decode: Decoder, id: nat)
    requires SessionInv(s, decode) && ValidSteps(s, steps, decode) && Leaked(s, id)
    ensures var s' := Run(s, steps, decode);
      SessionInv(s', decode) && Leaked(s', id) && Key(id) in s'.table
  {
    hide SessionInv, Take, Leaked, Over, Key, Exact;
    if steps != [] {
      var n := |steps| - 1;
      LeaksForever(s, steps[..n], decode, id);
      var s1 := Run(s, steps[..n], decode);
      TakeInv(s1, steps[n], decode);
      TakeKeepsLeak(s1, steps[n], decode, id);
    }
    LeakedKey(Run(s, steps, decode), decode, id);
  }

  lemma LeakedKey(s: Session, decode: Decoder, id: nat)
    requires SessionInv(s, decode) && Leaked(s, id)
    ensures Key(id) in s.table
  {
    hide Inv, Over, SeenOk, Lossless, Key;
  }

  /** A typed unary call whose OK response does not decode. */
  function LeakRun(output: TypeName, response: Bytes): seq<Step> {
    [StartCall(Some(output)), Core(UnaryDone(1, Arrival(Some(response), 0))), Core(PollEnter(None, 1, 0, false))]
  }

  lemma LeakSteps(output: TypeName, response: Bytes, decode: Decoder)
    requires decode(response, output) == None
    ensures var s0 := Start(1);
      var s1 := Take(s0, StartCall(Some(output)), decode);
      var s2 := s1.(core := DoUnaryDone(s1.core, 1, Arrival(Some(response), 0)));
      && 1 in s1.core.unaryTags && s1.core.box.poller == Idle && !s1.core.closed
      && Take(s1, Core(UnaryDone(1, Arrival(Some(response), 0))), decode) == s2
      && s2.core.box.ready == [Event(1, Unary(0, Some(response)))] && s2.core.box.delivered == []
      && s2.core.box.poller == Idle && !s2.core.closed
      && s2.typed == map[1 := Types(None, Some(output))] && s2.table == map[Key(1) := Types(None, Some(output))]
      && s2.walked == [] && s2.seen == []
  {
    hide Key;
    assert Decorate(map[Key(1) := Types(None, Some(output))], [], decode).events == Some([]);
  }

  lemma LeakPoll(c: Client, e: Event<EventKind>)
    requires c.box.ready == [e] && c.box.delivered == [] && c.box.poller == Idle && !c.closed && !e.kind.Msg?
    ensures Batch(c, PollEnter(None, 1, 0, false)) == [e]
  {
    var c1 := DeliverAt(c.(box := Drained(c.box)), 0);
    assert c1.box.ready == [];
    assert DeliverLoop(c1, 0, 0, None) == c1;
  }

  /** Such a call leaks in the poll that was to deliver it. */
  lemma LeakWitness(output: TypeName, response: Bytes, decode: Decoder)
    requires decode(response, output) == None
    ensures ValidSteps(Start(1), LeakRun(output, response), decode)
    ensures Leaked(Run(Start(1), LeakRun(output, response), decode), 1)
  {
    var steps, s0 := LeakRun(output, response), Start(1);
    LeakSteps(output, response, decode);
    var s1 := Take(s0, steps[0], decode);
    var s2 := Take(s1, steps[1], decode);
    LeakPoll(s2.core, Event(1, Unary(0, Some(response))));
    LeakLast(s2, response, output, decode);
    hide Take, Start, Leaked;
    RunThree(s0, steps[0], steps[1], steps[2], decode);
  }

  lemma RunThree(s: Session, a: Step, b: Step, c: Step, decode: Decoder)
    requires Possible(s, a) && Possible(Take(s, a, decode), b) && Possible(Take(Take(s, a, decode), b, decode), c)
    ensures ValidSteps(s, [a, b, c], decode)
    ensures Run(s, [a, b, c], decode) == Take(Take(Take(s, a, decode), b, decode), c, decode)
  {
    hide Take, Possible;
    RunSnoc(s, [], a, decode);
    RunSnoc(s, [a], b, decode);
    RunSnoc(s, [a, b], c, decode);
    assert [] + [a] == [a] && [a] + [b] == [a, b] && [a, b] + [c] == [a, b, c];
  }

  lemma LeakLast(s: Session, response: Bytes, output: TypeName, decode: Decoder)
    requires decode(response, output) == None && s.walked == [] && s.core.box.delivered == []
    requires s.typed == map[1 := Types(None, Some(output))] && s.table == map[Key(1) := Types(None, Some(output))]
    requires Possible(s, Core(PollEnter(None, 1, 0, false)))
    requires Batch(s.core, PollEnter(None, 1, 0, false)) == [Event(1, Unary(0, Some(response)))]
    ensures Leaked(Take(s, Core(PollEnter(None, 1, 0, false)), decode), 1)
  {
    var act: Action := PollEnter(None, 1, 0, false);
    DeliveredExtends(s.core, act);
    hide Key, Apply, Batch;
    var e: Event<EventKind> := Event(1, Unary(0, Some(response)));
    assert Apply(s.core, act).box.delivered == [e];
    assert Over([e], 1) by { assert [e][0] == e; }
  }

  lemma RunSnoc(s: Session, steps: seq<Step>, step: Step, decode: Decoder)
    requires ValidSteps(s, steps, decode) && Possible(Run(s, steps, decode), step)
    ensures ValidSteps(s, steps + [step], decode)
    ensures Run(s, steps + [step], decode) == Take(Run(s, steps, decode), step, decode)
  {
    hide Take;
    assert (steps + [step])[..|steps|] == steps;
  }
}
