/** The typed-call table of the R client: one named list, keyed by the decimal text of the call id, that
    says how to decode a call's messages. It is kept correct only by the order in which the client
    delivers events. */
module CallTable {
  import opened Common
  import opened Events
  import opened Mailbox
  import opened ClientStream
  import opened ClientModel
  import opened ClientInv
  import opened ClientRuns

  type TypeName = string

  /** What a typed call registered: a unary call records its output type only. */
  datatype Types = Types(input: Option<TypeName>, output: Option<TypeName>)

  /** Decoding one message as one type; `None` is the R error that a malformed message raises. */
  type Decoder = (Bytes, TypeName) -> Option<string>

  // ---- keys ----

  /** `sprintf("%.0f", id)`: the decimal digits, never scientific notation. */
  function Key(id: nat): string {
    if id < 10 then [Digit(id)] else Key(id / 10) + [Digit(id % 10)]
  }

  function Digit(d: nat): char
    requires d < 10
  {
    '0' + d as char
  }

  function Value(s: string): int {
    if s == [] then 0 else 10 * Value(s[..|s| - 1]) + (s[|s| - 1] as int - '0' as int)
  }

  lemma {:induction false} KeyRoundTrip(id: nat)
    ensures Value(Key(id)) == id && Key(id) != []
  {
    if id >= 10 {
      KeyRoundTrip(id / 10);
      assert (Key(id / 10) + [Digit(id % 10)])[..|Key(id / 10)|] == Key(id / 10);
    } else {
      assert [Digit(id)][..0] == [];
    }
  }

  /** No two calls share a key. */
  lemma KeysDistinct(a: nat, b: nat)
    requires Key(a) == Key(b)
    ensures a == b
  {
    KeyRoundTrip(a);
    KeyRoundTrip(b);
  }

  // ---- the table ----

  type Table = map<string, Types>

  function Get(t: Table, id: nat): Option<Types> {
    if Key(id) in t then Some(t[Key(id)]) else None
  }

  function Set(t: Table, id: nat, v: Types): Table {
    t[Key(id) := v]
  }

  function Drop(t: Table, id: nat): Table {
    t - {Key(id)}
  }

  /** Registering a call makes its types the ones found under its id, and changes what is found under no
      other id. */
  lemma SetOnly(t: Table, id: nat, v: Types)
    ensures Get(Set(t, id, v), id) == Some(v)
    ensures forall other: nat :: other != id ==> Get(Set(t, id, v), other) == Get(t, other)
  {
    hide Key;
    forall other: nat | other != id ensures Get(Set(t, id, v), other) == Get(t, other) {
      if Key(other) == Key(id) {
        KeysDistinct(other, id);
      }
    }
  }

  /** Forgetting a call leaves nothing under its id, and changes what is found under no other id; done
      right after registering, it undoes the registration. */
  lemma DropOnly(t: Table, id: nat)
    ensures Get(Drop(t, id), id) == None
    ensures forall other: nat :: other != id ==> Get(Drop(t, id), other) == Get(t, other)
    ensures forall v: Types :: Get(t, id) == None ==> Drop(Set(t, id, v), id) == t
  {
    hide Key;
    forall other: nat | other != id ensures Get(Drop(t, id), other) == Get(t, other) {
      if Key(other) == Key(id) {
        KeysDistinct(other, id);
      }
    }
    forall v: Types | Get(t, id) == None ensures Drop(Set(t, id, v), id) == t {
      assert Drop(Set(t, id, v), id) == t;
    }
  }

  // ---- decorating a batch ----

  /** An event as R sees it, with the decoded message of a typed call. */
  datatype Decorated = Decorated(event: Event<EventKind>, message: Option<string>)

  /** The bytes that a typed call's event would have decoded: a stream message, or a unary response whose
      status is OK. */
  function Response(k: EventKind): Option<Bytes> {
    match k
    case Msg(payload) => payload
    case Unary(status, response) => if status == 0 then response else None
    case _ => None
  }

  predicate WantsDecoding(types: Option<Types>, k: EventKind) {
    types.Some? && types.value.output.Some? && Response(k).Some?
  }

  /** The table after one event has been handed over. */
  function Forget(t: Table, e: Event<EventKind>): Table {
    if Terminal(e.kind) && Get(t, e.id).Some? then Drop(t, e.id) else t
  }

  function Decode(decode: Decoder, types: Option<Types>, k: EventKind): Option<string>
    requires WantsDecoding(types, k)
  {
    decode(Response(k).value, types.value.output.value)
  }

  /** The outcome of a walk: the table it leaves, and the decorated events unless a decode raised an
      error, which abandons the rest of the batch. */
  datatype Outcome = Outcome(types: Table, events: Option<seq<Decorated>>)

  function Prepend(done: seq<Decorated>, r: Outcome): Outcome {
    r.(events := if r.events.None? then None else Some(done + r.events.value))
  }

  /** The walk over a batch, one event at a time: decode, then forget the call if this was its end. */
  function Decorate(t: Table, batch: seq<Event<EventKind>>, decode: Decoder): Outcome
    decreases |batch|
  {
    if batch == [] then Outcome(t, Some([]))
    else
      var e, types := batch[0], Get(t, batch[0].id);
      if !WantsDecoding(types, e.kind) then
        Prepend([Decorated(e, None)], Decorate(Forget(t, e), batch[1..], decode))
      else
        var message := Decode(decode, types, e.kind);
        if message.None? then Outcome(t, None)
        else Prepend([Decorated(e, message)], Decorate(Forget(t, e), batch[1..], decode))
  }

  /** How many events the walk got through. */
  function Walked(t: Table, batch: seq<Event<EventKind>>, decode: Decoder): (n: nat)
    ensures n <= |batch|
    decreases |batch|
  {
    if batch == [] then 0
    else
      var e := batch[0];
      var types := Get(t, e.id);
      if WantsDecoding(types, e.kind) && Decode(decode, types, e.kind).None? then 0
      else 1 + Walked(Forget(t, e), batch[1..], decode)
  }

  lemma PrependNothing(r: Outcome)
    ensures Prepend([], r) == r
  {
    if r.events.Some? {
      assert [] + r.events.value == r.events.value;
    }
  }

  lemma PrependPrepend(done: seq<Decorated>, d: Decorated, r: Outcome)
    ensures Prepend(done, Prepend([d], r)) == Prepend(done + [d], r)
  {
    if r.events.Some? {
      assert done + ([d] + r.events.value) == (done + [d]) + r.events.value;
    }
  }

  // ---- exactness ----

  /** R has been given the terminal event of this call. */
  predicate Over(delivered: seq<Event<EventKind>>, id: nat) {
    exists i :: 0 <= i < |delivered| && delivered[i].id == id && Terminal(delivered[i].kind)
  }

  /** The table holds exactly the typed calls whose terminal event has not been handed over, each with
      its own types. */
  ghost predicate Exact(t: Table, typed: map<nat, Types>, delivered: seq<Event<EventKind>>) {
    && (forall key :: key in t ==> exists id: nat :: id in typed && key == Key(id))
    && (forall id: nat :: Key(id) in t <==> id in typed && !Over(delivered, id))
    && (forall id: nat :: Key(id) in t ==> t[Key(id)] == typed[id])
  }

  lemma OverAppend(delivered: seq<Event<EventKind>>, e: Event<EventKind>, id: nat)
    ensures Over(delivered + [e], id) <==> Over(delivered, id) || (e.id == id && Terminal(e.kind))
  {
    if Over(delivered, id) {
      var i :| 0 <= i < |delivered| && delivered[i].id == id && Terminal(delivered[i].kind);
      assert (delivered + [e])[i] == delivered[i];
    }
    if e.id == id && Terminal(e.kind) {
      assert (delivered + [e])[|delivered|] == e;
    }
  }

  /** Handing over one event keeps the table exact. */
  lemma ForgetExact(t: Table, typed: map<nat, Types>, delivered: seq<Event<EventKind>>, e: Event<EventKind>)
    requires Exact(t, typed, delivered)
    ensures Exact(Forget(t, e), typed, delivered + [e])
  {
    hide Over, Key, Terminal;
    var t' := Forget(t, e);
    forall id: nat
      ensures Key(id) in t' <==> id in typed && !Over(delivered + [e], id)
    {
      OverAppend(delivered, e, id);
      if Key(id) == Key(e.id) {
        KeysDistinct(id, e.id);
      }
    }
  }

  lemma {:induction false} DecorateExact(t: Table, typed: map<nat, Types>, delivered: seq<Event<EventKind>>,
                                         batch: seq<Event<EventKind>>, decode: Decoder)
    requires Exact(t, typed, delivered)
    ensures var n := Walked(t, batch, decode);
      && Exact(Decorate(t, batch, decode).types, typed, delivered + batch[..n])
      && (Decorate(t, batch, decode).events.Some? <==> n == |batch|)
    decreases |batch|
  {
    hide Exact, WantsDecoding, Decode, Forget;
    if batch == [] {
      assert delivered + [] == delivered;
    } else {
      var e := batch[0];
      var types := Get(t, e.id);
      if WantsDecoding(types, e.kind) && Decode(decode, types, e.kind).None? {
        assert delivered + batch[..0] == delivered;
      } else {
        ForgetExact(t, typed, delivered, e);
        DecorateExact(Forget(t, e), typed, delivered + [e], batch[1..], decode);
        var n := Walked(Forget(t, e), batch[1..], decode);
        assert (delivered + [e]) + batch[1..][..n] == delivered + batch[..n + 1];
      }
    }
  }

  // ---- decoding with one's own type ----

  /** What the call itself was started with says about decoding this event. */
  function OwnTypes(typed: map<nat, Types>, id: nat): Option<Types> {
    if id in typed then Some(typed[id]) else None
  }

  /** This event holds the bytes `b` for a call that was started with output type `t`: a stream message, or
      a unary response whose status is OK. */
  predicate Holds(typed: map<nat, Types>, e: Event<EventKind>, b: Bytes, t: TypeName) {
    && (e.kind == Msg(Some(b)) || e.kind == Unary(0, Some(b)))
    && e.id in typed && typed[e.id].output == Some(t)
  }

  /** The message the event's own call says it holds, without any table: those bytes decoded as that type,
      and nothing for every other event. */
  ghost predicate OwnMessage(typed: map<nat, Types>, e: Event<EventKind>, message: Option<string>, decode: Decoder) {
    && (forall b: Bytes, t: TypeName :: Holds(typed, e, b, t) ==> message == decode(b, t))
    && ((forall b: Bytes, t: TypeName :: !Holds(typed, e, b, t)) ==> message == None)
  }

  /** The event holds bytes that do not decode as its own call's output type. */
  ghost predicate Malformed(typed: map<nat, Types>, e: Event<EventKind>, decode: Decoder) {
    exists b: Bytes, t: TypeName :: Holds(typed, e, b, t) && decode(b, t) == None
  }

  lemma HoldsWanted(typed: map<nat, Types>, e: Event<EventKind>, b: Bytes, t: TypeName)
    ensures Holds(typed, e, b, t) <==>
      WantsDecoding(OwnTypes(typed, e.id), e.kind)
      && b == Response(e.kind).value && t == OwnTypes(typed, e.id).value.output.value
  {
  }

  /** What the walk does with an event whose types it finds is what the event's own call asks for. */
  lemma DecodesOwn(typed: map<nat, Types>, e: Event<EventKind>, decode: Decoder)
    ensures var types := OwnTypes(typed, e.id);
      if WantsDecoding(types, e.kind)
      then OwnMessage(typed, e, Decode(decode, types, e.kind), decode)
           && (Malformed(typed, e, decode) <==> Decode(decode, types, e.kind).None?)
      else OwnMessage(typed, e, None, decode) && !Malformed(typed, e, decode)
  {
    var types := OwnTypes(typed, e.id);
    hide Holds;
    forall b: Bytes, t: TypeName
      ensures Holds(typed, e, b, t) <==>
        WantsDecoding(types, e.kind) && b == Response(e.kind).value && t == types.value.output.value
    {
      HoldsWanted(typed, e, b, t);
    }
    if WantsDecoding(types, e.kind) {
      assert Holds(typed, e, Response(e.kind).value, types.value.output.value);
    }
  }

  /** Every event arrives before its call is over. */
  ghost predicate InOrder(walked: seq<Event<EventKind>>, batch: seq<Event<EventKind>>) {
    forall i :: 0 <= i < |batch| ==> !Over(walked + batch[..i], batch[i].id)
  }

  lemma InOrderTail(walked: seq<Event<EventKind>>, batch: seq<Event<EventKind>>)
    requires InOrder(walked, batch) && batch != []
    ensures !Over(walked, batch[0].id) && InOrder(walked + [batch[0]], batch[1..])
  {
    hide Over;
    assert walked + batch[..0] == walked;
    forall i | 0 <= i < |batch[1..]| ensures !Over((walked + [batch[0]]) + batch[1..][..i], batch[1..][i].id) {
      assert (walked + [batch[0]]) + batch[1..][..i] == walked + batch[..i + 1];
    }
  }

  /** With an exact table and events in order, the walk finds each event's own types: it decodes every
      message as its own call's output type, and raises an error exactly when some message of the batch
      is malformed for its own type. */
  lemma {:induction false} DecorateDecodesOwn(t: Table, typed: map<nat, Types>, walked: seq<Event<EventKind>>,
                                              batch: seq<Event<EventKind>>, decode: Decoder)
    requires Exact(t, typed, walked) && InOrder(walked, batch)
    ensures var r := Decorate(t, batch, decode);
      && (r.events.None? <==> exists i :: 0 <= i < |batch| && Malformed(typed, batch[i], decode))
      && (r.events.Some? ==> |r.events.value| == |batch|)
      && (r.events.Some? ==> forall i :: 0 <= i < |batch| ==>
            r.events.value[i].event == batch[i]
            && OwnMessage(typed, batch[i], r.events.value[i].message, decode))
    decreases |batch|
  {
    if batch != [] {
      var e := batch[0];
      InOrderTail(walked, batch);
      ExactFinds(t, typed, walked, e.id);
      ForgetExact(t, typed, walked, e);
      DecorateDecodesOwn(Forget(t, e), typed, walked + [e], batch[1..], decode);
      DecodesOwn(typed, e, decode);
      hide Exact, InOrder, Over, Forget, Get, WantsDecoding, Decode, OwnMessage, Malformed;
      assert forall i :: 0 < i < |batch| ==> batch[i] == batch[1..][i - 1];
    }
  }

  lemma ExactFinds(t: Table, typed: map<nat, Types>, walked: seq<Event<EventKind>>, id: nat)
    requires Exact(t, typed, walked) && !Over(walked, id)
    ensures Get(t, id) == OwnTypes(typed, id)
  {
    hide Over, Key;
  }

  /** The walk stops at the first message that is malformed for its own type. */
  lemma {:induction false} WalkStopsAtMalformed(t: Table, typed: map<nat, Types>, walked: seq<Event<EventKind>>,
                                                batch: seq<Event<EventKind>>, decode: Decoder)
    requires Exact(t, typed, walked) && InOrder(walked, batch)
    ensures var n := Walked(t, batch, decode);
      && (forall i :: 0 <= i < n ==> !Malformed(typed, batch[i], decode))
      && (n < |batch| ==> Malformed(typed, batch[n], decode))
    decreases |batch|
  {
    if batch != [] {
      var e := batch[0];
      InOrderTail(walked, batch);
      ExactFinds(t, typed, walked, e.id);
      ForgetExact(t, typed, walked, e);
      WalkStopsAtMalformed(Forget(t, e), typed, walked + [e], batch[1..], decode);
      DecodesOwn(typed, e, decode);
      hide Exact, InOrder, Over, Forget, Get, WantsDecoding, Decode, OwnMessage, Malformed;
      assert forall i :: 0 < i < |batch| ==> batch[i] == batch[1..][i - 1];
    }
  }

  // ---- the table as an object ----

  class CallTypes {
    var types: Table

    constructor ()
      ensures types == map[]
    {
      types := map[];
    }

    method SetTypes(id: nat, v: Types)
      modifies this
      ensures Get(types, id) == Some(v)
      ensures forall other: nat :: other != id ==> Get(types, other) == Get(old(types), other)
      ensures types == Set(old(types), id, v)
    {
      SetOnly(types, id, v);
      types := types[Key(id) := v];
    }

    method DropTypes(id: nat)
      modifies this
      ensures Get(types, id) == None
      ensures forall other: nat :: other != id ==> Get(types, other) == Get(old(types), other)
      ensures types == Drop(old(types), id)
    {
      DropOnly(types, id);
      types := types - {Key(id)};
    }

    /** decorate_events(): walks the batch in order, decoding and forgetting as it goes. When the table holds
        exactly the open calls among `typed`, and the batch comes in order after `walked`, every event comes
        out with the message its own call says it holds, and there is an error exactly when one of them
        is malformed. */
    method DecorateEvents(batch: seq<Event<EventKind>>, decode: Decoder, ghost typed: map<nat, Types>,
                          ghost walked: seq<Event<EventKind>>) returns (out: Option<seq<Decorated>>)
      modifies this
      ensures Outcome(types, out) == Decorate(old(types), batch, decode)
      ensures Exact(old(types), typed, walked) && InOrder(walked, batch) ==>
        (out.None? <==> exists i :: 0 <= i < |batch| && Malformed(typed, batch[i], decode))
      ensures Exact(old(types), typed, walked) && InOrder(walked, batch) && out.Some? ==>
        && Exact(types, typed, walked + batch) && |out.value| == |batch|
        && forall i :: 0 <= i < |batch| ==>
             out.value[i].event == batch[i] && OwnMessage(typed, batch[i], out.value[i].message, decode)
    {
      hide Exact, InOrder, OwnMessage, Malformed, Holds;
      if Exact(types, typed, walked) && InOrder(walked, batch) {
        DecorateDecodesOwn(types, typed, walked, batch, decode);
        DecorateExact(types, typed, walked, batch, decode);
        assert batch[..|batch|] == batch;
      }
      var done: seq<Decorated> := [];
      var i := 0;
      assert batch[0..] == batch;
      PrependNothing(Decorate(types, batch, decode));
      while i < |batch|
        invariant 0 <= i <= |batch|
        invariant Prepend(done, Decorate(types, batch[i..], decode)) == Decorate(old(types), batch, decode)
      {
        hide Get, Drop, WantsDecoding;
        var e := batch[i];
        assert batch[i..][1..] == batch[i + 1..];
        var found := Get(types, e.id);
        var message := None;
        if WantsDecoding(found, e.kind) {
          message := decode(Response(e.kind).value, found.value.output.value);
          if message.None? {
            return None;
          }
        }
        PrependPrepend(done, Decorated(e, message), Decorate(Forget(types, e), batch[i + 1..], decode));
        if Terminal(e.kind) && found.Some? {
          DropTypes(e.id);
        }
        done := done + [Decorated(e, message)];
        i := i + 1;
      }
      assert batch[i..] == [] && done + [] == done;
      return Some(done);
    }
  }
}
