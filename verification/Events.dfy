/** Events, per-call histories, and the filtered take that grpc_poll() and grpc_await() perform on
    the one deque shared by every call of a client or a server. */
module Events {
  import opened Common

  /** An event carries the id of the call it belongs to and a machine-specific kind. */
  datatype Event<+T> = Event(id: nat, kind: T)

  /** The events of one call, in order: the history that call's owner sees. */
  function Of<T>(q: seq<Event<T>>, id: nat): (r: seq<T>)
  {
    if q == [] then []
    else (if q[0].id == id then [q[0].kind] else []) + Of(q[1..], id)
  }

  lemma {:induction false} OfConcat<T>(a: seq<Event<T>>, b: seq<Event<T>>, id: nat)
    ensures Of(a + b, id) == Of(a, id) + Of(b, id)
  {
    if a == [] {
      assert a + b == b;
    } else {
      OfConcat(a[1..], b, id);
      assert (a + b)[1..] == a[1..] + b;
      var head := if a[0].id == id then [a[0].kind] else [];
      ConcatAssociates(head, Of(a[1..], id), Of(b, id));
    }
  }

  lemma ConcatAssociates<T>(x: seq<T>, y: seq<T>, z: seq<T>)
    ensures (x + y) + z == x + (y + z)
  {
  }

  lemma OfAppend<T>(q: seq<Event<T>>, e: Event<T>, id: nat)
    ensures Of(q + [e], id) == Of(q, id) + (if e.id == id then [e.kind] else [])
  {
    OfConcat(q, [e], id);
  }

  /** A call with no event in the deque has an empty history there. */
  lemma {:induction false} OfAbsent<T>(q: seq<Event<T>>, id: nat)
    requires forall i :: 0 <= i < |q| ==> q[i].id != id
    ensures Of(q, id) == []
  {
    if q != [] {
      OfAbsent(q[1..], id);
    }
  }

  lemma {:induction false} OfPresent<T>(q: seq<Event<T>>, i: nat)
    requires i < |q|
    ensures q[i].kind in Of(q, q[i].id)
  {
    assert q == q[..i] + ([q[i]] + q[i + 1..]);
    OfConcat(q[..i], [q[i]] + q[i + 1..], q[i].id);
    OfConcat([q[i]], q[i + 1..], q[i].id);
  }

  // ---- the filtered take ----

  /** `None` is grpc_poll(): every event matches. `Some(id)` is grpc_await() on one call. */
  predicate Matches<T>(want: Option<nat>, e: Event<T>) {
    want.None? || e.id == want.value
  }

  predicate HaveMatch<T>(q: seq<Event<T>>, want: Option<nat>) {
    exists i :: 0 <= i < |q| && Matches(want, q[i])
  }

  predicate NoneMatch<T>(q: seq<Event<T>>, want: Option<nat>) {
    forall i :: 0 <= i < |q| ==> !Matches(want, q[i])
  }

  function RemoveAt<T>(q: seq<T>, pos: nat): (r: seq<T>)
    requires pos < |q|
    ensures |r| == |q| - 1
  {
    q[..pos] + q[pos + 1..]
  }

  /** All matching events, in order. */
  function Matching<T>(q: seq<Event<T>>, want: Option<nat>): seq<Event<T>> {
    if q == [] then []
    else (if Matches(want, q[0]) then [q[0]] else []) + Matching(q[1..], want)
  }

  lemma {:induction false} MatchingConcat<T>(a: seq<Event<T>>, b: seq<Event<T>>, want: Option<nat>)
    ensures Matching(a + b, want) == Matching(a, want) + Matching(b, want)
  {
    hide Matches;
    if a == [] {
      assert a + b == b;
    } else {
      MatchingConcat(a[1..], b, want);
      assert (a + b)[1..] == a[1..] + b;
      var head := if Matches(want, a[0]) then [a[0]] else [];
      ConcatAssociates(head, Matching(a[1..], want), Matching(b, want));
    }
  }

  lemma {:induction false} MatchingNone<T>(q: seq<Event<T>>, want: Option<nat>)
    requires NoneMatch(q, want)
    ensures Matching(q, want) == []
  {
    if q != [] {
      MatchingNone(q[1..], want);
    }
  }

  /** The batch that a take of at most `n` hands over: the first matching events, in order. */
  function FirstMatching<T>(q: seq<Event<T>>, want: Option<nat>, n: int): (r: seq<Event<T>>)
    ensures |r| <= Max(0, n) && r <= Matching(q, want)
    ensures |r| < n ==> r == Matching(q, want)
  {
    Matching(q, want)[..Min(Max(0, n), |Matching(q, want)|)]
  }

  /** What such a take leaves: the queue without its first `n` matching events, all else in place. */
  function RemoveFirst<T>(q: seq<Event<T>>, want: Option<nat>, n: int): seq<Event<T>> {
    if q == [] || n <= 0 then q
    else if Matches(want, q[0]) then RemoveFirst(q[1..], want, n - 1)
    else [q[0]] + RemoveFirst(q[1..], want, n)
  }

  lemma {:induction false} RemoveFirstNone<T>(q: seq<Event<T>>, want: Option<nat>, n: int)
    requires NoneMatch(q, want)
    ensures RemoveFirst(q, want, n) == q
  {
    if q != [] && n > 0 {
      RemoveFirstNone(q[1..], want, n);
    }
  }

  lemma {:induction false} RemoveFirstSplit<T>(q: seq<Event<T>>, pos: nat, want: Option<nat>, n: int)
    requires pos < |q| && Matches(want, q[pos]) && NoneMatch(q[..pos], want) && n > 0
    ensures RemoveFirst(q, want, n) == RemoveFirst(RemoveAt(q, pos), want, n - 1)
  {
    if pos == 0 {
      assert RemoveAt(q, 0) == q[1..];
    } else {
      assert !Matches(want, q[..pos][0]);
      assert q[1..][..pos - 1] == q[..pos][1..];
      RemoveFirstSplit(q[1..], pos - 1, want, n);
      assert RemoveAt(q, pos) == [q[0]] + RemoveAt(q[1..], pos - 1);
      assert RemoveAt(q, pos)[1..] == RemoveAt(q[1..], pos - 1);
    }
  }

  /** `a` is `b` with some elements left out: nothing is reordered. */
  predicate Subsequence<T(==)>(a: seq<T>, b: seq<T>)
    decreases |b|
  {
    || a == []
    || (b != [] && a[|a| - 1] == b[|b| - 1] && Subsequence(a[..|a| - 1], b[..|b| - 1]))
    || (b != [] && Subsequence(a, b[..|b| - 1]))
  }

  lemma SubsequenceAppend<T>(a: seq<T>, b: seq<T>, e: T)
    requires Subsequence(a, b)
    ensures Subsequence(a + [e], b + [e])
  {
    assert (a + [e])[..|a|] == a && (b + [e])[..|b|] == b;
  }

  /** Taking one element out of a subsequence leaves a subsequence. */
  lemma {:induction false} SubsequenceRemoveAt<T>(a: seq<T>, b: seq<T>, pos: nat)
    requires Subsequence(a, b) && pos < |a|
    ensures Subsequence(RemoveAt(a, pos), b)
    decreases |b|
  {
    var m, n := |a| - 1, |b| - 1;
    if a[m] == b[n] && Subsequence(a[..m], b[..n]) {
      if pos == m {
        assert RemoveAt(a, pos) == a[..m];
      } else {
        SubsequenceRemoveAt(a[..m], b[..n], pos);
        assert RemoveAt(a, pos)[..m - 1] == RemoveAt(a[..m], pos);
      }
    } else {
      SubsequenceRemoveAt(a, b[..n], pos);
    }
  }

  lemma OfSplit<T>(q: seq<Event<T>>, pos: nat, id: nat)
    requires pos < |q|
    ensures Of(q, id) == Of(q[..pos], id) + ((if q[pos].id == id then [q[pos].kind] else []) + Of(q[pos + 1..], id))
    ensures Of(RemoveAt(q, pos), id) == Of(q[..pos], id) + Of(q[pos + 1..], id)
  {
    assert q == q[..pos] + q[pos..];
    OfConcat(q[..pos], q[pos..], id);
    OfConcat(q[..pos], q[pos + 1..], id);
  }

  lemma MatchingSplit<T>(q: seq<Event<T>>, pos: nat, want: Option<nat>)
    requires pos < |q| && Matches(want, q[pos]) && NoneMatch(q[..pos], want)
    ensures Matching(q, want) == [q[pos]] + Matching(RemoveAt(q, pos), want)
  {
    assert q == q[..pos] + q[pos..];
    MatchingConcat(q[..pos], q[pos..], want);
    MatchingConcat(q[..pos], q[pos + 1..], want);
    MatchingNone(q[..pos], want);
  }

  /** One turn of the take: the first match goes over, and the rest is a take of one fewer. */
  lemma TakeOne<T>(q: seq<Event<T>>, pos: nat, want: Option<nat>, n: int)
    requires pos < |q| && Matches(want, q[pos]) && NoneMatch(q[..pos], want) && n > 0
    ensures FirstMatching(q, want, n) == [q[pos]] + FirstMatching(RemoveAt(q, pos), want, n - 1)
    ensures RemoveFirst(q, want, n) == RemoveFirst(RemoveAt(q, pos), want, n - 1)
  {
    MatchingSplit(q, pos, want);
    RemoveFirstSplit(q, pos, want, n);
    hide Matching, RemoveFirst, Matches;
  }

  /** A take that wants nothing, or finds nothing, changes nothing. */
  lemma TakeNone<T>(q: seq<Event<T>>, want: Option<nat>, n: int)
    requires n <= 0 || NoneMatch(q, want)
    ensures FirstMatching(q, want, n) == [] && RemoveFirst(q, want, n) == q
  {
    if n > 0 {
      MatchingNone(q, want);
      RemoveFirstNone(q, want, n);
    }
  }

  /** A poll for every call takes from the front of the queue. */
  lemma {:induction false} AllMatch<T>(q: seq<Event<T>>)
    ensures Matching(q, None) == q
  {
    if q != [] {
      AllMatch(q[1..]);
      assert q == [q[0]] + q[1..];
    }
  }

  /** An await on one call takes that call's events, and only those. */
  lemma {:induction false} MatchingIsOf<T>(q: seq<Event<T>>, id: nat)
    ensures Of(Matching(q, Some(id)), id) == Of(q, id) && |Matching(q, Some(id))| == |Of(q, id)|
    ensures forall e :: e in Matching(q, Some(id)) ==> e.id == id
  {
    if q != [] {
      MatchingIsOf(q[1..], id);
      if q[0].id == id {
        OfConcat([q[0]], Matching(q[1..], Some(id)), id);
      } else {
        assert Matching(q, Some(id)) == Matching(q[1..], Some(id));
      }
    }
  }

  lemma {:induction false} OfPrefix<T>(q: seq<Event<T>>, id: nat, k: nat)
    requires k <= |q| && forall e :: e in q ==> e.id == id
    ensures |Of(q, id)| == |q| && Of(q[..k], id) == Of(q, id)[..k]
  {
    if q != [] {
      OfPrefix(q[1..], id, if k == 0 then 0 else k - 1);
      if k > 0 {
        assert q[..k][1..] == q[1..][..k - 1];
      }
    }
  }

  /** The batch said without any filter: for every call it is the front of the queue, and for one call it is
      the first of that call's own events. */
  lemma FirstMatchingMeans<T>(q: seq<Event<T>>, want: Option<nat>, n: int)
    ensures want == None ==> FirstMatching(q, want, n) == q[..Min(Max(0, n), |q|)]
    ensures want.Some? ==> var own := Of(q, want.value);
      && (forall e :: e in FirstMatching(q, want, n) ==> e.id == want.value)
      && Of(FirstMatching(q, want, n), want.value) == own[..Min(Max(0, n), |own|)]
  {
    if want == None {
      AllMatch(q);
    } else {
      MatchingIsOf(q, want.value);
      var m := Matching(q, want);
      OfPrefix(m, want.value, Min(Max(0, n), |m|));
    }
  }

  lemma Shuffle<T>(d: seq<T>, k: seq<T>, l: seq<T>, r: seq<T>)
    requires l == [] || k == []
    ensures (d + k) + (l + r) == d + (l + (k + r))
  {
  }

  lemma SkippedHasNone<T>(q: seq<Event<T>>, pos: nat, want: Option<nat>)
    requires pos < |q| && Matches(want, q[pos]) && NoneMatch(q[..pos], want)
    ensures Of(q[..pos], q[pos].id) == []
  {
    forall i | 0 <= i < pos ensures q[..pos][i].id != q[pos].id {
      assert !Matches(want, q[..pos][i]);
    }
    OfAbsent(q[..pos], q[pos].id);
  }

  /** Taking the first matching event out of the deque and appending it to what was delivered moves
      no call's events past one another. */
  lemma TakeFirstConserves<T>(delivered: seq<Event<T>>, ready: seq<Event<T>>, pos: nat,
                              want: Option<nat>, id: nat)
    requires pos < |ready| && Matches(want, ready[pos]) && NoneMatch(ready[..pos], want)
    ensures Of(delivered + [ready[pos]], id) + Of(RemoveAt(ready, pos), id)
         == Of(delivered, id) + Of(ready, id)
  {
    var k := if ready[pos].id == id then [ready[pos].kind] else [];
    OfSplit(ready, pos, id);
    OfAppend(delivered, ready[pos], id);
    SkippedHasNone(ready, pos, want);
    Shuffle(Of(delivered, id), k, Of(ready[..pos], id), Of(ready[pos + 1..], id));
  }
}
