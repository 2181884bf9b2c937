/**
 The reorder engine holds three buffers of packets that must leave in
 consecutive order: completions by RSN, grants by SSN and push requests by SSN.
 All three are the same stage: a packet whose number is the next expected one
 leaves at once and drags the buffered run behind it along, any other packet
 waits in an ordered map.

 This module models one such stage and proves that it sorts: whatever the
 arrival order of distinct numbers, what has left so far is exactly the run
 from the start to the first number still missing, each once.
 */
module InOrderStream {

  datatype Stream<T> = Stream(
    start: nat,
    next: nat,
    held: map<nat, T>,
    released: seq<(nat, T)>)

  function Fresh<T>(start: nat): Stream<T> {
    Stream(start, start, map[], [])
  }

  /** Releases the buffered run that begins at the next expected number. */
  function Release<T>(s: Stream<T>): Stream<T>
    decreases |s.held|
  {
    if s.next in s.held then
      assert |s.held - {s.next}| < |s.held| by {
        assert (s.held - {s.next}).Keys == s.held.Keys - {s.next};
        assert |s.held.Keys| == |s.held| && |(s.held - {s.next}).Keys| == |s.held - {s.next}|;
      }
      Release(s.(next := s.next + 1,
                 held := s.held - {s.next},
                 released := s.released + [(s.next, s.held[s.next])]))
    else
      s
  }

  /** One arrival: the expected number leaves and the run behind it follows,
      any other number is buffered. */
  function Arrive<T>(s: Stream<T>, n: nat, x: T): Stream<T> {
    if n == s.next then
      Release(s.(next := n + 1, released := s.released + [(n, x)]))
    else
      s.(held := s.held[n := x])
  }

  /** A history of arrivals, oldest first inside `past`. */
  datatype Arrivals<T> = Nothing | And(past: Arrivals<T>, number: nat, payload: T)

  ghost function Received<T>(h: Arrivals<T>): map<nat, T> {
    match h
    case Nothing => map[]
    case And(past, n, x) => Received(past)[n := x]
  }

  /** The sliding window in front of the engine lets every number through once
      and none that precedes the window's start. */
  ghost predicate OncePerNumber<T>(start: nat, h: Arrivals<T>) {
    match h
    case Nothing => true
    case And(past, n, _) => start <= n && n !in Received(past) && OncePerNumber(start, past)
  }

  function Run<T>(start: nat, h: Arrivals<T>): Stream<T> {
    match h
    case Nothing => Fresh(start)
    case And(past, n, x) => Arrive(Run(start, past), n, x)
  }

  /** The sorted run [lo, hi) of what has been received. */
  ghost function Sorted<T>(lo: nat, hi: nat, received: map<nat, T>): seq<(nat, T)>
    requires lo <= hi
    requires forall k :: lo <= k < hi ==> k in received
  {
    seq(hi - lo, i requires 0 <= i < hi - lo => (lo + i, received[lo + i]))
  }

  /** What a stage must look like once `received` has come in. */
  ghost predicate Sorts<T>(s: Stream<T>, received: map<nat, T>) {
    && s.start <= s.next
    && s.next !in received
    && (forall k :: s.start <= k < s.next ==> k in received)
    && s.released == Sorted(s.start, s.next, received)
    && s.held == map k | k in received && s.next < k :: received[k]
  }

  /** `Sorts` but for a buffered run at `next` that has yet to leave. */
  ghost predicate SortsBut<T>(s: Stream<T>, received: map<nat, T>) {
    && s.start <= s.next
    && (forall k :: s.start <= k < s.next ==> k in received)
    && s.released == Sorted(s.start, s.next, received)
    && s.held == map k | k in received && s.next <= k :: received[k]
  }

  lemma {:induction false} ReleaseSorts<T>(s: Stream<T>, received: map<nat, T>)
    requires SortsBut(s, received)
    ensures Sorts(Release(s), received) && Release(s).start == s.start
    decreases |s.held|
  {
    if s.next in s.held {
      var t := s.(next := s.next + 1, held := s.held - {s.next},
                  released := s.released + [(s.next, s.held[s.next])]);
      assert t.held.Keys == s.held.Keys - {s.next};
      assert |s.held.Keys| == |s.held| && |t.held.Keys| == |t.held|;
      assert t.released == Sorted(t.start, t.next, received);
      ReleaseSorts(t, received);
    } else {
      assert s.next !in received;
      assert Release(s) == s;
    }
  }

  lemma {:induction false} ArriveSorts<T>(s: Stream<T>, received: map<nat, T>, n: nat, x: T)
    requires Sorts(s, received) && s.start <= n && n !in received
    ensures Sorts(Arrive(s, n, x), received[n := x]) && Arrive(s, n, x).start == s.start
  {
    var more := received[n := x];
    if n == s.next {
      var t := s.(next := n + 1, released := s.released + [(n, x)]);
      assert t.released == Sorted(t.start, t.next, more);
      ReleaseSorts(t, more);
    } else {
      assert s.released == Sorted(s.start, s.next, more);
    }
  }

  /** Reordering is sorting: for every arrival order of distinct numbers the
      stage has released exactly [start, first missing) in order. */
  lemma {:induction false} ReorderingSorts<T>(start: nat, h: Arrivals<T>)
    requires OncePerNumber(start, h)
    ensures Sorts(Run(start, h), Received(h)) && Run(start, h).start == start
  {
    match h
    case Nothing =>
    case And(past, n, x) =>
      ReorderingSorts(start, past);
      ArriveSorts(Run(start, past), Received(past), n, x);
  }

  /** Two arrival orders of the same packets leave the stage in the same state. */
  lemma {:induction false} ArrivalOrderIsInvisible<T>(start: nat, h: Arrivals<T>, g: Arrivals<T>)
    requires OncePerNumber(start, h) && OncePerNumber(start, g)
    requires Received(h) == Received(g)
    ensures Run(start, h) == Run(start, g)
  {
    ReorderingSorts(start, h);
    ReorderingSorts(start, g);
    var a, b := Run(start, h), Run(start, g);
    assert !(a.next < b.next) && !(b.next < a.next);
  }

  /** One more arrival at a stage that its arrivals have brought to `s`. */
  lemma ArrivalContinuesRun<T>(start: nat, h: Arrivals<T>, n: nat, x: T, s: Stream<T>)
    requires OncePerNumber(start, h) && s == Run(start, h) && start <= n && n !in Received(h)
    ensures OncePerNumber(start, And(h, n, x)) && Run(start, And(h, n, x)) == Arrive(s, n, x)
    ensures forall k :: k in s.held ==> s.next < k
  {
    ReorderingSorts(start, h);
  }

  lemma {:induction false} SmallestKey<T>(m: map<nat, T>, below: nat) returns (k: nat)
    requires exists j :: j in m && j <= below
    ensures k in m && forall j :: j in m ==> k <= j
    decreases below
  {
    if exists j :: j in m && j < below {
      k := SmallestKey(m, below - 1);
    } else {
      k := below;
    }
  }

  /** The draining loop of the three buffers: look at the smallest buffered
      number and let it go as long as it is the expected one. */
  method Drain<T>(next: nat, held: map<nat, T>, ghost s: Stream<T>)
    returns (next': nat, held': map<nat, T>, out: seq<(nat, T)>)
    requires s.next == next && s.held == held
    requires forall k :: k in held ==> next <= k
    ensures Release(s) == s.(next := next', held := held', released := s.released + out)
  {
    next', held', out := next, held, [];
    assert s.released + out == s.released;
    while held' != map[]
      invariant forall k :: k in held' ==> next' <= k
      invariant Release(s) == Release(s.(next := next', held := held', released := s.released + out))
      decreases |held'|
    {
      ghost var some :| some in held';
      ghost var least := SmallestKey(held', some);
      var head :| head in held' && forall k :: k in held' ==> head <= k;
      if next' == head {
        assert (held' - {head}).Keys == held'.Keys - {head};
        assert |held'.Keys| == |held'| && |(held' - {head}).Keys| == |held' - {head}|;
        assert s.released + (out + [(head, held'[head])]) == s.released + out + [(head, held'[head])];
        out := out + [(head, held'[head])];
        held' := held' - {head};
        next' := next' + 1;
      } else {
        break;
      }
    }
    assert next' !in held';
  }
}
