/**
 The arbiter among the connection, retransmission and ACK/NACK schedulers:
 weighted slots tried in turn, one effective run per tick.
 */
module Arbiter {
  import opened Lists

  datatype SchedulerType = ConnectionScheduler | RetransmissionScheduler | AckNackScheduler

  const AllSchedulers := [ConnectionScheduler, RetransmissionScheduler, AckNackScheduler]

  function Repeat(x: SchedulerType, n: nat): (r: seq<SchedulerType>)
    ensures |r| == n && multiset(r)[x] == n && forall y :: y != x ==> multiset(r)[y] == 0
  {
    if n == 0 then [] else [x] + Repeat(x, n - 1)
  }

  datatype Weights = Weights(connection: nat, retransmission: nat, ackNack: nat)

  function Weight(w: Weights, x: SchedulerType): nat {
    match x
    case ConnectionScheduler => w.connection
    case RetransmissionScheduler => w.retransmission
    case AckNackScheduler => w.ackNack
  }

  /** As many slots for each scheduler as its weight. */
  function SlotsUpTo(w: Weights, n: nat): seq<SchedulerType>
    requires n <= |AllSchedulers|
  {
    if n == 0 then [] else SlotsUpTo(w, n - 1) + Repeat(AllSchedulers[n - 1], Weight(w, AllSchedulers[n - 1]))
  }

  function Slots(w: Weights): seq<SchedulerType> {
    SlotsUpTo(w, 3)
  }

  // ---------- One scan over the slots ----------

  function FirstReady<T(==)>(round: seq<T>, ready: set<T>): (d: nat)
    ensures d <= |round|
    ensures forall i :: 0 <= i < d ==> round[i] !in ready
    ensures d < |round| ==> round[d] in ready
  {
    if round == [] || round[0] in ready then 0 else 1 + FirstReady(round[1..], ready)
  }

  function Indices(n: nat): (r: seq<nat>)
    ensures |r| == n && forall i :: 0 <= i < n ==> r[i] == i
  {
    seq(n, i => i)
  }

  /** The slots in the order a scan that begins at the candidate visits them. */
  function Round(n: nat, candidate: nat): seq<nat>
    requires candidate < n
  {
    Turned(Indices(n), candidate)
  }

  /** The slot served by a scan. `ready` are the slots at which the scheduler, asked
      there and then, sends something; a scan asks at each slot once at most, so the
      answers of one scheduler may differ from slot to slot. */
  function ServedSlot(n: nat, candidate: nat, ready: set<nat>): (r: Option<nat>)
    requires candidate < n
    ensures r.Some? ==> r.value < n && r.value in ready
  {
    var round := Round(n, candidate);
    var d := FirstReady(round, ready);
    if d < n then Some(round[d]) else None
  }

  /** The slot after the one served; unchanged when none was. */
  function NextCandidate(n: nat, candidate: nat, ready: set<nat>): (r: nat)
    requires candidate < n
    ensures r < n
  {
    var d := FirstReady(Round(n, candidate), ready);
    if d < n then Advance(candidate, d + 1, n) else candidate
  }

  function Advance(i: nat, steps: nat, n: nat): (r: nat)
    requires i < n && steps <= n
    ensures r < n
  {
    if i + steps < n then i + steps else i + steps - n
  }

  lemma TurnedAt<T>(s: seq<T>, c: nat, d: nat)
    requires c < |s| && d < |s|
    ensures Turned(s, c)[d] == s[Advance(c, d, |s|)]
  {
  }

  lemma NextIndex(c: nat, d: nat, n: nat)
    requires c < n && d < n
    ensures (Advance(c, d, n) + 1) % n == Advance(c, d + 1, n)
    ensures Advance(c, d + 1, n) == c <==> d + 1 == n
  {
    var next := Advance(c, d, n) + 1;
    if next == n {
      assert next % n == 0;
    } else {
      assert next % n == next;
    }
  }

  lemma TurnedTwice<T>(s: seq<T>, c: nat, d: nat)
    requires c < |s| && d <= |s|
    ensures Turned(s, Advance(c, d, |s|)) == Turned(Turned(s, c), d)
  {
  }

  // ---------- The state machine ----------

  /** An effective run: when it was, which slot it began with, and at which slots
      something could be sent. */
  datatype Entry = Entry(time: int, candidate: nat, ready: set<nat>)

  datatype World = World(
    candidate: nat,
    scheduled: bool,
    lastRunTime: Option<int>,   // None: minus infinity
    now: int,
    pending: multiset<int>,     // arbitration events
    log: seq<Entry>)

  function Initial(now: int): World {
    World(0, false, None, now, multiset{}, [])
  }

  /** Asks for arbitration: at once, or one tick after the last effective run. */
  function Schedule(tick: nat, w: World, hasWork: bool): World {
    if w.scheduled || !hasWork then w
    else
      var next := if w.lastRunTime == None || w.now >= w.lastRunTime.value + tick then w.now
                  else w.lastRunTime.value + tick;
      w.(scheduled := true, pending := w.pending + multiset{next})
  }

  /** An effective run: the slots are tried in turn. */
  function Run(n: nat, w: World, ready: set<nat>): World
    requires w.candidate < n
  {
    w.(lastRunTime := Some(w.now), log := w.log + [Entry(w.now, w.candidate, ready)],
       candidate := NextCandidate(n, w.candidate, ready))
  }

  /** An arbitration event. Whether there is work, before and after, and at which
      slots something can be sent is up to the schedulers. */
  function Arbitrate(n: nat, tick: nat, w: World, hasWork: bool, ready: set<nat>, workAfter: bool): World
    requires w.candidate < n
  {
    var v := w.(pending := w.pending - multiset{w.now});
    if !hasWork then v.(scheduled := false)
    else
      var u := Run(n, v, ready);
      if workAfter then u.(pending := u.pending + multiset{w.now + tick}) else u.(scheduled := false)
  }

  datatype Step =
    | ScheduleStep(hasWork: bool)
    | ArbitrateStep(hasWork: bool, ready: set<nat>, workAfter: bool)
    | TickStep(until: int)

  ghost predicate Next(n: nat, tick: nat, w: World, s: Step, v: World) {
    match s
    case ScheduleStep(hasWork) => v == Schedule(tick, w, hasWork)
    case ArbitrateStep(hasWork, ready, workAfter) =>
      w.now in w.pending && (w.candidate < n ==> v == Arbitrate(n, tick, w, hasWork, ready, workAfter))
    case TickStep(until) => w.now <= until && (forall e :: e in w.pending ==> until <= e) && v == w.(now := until)
  }

  ghost predicate IsRun(n: nat, tick: nat, ws: seq<World>, steps: seq<Step>) {
    && 0 < n && |ws| == |steps| + 1
    && ws[0] == Initial(ws[0].now)
    && forall i :: 0 <= i < |steps| ==> Next(n, tick, ws[i], steps[i], ws[i + 1])
  }

  /** The slot at which the run after the `k`-th began, or is to begin. */
  function CandidateAfter(log: seq<Entry>, candidate: nat, k: nat): nat {
    if k + 1 < |log| then log[k + 1].candidate else candidate
  }

  ghost predicate Linked(n: nat, log: seq<Entry>, candidate: nat, k: nat)
    requires k < |log|
  {
    && log[k].candidate < n
    && NextCandidate(n, log[k].candidate, log[k].ready) == CandidateAfter(log, candidate, k)
  }

  /** The log is consistent: each run begins where the one before left off. */
  ghost predicate Chained(n: nat, log: seq<Entry>, candidate: nat) {
    candidate < n && forall k :: 0 <= k < |log| ==> Linked(n, log, candidate, k)
  }

  lemma OneMoreRun(n: nat, log: seq<Entry>, candidate: nat, e: Entry)
    requires Chained(n, log, candidate) && e.candidate == candidate
    ensures Chained(n, log + [e], NextCandidate(n, candidate, e.ready))
  {
    var next := NextCandidate(n, candidate, e.ready);
    forall k | 0 <= k < |log| + 1 ensures Linked(n, log + [e], next, k) {
      if k < |log| {
        assert Linked(n, log, candidate, k);
      }
    }
  }

  ghost predicate Spaced(log: seq<Entry>, tick: nat) {
    forall k :: 0 < k < |log| ==> log[k].time >= log[k - 1].time + tick
  }

  /** At most one event is pending, just when the flag says so, and never sooner than
      a tick after the last effective run. */
  ghost predicate Inv(n: nat, tick: nat, w: World) {
    && Chained(n, w.log, w.candidate) && Spaced(w.log, tick)
    && w.lastRunTime == (if w.log == [] then None else Some(w.log[|w.log| - 1].time))
    && (w.lastRunTime != None ==> w.lastRunTime.value <= w.now)
    && if !w.scheduled then w.pending == multiset{}
       else exists t :: Awaited(tick, w, t)
  }

  ghost predicate Awaited(tick: nat, w: World, t: int) {
    && w.pending == multiset{t} && w.now <= t
    && (w.lastRunTime != None ==> w.lastRunTime.value + tick <= t)
    && (w.lastRunTime == None ==> t == w.now)
    && (w.lastRunTime != None ==> t <= w.lastRunTime.value + tick || t == w.now)
  }

  lemma ArbitrateKeepsInv(n: nat, tick: nat, w: World, hasWork: bool, ready: set<nat>, workAfter: bool)
    requires Inv(n, tick, w) && w.now in w.pending
    ensures Inv(n, tick, Arbitrate(n, tick, w, hasWork, ready, workAfter))
  {
    var t :| Awaited(tick, w, t);
    assert t == w.now && w.pending - multiset{w.now} == multiset{};
    var v := Arbitrate(n, tick, w, hasWork, ready, workAfter);
    OneMoreRun(n, w.log, w.candidate, Entry(w.now, w.candidate, ready));
    if hasWork && workAfter {
      assert Awaited(tick, v, w.now + tick);
    }
  }

  lemma StepKeepsInv(n: nat, tick: nat, w: World, s: Step, v: World)
    requires Inv(n, tick, w) && Next(n, tick, w, s, v)
    ensures Inv(n, tick, v)
  {
    match s
    case ScheduleStep(hasWork) =>
      if !w.scheduled && hasWork {
        assert Awaited(tick, v, if w.lastRunTime == None || w.now >= w.lastRunTime.value + tick then w.now
                                else w.lastRunTime.value + tick);
      }
    case ArbitrateStep(hasWork, ready, workAfter) =>
      ArbitrateKeepsInv(n, tick, w, hasWork, ready, workAfter);
    case TickStep(until) =>
      if w.scheduled {
        var t :| Awaited(tick, w, t);
        assert t in w.pending;
        assert Awaited(tick, v, t);
      }
  }

  lemma {:induction false} EveryRunKeepsInv(n: nat, tick: nat, ws: seq<World>, steps: seq<Step>, i: nat)
    requires IsRun(n, tick, ws, steps) && i < |ws|
    ensures Inv(n, tick, ws[i])
  {
    if i > 0 {
      EveryRunKeepsInv(n, tick, ws, steps, i - 1);
      StepKeepsInv(n, tick, ws[i - 1], steps[i - 1], ws[i]);
    }
  }

  lemma OneEventIffScheduled(n: nat, tick: nat, ws: seq<World>, steps: seq<Step>, i: nat)
    requires IsRun(n, tick, ws, steps) && i < |ws|
    ensures |ws[i].pending| == if ws[i].scheduled then 1 else 0
    ensures forall t :: t in ws[i].pending ==>
                          ws[i].now <= t && (ws[i].lastRunTime != None ==> ws[i].lastRunTime.value + tick <= t)
  {
    EveryRunKeepsInv(n, tick, ws, steps, i);
  }

  /** The step ends with work to do: arbitration was asked for with work, or a run has
      left some. */
  predicate LeavesWork(s: Step) {
    match s
    case ScheduleStep(hasWork) => hasWork
    case ArbitrateStep(hasWork, _, workAfter) => hasWork && workAfter
    case TickStep(_) => false
  }

  /** When a request made at `now` is to run: at once, or a tick after the last
      effective run if that is later. */
  function DueTime(tick: nat, log: seq<Entry>, now: int): int {
    if log != [] && now < log[|log| - 1].time + tick then log[|log| - 1].time + tick else now
  }

  /** Work is never forgotten: it leaves exactly one arbitration event pending, which is
      the one that was pending already, or else falls due at once or a tick after the
      last effective run. */
  lemma WorkLeavesEvent(n: nat, tick: nat, ws: seq<World>, steps: seq<Step>, i: nat)
    requires IsRun(n, tick, ws, steps) && i < |steps| && LeavesWork(steps[i])
    ensures ws[i + 1].scheduled
    ensures ws[i + 1].pending == (if steps[i].ScheduleStep? && ws[i].pending != multiset{} then ws[i].pending
                                  else multiset{DueTime(tick, ws[i + 1].log, ws[i].now)})
  {
    EveryRunKeepsInv(n, tick, ws, steps, i);
    var w := ws[i];
    assert Next(n, tick, w, steps[i], ws[i + 1]);
    if w.scheduled {
      var t :| Awaited(tick, w, t);
      assert w.pending - multiset{t} == multiset{};
    }
  }

  /** A pending event stays until it runs, and the clock does not pass it. */
  lemma {:induction false} PendingRunIsOnTime(n: nat, tick: nat, ws: seq<World>, steps: seq<Step>, i: nat, j: nat, t: int)
    requires IsRun(n, tick, ws, steps) && i <= j < |ws| && t in ws[i].pending
    requires forall k :: i <= k < j ==> !steps[k].ArbitrateStep?
    ensures ws[j].pending == ws[i].pending && ws[j].now <= t
  {
    EveryRunKeepsInv(n, tick, ws, steps, j);
    if i < j {
      PendingRunIsOnTime(n, tick, ws, steps, i, j - 1, t);
      assert Next(n, tick, ws[j - 1], steps[j - 1], ws[j - 1 + 1]);
      EveryRunKeepsInv(n, tick, ws, steps, j - 1);
    }
  }

  /** Effective runs are at least a tick apart, however often arbitration is asked
      for. */
  lemma {:induction false} RunsAreTicksApart(log: seq<Entry>, tick: nat, i: nat, j: nat)
    requires Spaced(log, tick) && i <= j < |log|
    ensures log[j].time - log[i].time >= (j - i) * tick
  {
    if i < j {
      RunsAreTicksApart(log, tick, i, j - 1);
      assert (j - i) * tick == (j - 1 - i) * tick + tick;
    }
  }

  // ---------- Fairness ----------

  /** Slots to go before one of `x` comes up. */
  function Distance(slots: seq<SchedulerType>, candidate: nat, x: SchedulerType): nat
    requires candidate < |slots|
  {
    FirstReady(Turned(slots, candidate), {x})
  }

  /** The scheduler sends at whichever of its slots it is asked. */
  ghost predicate AbleAt(slots: seq<SchedulerType>, ready: set<nat>, x: SchedulerType) {
    forall i :: 0 <= i < |slots| && slots[i] == x ==> i in ready
  }

  ghost predicate Serves(slots: seq<SchedulerType>, candidate: nat, ready: set<nat>, x: SchedulerType)
    requires candidate < |slots|
  {
    var r := ServedSlot(|slots|, candidate, ready);
    r.Some? && slots[r.value] == x
  }

  lemma RoundVisits(slots: seq<SchedulerType>, candidate: nat, d: nat)
    requires candidate < |slots| && d < |slots|
    ensures Round(|slots|, candidate)[d] < |slots|
    ensures slots[Round(|slots|, candidate)[d]] == Turned(slots, candidate)[d]
  {
    TurnedAt(slots, candidate, d);
    TurnedAt(Indices(|slots|), candidate, d);
  }

  lemma DistanceShrinks(slots: seq<SchedulerType>, candidate: nat, ready: set<nat>, x: SchedulerType)
    requires candidate < |slots| && x in slots && AbleAt(slots, ready, x)
    ensures Distance(slots, candidate, x) < |slots|
    ensures Serves(slots, candidate, ready, x)
            || Distance(slots, NextCandidate(|slots|, candidate, ready), x) < Distance(slots, candidate, x)
  {
    var turned := Turned(slots, candidate);
    TurnedSpec(slots, candidate);
    var p :| 0 <= p < |turned| && turned[p] == x;
    var far := Distance(slots, candidate, x);
    assert far <= p && turned[far] == x;
    RoundVisits(slots, candidate, far);
    var d := FirstReady(Round(|slots|, candidate), ready);
    assert d <= far;
    if d < far {
      TurnedTwice(slots, candidate, d + 1);
      var after := Turned(turned, d + 1);
      assert after[far - d - 1] == x;
      assert FirstReady(after, {x}) <= far - d - 1;
    }
  }

  /** A scheduler that could send in each of a sequence of effective runs was served
      in one of them, if they were as many as there are slots. */
  lemma {:induction false} ServedWithinARound(slots: seq<SchedulerType>, log: seq<Entry>, candidate: nat,
                                              x: SchedulerType, from: nat, end: nat)
    returns (k: nat)
    requires Chained(|slots|, log, candidate) && x in slots
    requires from <= end <= |log| && end - from >= |slots|
    requires forall i :: from <= i < end ==> AbleAt(slots, log[i].ready, x)
    ensures from <= k < end && log[k].candidate < |slots| && Serves(slots, log[k].candidate, log[k].ready, x)
  {
    k := from;
    assert Linked(|slots|, log, candidate, from);
    var bound := Distance(slots, log[from].candidate, x);
    DistanceShrinks(slots, log[from].candidate, log[from].ready, x);
    while !Serves(slots, log[k].candidate, log[k].ready, x)
      invariant from <= k < end && log[k].candidate < |slots|
      invariant Distance(slots, log[k].candidate, x) + (k - from) <= bound < |slots|
      decreases end - k
    {
      DistanceShrinks(slots, log[k].candidate, log[k].ready, x);
      assert Linked(|slots|, log, candidate, k) && Linked(|slots|, log, candidate, k + 1);
      k := k + 1;
    }
  }

  /** The ready slots of a round, in order. */
  function Only(round: seq<nat>, ready: set<nat>): seq<nat> {
    if round == [] then []
    else (if round[0] in ready then [round[0]] else []) + Only(round[1..], ready)
  }

  lemma {:induction false} OnlyConcat(a: seq<nat>, b: seq<nat>, ready: set<nat>)
    ensures Only(a + b, ready) == Only(a, ready) + Only(b, ready)
  {
    if a == [] {
      assert a + b == b;
    } else {
      var first := if a[0] in ready then [a[0]] else [];
      OnlyConcat(a[1..], b, ready);
      assert (a + b)[1..] == a[1..] + b;
      assert (a + b)[0] == a[0];
      assert first + (Only(a[1..], ready) + Only(b, ready)) == (first + Only(a[1..], ready)) + Only(b, ready);
    }
  }

  lemma {:induction false} OnlySkipped(round: seq<nat>, ready: set<nat>)
    requires forall i :: 0 <= i < |round| ==> round[i] !in ready
    ensures Only(round, ready) == []
  {
    if round != [] { OnlySkipped(round[1..], ready); }
  }

  lemma OnlyTurned(round: seq<nat>, ready: set<nat>)
    requires FirstReady(round, ready) < |round|
    ensures var d := FirstReady(round, ready);
            && Only(round, ready) == [round[d]] + Only(round[d + 1..], ready)
            && Only(Turned(round, d + 1), ready) == Only(round[d + 1..], ready) + [round[d]]
  {
    var d := FirstReady(round, ready);
    var skipped, one, rest := round[..d], [round[d]], round[d + 1..];
    OnlySkipped(skipped, ready);
    assert one[1..] == [] && Only(one, ready) == one;
    OnlyConcat(skipped, one, ready);
    OnlyConcat(skipped + one, rest, ready);
    OnlyConcat(rest, skipped + one, ready);
    assert round == skipped + one + rest;
    assert Turned(round, d + 1) == rest + (skipped + one);
  }

  /** A run with these slots ready serves the first of them and sends it to the
      back. */
  lemma RunTurnsReadySlots(n: nat, candidate: nat, ready: set<nat>)
    requires candidate < n
    ensures var before := Only(Round(n, candidate), ready);
            var after := Only(Round(n, NextCandidate(n, candidate, ready)), ready);
            if before == [] then ServedSlot(n, candidate, ready) == None && after == before
            else ServedSlot(n, candidate, ready) == Some(before[0]) && after == before[1..] + [before[0]]
  {
    hide Only;
    var round := Round(n, candidate);
    var d := FirstReady(round, ready);
    if d == |round| {
      OnlySkipped(round, ready);
    } else {
      OnlyTurned(round, ready);
      TurnedTwice(Indices(n), candidate, d + 1);
    }
  }

  function ServedIn(n: nat, log: seq<Entry>, from: nat, end: nat): seq<Option<nat>>
    requires from <= end <= |log| && forall k :: 0 <= k < |log| ==> log[k].candidate < n
    decreases end - from
  {
    if from == end then []
    else [ServedSlot(n, log[from].candidate, log[from].ready)] + ServedIn(n, log, from + 1, end)
  }

  function Wrap(s: seq<nat>): (r: seq<Option<nat>>)
    ensures |r| == |s| && forall i :: 0 <= i < |s| ==> r[i] == Some(s[i])
  {
    if s == [] then [] else [Some(s[0])] + Wrap(s[1..])
  }

  ghost predicate SameReady(log: seq<Entry>, ready: set<nat>, from: nat, end: nat)
    requires from <= end <= |log|
  {
    forall k :: from <= k < end ==> log[k].ready == ready
  }

  lemma RunsHaveSlots(n: nat, log: seq<Entry>, candidate: nat)
    requires Chained(n, log, candidate)
    ensures forall k :: 0 <= k < |log| ==> log[k].candidate < n
  {
    forall k | 0 <= k < |log| ensures log[k].candidate < n {
      assert Linked(n, log, candidate, k);
    }
  }

  /** Over a stretch of runs with the same slots ready, these slots are served one
      after the other. */
  lemma {:induction false} RoundInOrder(n: nat, log: seq<Entry>, candidate: nat, ready: set<nat>,
                                        from: nat, end: nat, owed: seq<nat>)
    requires Chained(n, log, candidate) && from <= end <= |log| && SameReady(log, ready, from, end)
    requires forall k :: 0 <= k < |log| ==> log[k].candidate < n
    requires from < |log| ==> owed == Only(Round(n, log[from].candidate), ready)
    requires end - from <= |owed|
    ensures ServedIn(n, log, from, end) == Wrap(owed[..end - from])
    decreases end - from
  {
    if from < end {
      RunTurnsReadySlots(n, log[from].candidate, ready);
      assert Linked(n, log, candidate, from);
      var next := owed[1..] + [owed[0]];
      RoundInOrder(n, log, candidate, ready, from + 1, end, next);
      assert owed[..end - from] == [owed[0]] + next[..end - from - 1];
      assert owed[..end - from][1..] == next[..end - from - 1];
    }
  }

  /** How many of these slots are of scheduler `x`. */
  function SlotsOf(slots: seq<SchedulerType>, s: seq<nat>, x: SchedulerType): nat {
    if s == [] then 0 else (if s[0] < |slots| && slots[s[0]] == x then 1 else 0) + SlotsOf(slots, s[1..], x)
  }

  /** How many runs served scheduler `x`. */
  function TimesServed(slots: seq<SchedulerType>, served: seq<Option<nat>>, x: SchedulerType): nat {
    if served == [] then 0
    else
      (if served[0].Some? && served[0].value < |slots| && slots[served[0].value] == x then 1 else 0)
      + TimesServed(slots, served[1..], x)
  }

  lemma {:induction false} WrapServes(slots: seq<SchedulerType>, s: seq<nat>, x: SchedulerType)
    ensures TimesServed(slots, Wrap(s), x) == SlotsOf(slots, s, x)
  {
    if s != [] { WrapServes(slots, s[1..], x); }
  }

  lemma {:induction false} SlotsOfConcat(slots: seq<SchedulerType>, a: seq<nat>, b: seq<nat>, x: SchedulerType)
    ensures SlotsOf(slots, a + b, x) == SlotsOf(slots, a, x) + SlotsOf(slots, b, x)
  {
    if a == [] {
      assert a + b == b;
    } else {
      assert (a + b)[1..] == a[1..] + b && (a + b)[0] == a[0];
      SlotsOfConcat(slots, a[1..], b, x);
    }
  }

  lemma {:induction false} AllSlotsCount(slots: seq<SchedulerType>, k: nat, x: SchedulerType)
    requires k <= |slots|
    ensures SlotsOf(slots, Indices(|slots|)[..k], x) == multiset(slots[..k])[x]
  {
    if k > 0 {
      var all := Indices(|slots|);
      AllSlotsCount(slots, k - 1, x);
      assert all[..k] == all[..k - 1] + [k - 1];
      SlotsOfConcat(slots, all[..k - 1], [k - 1], x);
      assert [k - 1][1..] == [];
      assert slots[..k] == slots[..k - 1] + [slots[k - 1]];
    }
  }

  lemma RoundCounts(slots: seq<SchedulerType>, candidate: nat, x: SchedulerType)
    requires candidate < |slots|
    ensures SlotsOf(slots, Round(|slots|, candidate), x) == multiset(slots)[x]
  {
    var all := Indices(|slots|);
    AllSlotsCount(slots, |slots|, x);
    assert all[..|slots|] == all && slots[..|slots|] == slots;
    SlotsOfConcat(slots, all[..candidate], all[candidate..], x);
    SlotsOfConcat(slots, all[candidate..], all[..candidate], x);
    assert all == all[..candidate] + all[candidate..];
  }

  /** The slots of the schedulers in `backlogged`. */
  function SlotsReady(slots: seq<SchedulerType>, backlogged: set<SchedulerType>): set<nat> {
    set i | 0 <= i < |slots| && slots[i] in backlogged
  }

  lemma {:induction false} OnlyCounts(slots: seq<SchedulerType>, round: seq<nat>, backlogged: set<SchedulerType>, x: SchedulerType)
    ensures SlotsOf(slots, Only(round, SlotsReady(slots, backlogged)), x)
            == if x in backlogged then SlotsOf(slots, round, x) else 0
  {
    if round != [] {
      OnlyCounts(slots, round[1..], backlogged, x);
      var ready := SlotsReady(slots, backlogged);
      if round[0] in ready {
        assert Only(round, ready)[1..] == Only(round[1..], ready);
      } else {
        assert Only(round, ready) == Only(round[1..], ready);
      }
    }
  }

  lemma SlotsCount(w: Weights, x: SchedulerType)
    ensures multiset(Slots(w))[x] == Weight(w, x)
  {
    assert SlotsUpTo(w, 1) == Repeat(ConnectionScheduler, w.connection);
    assert SlotsUpTo(w, 2) == SlotsUpTo(w, 1) + Repeat(RetransmissionScheduler, w.retransmission);
  }

  function Share(w: Weights, backlogged: set<SchedulerType>, x: SchedulerType): nat {
    if x in backlogged then Weight(w, x) else 0
  }

  function RoundLength(w: Weights, backlogged: set<SchedulerType>): nat {
    Share(w, backlogged, ConnectionScheduler) + Share(w, backlogged, RetransmissionScheduler)
    + Share(w, backlogged, AckNackScheduler)
  }

  lemma {:induction false} SlotsAddUp(slots: seq<SchedulerType>, s: seq<nat>)
    requires forall i :: 0 <= i < |s| ==> s[i] < |slots|
    ensures |s| == SlotsOf(slots, s, ConnectionScheduler) + SlotsOf(slots, s, RetransmissionScheduler)
                   + SlotsOf(slots, s, AckNackScheduler)
  {
    if s != [] {
      SlotsAddUp(slots, s[1..]);
      var x := slots[s[0]];
      assert x.ConnectionScheduler? || x.RetransmissionScheduler? || x.AckNackScheduler?;
    }
  }

  lemma {:induction false} OnlyAreReady(round: seq<nat>, ready: set<nat>)
    ensures forall i :: 0 <= i < |Only(round, ready)| ==> Only(round, ready)[i] in ready
  {
    if round != [] {
      OnlyAreReady(round[1..], ready);
      var only, rest := Only(round, ready), Only(round[1..], ready);
      forall i | 0 <= i < |only| ensures only[i] in ready {
        if round[0] in ready {
          assert only == [round[0]] + rest;
        } else {
          assert only == rest;
        }
      }
    }
  }

  lemma SlotsAreAsManyAsWeights(w: Weights)
    ensures |Slots(w)| == w.connection + w.retransmission + w.ackNack
  {
    assert |SlotsUpTo(w, 1)| == w.connection;
    assert |SlotsUpTo(w, 2)| == w.connection + w.retransmission;
  }

  lemma OwedCounts(w: Weights, candidate: nat, backlogged: set<SchedulerType>, x: SchedulerType)
    requires candidate < |Slots(w)|
    ensures var owed := Only(Round(|Slots(w)|, candidate), SlotsReady(Slots(w), backlogged));
            SlotsOf(Slots(w), owed, x) == Share(w, backlogged, x)
  {
    RoundCounts(Slots(w), candidate, x);
    OnlyCounts(Slots(w), Round(|Slots(w)|, candidate), backlogged, x);
    SlotsCount(w, x);
  }

  lemma OwedLength(w: Weights, candidate: nat, backlogged: set<SchedulerType>)
    requires candidate < |Slots(w)|
    ensures |Only(Round(|Slots(w)|, candidate), SlotsReady(Slots(w), backlogged))| == RoundLength(w, backlogged)
  {
    var slots := Slots(w);
    var owed := Only(Round(|slots|, candidate), SlotsReady(slots, backlogged));
    OnlyAreReady(Round(|slots|, candidate), SlotsReady(slots, backlogged));
    SlotsAddUp(slots, owed);
    OwedCounts(w, candidate, backlogged, ConnectionScheduler);
    OwedCounts(w, candidate, backlogged, RetransmissionScheduler);
    OwedCounts(w, candidate, backlogged, AckNackScheduler);
  }

  /** Exact shares: over any stretch of effective runs in which the same schedulers
      are backlogged, and as long as their weights add up to, each of them is served
      exactly its weight in runs, wherever the stretch begins. */
  lemma ExactShares(w: Weights, log: seq<Entry>, candidate: nat, backlogged: set<SchedulerType>,
                    from: nat, end: nat, x: SchedulerType)
    requires Chained(|Slots(w)|, log, candidate) && from <= end <= |log|
    requires SameReady(log, SlotsReady(Slots(w), backlogged), from, end)
    requires end - from == RoundLength(w, backlogged)
    ensures forall k :: 0 <= k < |log| ==> log[k].candidate < |Slots(w)|
    ensures TimesServed(Slots(w), ServedIn(|Slots(w)|, log, from, end), x) == Share(w, backlogged, x)
  {
    var slots := Slots(w);
    RunsHaveSlots(|slots|, log, candidate);
    if from < end {
      var start := log[from].candidate;
      var owed := Only(Round(|slots|, start), SlotsReady(slots, backlogged));
      OwedLength(w, start, backlogged);
      OwedCounts(w, start, backlogged, x);
      RoundInOrder(|slots|, log, candidate, SlotsReady(slots, backlogged), from, end, owed);
      assert owed[..end - from] == owed;
      WrapServes(slots, owed, x);
    } else {
      assert x.ConnectionScheduler? || x.RetransmissionScheduler? || x.AckNackScheduler?;
    }
  }

  /** Spacing, bounded wait and exact shares for the log of any reachable state. */
  lemma EveryRunIsSpaced(n: nat, tick: nat, ws: seq<World>, steps: seq<Step>, m: nat, i: nat, j: nat)
    requires IsRun(n, tick, ws, steps) && m < |ws| && i <= j < |ws[m].log|
    ensures ws[m].log[j].time - ws[m].log[i].time >= (j - i) * tick
  {
    EveryRunKeepsInv(n, tick, ws, steps, m);
    RunsAreTicksApart(ws[m].log, tick, i, j);
  }

  lemma EveryRunServesInTurn(slots: seq<SchedulerType>, tick: nat, ws: seq<World>, steps: seq<Step>, m: nat,
                             x: SchedulerType, from: nat, end: nat)
    returns (k: nat)
    requires IsRun(|slots|, tick, ws, steps) && m < |ws| && x in slots
    requires from <= end <= |ws[m].log| && end - from >= |slots|
    requires forall i :: from <= i < end ==> AbleAt(slots, ws[m].log[i].ready, x)
    ensures from <= k < end && ws[m].log[k].candidate < |slots|
    ensures Serves(slots, ws[m].log[k].candidate, ws[m].log[k].ready, x)
  {
    EveryRunKeepsInv(|slots|, tick, ws, steps, m);
    k := ServedWithinARound(slots, ws[m].log, ws[m].candidate, x, from, end);
  }

  lemma EveryRunSharesExactly(w: Weights, tick: nat, ws: seq<World>, steps: seq<Step>, m: nat,
                              backlogged: set<SchedulerType>, from: nat, end: nat, x: SchedulerType)
    requires IsRun(|Slots(w)|, tick, ws, steps) && m < |ws|
    requires from <= end <= |ws[m].log|
    requires SameReady(ws[m].log, SlotsReady(Slots(w), backlogged), from, end)
    requires end - from == RoundLength(w, backlogged)
    ensures forall k :: 0 <= k < |ws[m].log| ==> ws[m].log[k].candidate < |Slots(w)|
    ensures TimesServed(Slots(w), ServedIn(|Slots(w)|, ws[m].log, from, end), x) == Share(w, backlogged, x)
  {
    EveryRunKeepsInv(|Slots(w)|, tick, ws, steps, m);
    ExactShares(w, ws[m].log, ws[m].candidate, backlogged, from, end, x);
  }

  // ---------- The object ----------

  class ProtocolRoundRobinArbiter {
    const schedulerOrdering: seq<SchedulerType>
    const tickTime: nat
    var candidateSchedulerIndex: nat
    var scheduled: bool
    var lastRunTime: Option<int>
    var now: int
    ghost var pending: multiset<int>
    ghost var log: seq<Entry>

    ghost function View(): World
      reads this
    {
      World(candidateSchedulerIndex, scheduled, lastRunTime, now, pending, log)
    }

    /** The source refuses to start without any slot. */
    constructor (weights: Weights, tickTime: nat, now: int)
      requires 0 < weights.connection + weights.retransmission + weights.ackNack
      ensures schedulerOrdering == Slots(weights) && schedulerOrdering != []
      ensures this.tickTime == tickTime && View() == Initial(now)
    {
      var ordering := [];
      for i := 0 to |AllSchedulers|
        invariant ordering == SlotsUpTo(weights, i)
      {
        for j := 0 to Weight(weights, AllSchedulers[i])
          invariant ordering == SlotsUpTo(weights, i) + Repeat(AllSchedulers[i], j)
        {
          RepeatMore(AllSchedulers[i], j);
          ordering := ordering + [AllSchedulers[i]];
        }
      }
      SlotsAreAsManyAsWeights(weights);
      schedulerOrdering := ordering;
      candidateSchedulerIndex, scheduled, lastRunTime := 0, false, None;
      this.tickTime, this.now, pending, log := tickTime, now, multiset{}, [];
    }

    method ScheduleSchedulerArbiter(hasWork: bool)
      modifies this
      ensures View() == Schedule(tickTime, old(View()), hasWork)
    {
      if scheduled || !hasWork {
        return;
      }
      var nextRunTime := now;
      if lastRunTime != None && now < lastRunTime.value + tickTime {
        nextRunTime := lastRunTime.value + tickTime;
      }
      scheduled := true;
      pending := pending + multiset{nextRunTime};
    }

    /** An arbitration event that is due now. */
    method DoArbitration(hasWork: bool, ready: set<nat>, workAfter: bool)
      requires candidateSchedulerIndex < |schedulerOrdering| && now in pending
      modifies this
      ensures View() == Arbitrate(|schedulerOrdering|, tickTime, old(View()), hasWork, ready, workAfter)
    {
      hide Run;
      ghost var w := View();
      pending := pending - multiset{now};
      ghost var v := View();
      assert v == w.(pending := w.pending - multiset{w.now});
      if !hasWork {
        scheduled := false;
        assert View() == v.(scheduled := false);
        return;
      }
      RunSchedulers(ready);
      ghost var u := View();
      assert u == Run(|schedulerOrdering|, v, ready);
      if workAfter {
        pending := pending + multiset{now + tickTime};
        assert View() == u.(pending := u.pending + multiset{w.now + tickTime});
      } else {
        scheduled := false;
        assert View() == u.(scheduled := false);
      }
    }

    method RunSchedulers(ready: set<nat>)
      requires candidateSchedulerIndex < |schedulerOrdering|
      modifies this`lastRunTime, this`log, this`candidateSchedulerIndex
      ensures View() == Run(|schedulerOrdering|, old(View()), ready)
    {
      hide NextCandidate;
      lastRunTime := Some(now);
      log := log + [Entry(now, candidateSchedulerIndex, ready)];
      candidateSchedulerIndex := Scan(candidateSchedulerIndex, ready);
    }

    /** Tries the slots in turn, starting with the candidate. */
    method Scan(candidate: nat, ready: set<nat>) returns (next: nat)
      requires candidate < |schedulerOrdering|
      ensures next == NextCandidate(|schedulerOrdering|, candidate, ready)
    {
      var n := |schedulerOrdering|;
      var current := candidate;
      ghost var round := Round(n, candidate);
      ghost var d := 0;
      while true
        invariant d < n && current == Advance(candidate, d, n)
        invariant forall i :: 0 <= i < d ==> round[i] !in ready
        decreases n - d
      {
        TurnedAt(Indices(n), candidate, d);
        NextIndex(candidate, d, n);
        if current in ready {
          return (current + 1) % n;
        }
        current := (current + 1) % n;
        d := d + 1;
        if current == candidate {
          return current;
        }
      }
    }
  }

  lemma {:induction false} RepeatMore(x: SchedulerType, n: nat)
    ensures Repeat(x, n) + [x] == Repeat(x, n + 1)
  {
    if n > 0 { RepeatMore(x, n - 1); }
  }
}
