/**
 The target side of the reorder engine as a state machine: requests arrive from
 the network, are delivered to the upper layer protocol (ULP) in RSN order, and
 come back as ACKs or receiver-not-ready (RNR) NACKs. A NACK on an ordered
 connection rewinds delivery to the NACKed RSN and arms a retry timer.

 The state carries a ghost trace of everything that happened. The invariant
 `Inv` ties the engine's redundant state (expected RSN, retry times, timers) to
 functions of that trace alone, and `EveryRunKeepsInv` proves it for every run
 the environment can produce.
 */
module TargetOrder {

  datatype OrderingMode = Ordered | Unordered

  datatype RequestType = PullRequest | PushSolicitedData | PushUnsolicitedData

  /** `At(0)` is the initial "ready"; `Infinite` means in flight to the ULP. */
  datatype RetryTime = At(time: nat) | Infinite

  datatype Transaction = Transaction(packetType: RequestType, retryTime: RetryTime)

  datatype Status = Ok | FailedPrecondition

  datatype Event =
    | Arrived(rsn: nat)
    | Delivered(rsn: nat)
    | Nacked(rsn: nat, timeout: nat)
    | Acked(rsn: nat)

  /** Everything observed so far, latest event outermost. */
  datatype Trace = Empty | Then(past: Trace, event: Event)

  // ---------- What a trace says, without looking at the engine ----------

  /** Deliveries of `r` that the ULP has not answered. */
  ghost function Unanswered(t: Trace, r: nat): int {
    match t
    case Empty => 0
    case Then(past, e) =>
      Unanswered(past, r)
      + (if e.rsn != r then 0 else match e case Arrived(_) => 0 case Delivered(_) => 1 case _ => -1)
  }

  ghost function ArrivedSet(t: Trace): set<nat> {
    match t
    case Empty => {}
    case Then(past, e) => ArrivedSet(past) + if e.Arrived? then {e.rsn} else {}
  }

  ghost function AckCount(t: Trace): nat {
    match t
    case Empty => 0
    case Then(past, e) => AckCount(past) + if e.Acked? then 1 else 0
  }

  /** The RSN an ordered connection owes the ULP next: one past the last
      delivery, rewound to the smallest RSN NACKed since. */
  ghost function Expected(start: nat, t: Trace): nat {
    match t
    case Empty => start
    case Then(past, Delivered(r)) => r + 1
    case Then(past, Nacked(r, _)) => if r < Expected(start, past) then r else Expected(start, past)
    case Then(past, _) => Expected(start, past)
  }

  /** One past the largest RSN ever delivered. */
  ghost function HighWater(start: nat, t: Trace): nat {
    match t
    case Empty => start
    case Then(past, Delivered(r)) =>
      if r < HighWater(start, past) then HighWater(start, past) else r + 1
    case Then(past, _) => HighWater(start, past)
  }

  /** A smaller RSN was NACKed after the last delivery of `q`, so the ULP has to
      turn `q` down as well. */
  ghost predicate Overtaken(t: Trace, q: nat) {
    match t
    case Empty => false
    case Then(past, Delivered(r)) => r != q && Overtaken(past, q)
    case Then(past, Nacked(r, _)) => r < q || Overtaken(past, q)
    case Then(past, _) => Overtaken(past, q)
  }

  /** The latest answer of the ULP was an RNR NACK. */
  ghost predicate InRnr(t: Trace) {
    match t
    case Empty => false
    case Then(_, Nacked(_, _)) => true
    case Then(_, Acked(_)) => false
    case Then(past, _) => InRnr(past)
  }

  /** The timeout of the latest NACK. */
  ghost function LatestTimeout(t: Trace): nat {
    match t
    case Empty => 0
    case Then(_, Nacked(_, timeout)) => timeout
    case Then(past, _) => LatestTimeout(past)
  }

  /** No RSN is handed to the ULP while an earlier delivery of it is unanswered,
      or before it has arrived. */
  ghost predicate OneAtATime(t: Trace) {
    match t
    case Empty => true
    case Then(past, e) =>
      && OneAtATime(past)
      && (e.Delivered? ==> Unanswered(past, e.rsn) == 0 && e.rsn in ArrivedSet(past))
  }

  /** Every delivery is the expected RSN, and RSNs are delivered for the first
      time one after the other without a gap. */
  ghost predicate InOrder(start: nat, t: Trace) {
    match t
    case Empty => true
    case Then(past, e) =>
      && InOrder(start, past)
      && (e.Delivered? ==> e.rsn == Expected(start, past) && e.rsn <= HighWater(start, past))
  }

  // ---------- The engine ----------

  /** One connection's target state, the simulation clock, and the pending RNR
      timeout events as (time, rsn) pairs. */
  datatype World = World(
    mode: OrderingMode,
    nextRsn: nat,
    nextNetworkRsn: nat,
    inRnr: bool,
    rnrTimeout: nat,
    buffer: map<nat, Transaction>,
    now: nat,
    timers: multiset<(nat, nat)>,
    trace: Trace)

  function Initial(mode: OrderingMode, start: nat): World {
    World(mode, start, start, false, 0, map[], 0, multiset{}, Empty)
  }

  predicate InFlight(w: World, r: nat) {
    r in w.buffer && w.buffer[r].retryTime == Infinite
  }

  predicate Due(w: World, r: nat) {
    r in w.buffer && w.buffer[r].retryTime.At? && w.buffer[r].retryTime.time <= w.now
  }

  function Note(w: World, e: Event): World {
    w.(trace := Then(w.trace, e))
  }

  function SetRetry(w: World, r: nat, t: RetryTime): World
    requires r in w.buffer
  {
    w.(buffer := w.buffer[r := w.buffer[r].(retryTime := t)])
  }

  function Send(w: World, r: nat): World
    requires r in w.buffer
  {
    var sent := Note(SetRetry(w, r, Infinite), Delivered(r));
    if w.mode == Ordered then sent.(nextRsn := w.nextRsn + 1) else sent
  }

  function NotInFlight(w: World): set<nat> {
    set r | r in w.buffer && w.buffer[r].retryTime.At?
  }

  /** Delivers the run of due RSNs that begins at the expected one. */
  function SendRun(w: World): (v: World)
    ensures v.mode == w.mode
    decreases |NotInFlight(w)|
  {
    if Due(w, w.nextRsn) && w.mode == Ordered then
      assert |NotInFlight(Send(w, w.nextRsn))| < |NotInFlight(w)| by {
        assert NotInFlight(Send(w, w.nextRsn)) == NotInFlight(w) - {w.nextRsn};
      }
      SendRun(Send(w, w.nextRsn))
    else
      w
  }

  function Insert(w: World, r: nat, packetType: RequestType): (World, Status) {
    var v := Note(w.(buffer := w.buffer[r := Transaction(packetType, At(0))]), Arrived(r));
    if w.mode == Unordered then
      (Send(v, r), Ok)
    else if r == w.nextRsn then
      (SendRun(Send(v, r)), Ok)
    else if w.inRnr && packetType != PullRequest then
      (v, FailedPrecondition)
    else
      (v, Ok)
  }

  /** A duplicate of a buffered, RNR-NACKed packet. */
  function Retry(w: World, r: nat): (World, Status)
    requires r in w.buffer
  {
    if InFlight(w, r) then
      (w, Ok)
    else if w.mode == Unordered then
      (Send(w, r), Ok)
    else if r == w.nextRsn then
      (SendRun(SetRetry(w, r, At(w.now))), Ok)
    else if w.inRnr then
      (w, FailedPrecondition)
    else
      (w, Ok)
  }

  function Nack(w: World, r: nat, timeout: nat): World
    requires r in w.buffer
  {
    var ordered := w.mode == Ordered;
    w.(nextRsn := if ordered && r < w.nextRsn then r else w.nextRsn,
       inRnr := ordered || w.inRnr,
       rnrTimeout := if ordered then timeout else w.rnrTimeout,
       buffer := w.buffer[r := w.buffer[r].(retryTime := At(w.now + timeout))],
       timers := w.timers + multiset{(w.now + timeout, r)},
       trace := Then(w.trace, Nacked(r, timeout)))
  }

  function Ack(w: World, r: nat): World {
    var ordered := w.mode == Ordered;
    w.(nextNetworkRsn := if ordered then w.nextNetworkRsn + 1 else w.nextNetworkRsn,
       inRnr := !ordered && w.inRnr,
       buffer := w.buffer - {r},
       trace := Then(w.trace, Acked(r)))
  }

  /** The RNR timeout event for `r` that was due now. */
  function Timeout(w: World, r: nat): World {
    var v := w.(timers := w.timers - multiset{(w.now, r)});
    if r !in w.buffer || w.buffer[r].retryTime != At(w.now) then
      v
    else if w.mode == Unordered then
      Send(v, r)
    else if r != w.nextRsn then
      v
    else
      SendRun(v)
  }

  // ---------- Runs ----------

  datatype Step =
    | InsertStep(rsn: nat, packetType: RequestType)
    | RetryStep(rsn: nat)
    | NackStep(rsn: nat, timeout: nat)
    | AckStep(rsn: nat)
    | TimeoutStep(rsn: nat)
    | TickStep(until: nat)

  /** What the sliding window, the ULP and the event queue may do next. Except
      for the pending timers and the duplicate's target, it is read off the
      trace, not off the engine's own bookkeeping. */
  ghost predicate Enabled(start: nat, w: World, s: Step) {
    match s
    case InsertStep(r, _) => start <= r && r !in ArrivedSet(w.trace)
    case RetryStep(r) => r in w.buffer && w.buffer[r].packetType != PullRequest
    case NackStep(r, _) => 0 < Unanswered(w.trace, r)
    case AckStep(r) =>
      && 0 < Unanswered(w.trace, r)
      && (w.mode == Ordered ==> r == start + AckCount(w.trace) && !Overtaken(w.trace, r))
    case TimeoutStep(r) => (w.now, r) in w.timers
    case TickStep(until) => w.now <= until && forall e :: e in w.timers ==> until <= e.0
  }

  ghost function Do(w: World, s: Step): World
    requires s.RetryStep? || s.NackStep? ==> s.rsn in w.buffer
  {
    match s
    case InsertStep(r, packetType) => Insert(w, r, packetType).0
    case RetryStep(r) => Retry(w, r).0
    case NackStep(r, timeout) => Nack(w, r, timeout)
    case AckStep(r) => Ack(w, r)
    case TimeoutStep(r) => Timeout(w, r)
    case TickStep(until) => w.(now := until)
  }

  ghost predicate Next(start: nat, w: World, s: Step, v: World) {
    && Enabled(start, w, s)
    && (s.RetryStep? || s.NackStep? ==> s.rsn in w.buffer)
    && v == Do(w, s)
  }

  /** A run: the worlds `ws` are those between the steps. */
  ghost predicate IsRun(mode: OrderingMode, start: nat, ws: seq<World>, steps: seq<Step>) {
    && |ws| == |steps| + 1
    && ws[0] == Initial(mode, start)
    && forall i :: 0 <= i < |steps| ==> Next(start, ws[i], steps[i], ws[i + 1])
  }

  // ---------- The invariant ----------

  /** An RSN has one unanswered delivery exactly when its retry time is infinite. */
  ghost predicate FlightInv(w: World) {
    forall r: nat :: Unanswered(w.trace, r) == if InFlight(w, r) then 1 else 0
  }

  ghost predicate TimerInv(w: World) {
    && (forall e :: e in w.timers ==> w.now <= e.0)
    && (w.mode == Ordered ==>
          forall r :: r in w.buffer && w.buffer[r].retryTime.At? ==>
            w.buffer[r].retryTime.time <= w.now || (w.buffer[r].retryTime.time, r) in w.timers)
  }

  /** No lost wakeup: whatever could go to the ULP next is waiting for a timer
      that is still to fire, at exactly its retry time. */
  ghost predicate Wakeup(w: World, r: nat) {
    r in w.buffer && !InFlight(w, r) ==>
      w.now <= w.buffer[r].retryTime.time && (w.buffer[r].retryTime.time, r) in w.timers
  }

  ghost predicate OrderInv(start: nat, w: World) {
    && w.nextNetworkRsn == start + AckCount(w.trace)
    && w.nextRsn == Expected(start, w.trace)
    && w.nextNetworkRsn <= w.nextRsn <= HighWater(start, w.trace)
    && (forall r :: w.nextNetworkRsn <= r < HighWater(start, w.trace) ==> r in w.buffer)
    && (forall r :: w.nextNetworkRsn <= r < w.nextRsn ==> InFlight(w, r))
    && (forall r :: r in w.buffer ==> w.nextNetworkRsn <= r)
    && (forall r: nat :: InFlight(w, r) ==> r < HighWater(start, w.trace))
    && (forall r: nat :: InFlight(w, r) ==> (r < w.nextRsn <==> !Overtaken(w.trace, r)))
    && w.inRnr == InRnr(w.trace)
    && w.rnrTimeout == LatestTimeout(w.trace)
    && InOrder(start, w.trace)
  }

  ghost predicate BufferInv(start: nat, w: World) {
    && w.buffer.Keys <= ArrivedSet(w.trace)
    && (forall r :: r in ArrivedSet(w.trace) ==> start <= r)
    && (w.mode == Ordered ==>
          forall r :: r in ArrivedSet(w.trace) && w.nextNetworkRsn <= r ==> r in w.buffer)
    && (w.mode == Ordered ==>
          forall r :: start <= r < w.nextNetworkRsn ==> r in ArrivedSet(w.trace))
  }

  /** What holds at every moment inside a step. */
  ghost predicate Core(start: nat, w: World) {
    && FlightInv(w)
    && TimerInv(w)
    && BufferInv(start, w)
    && OneAtATime(w.trace)
    && (w.mode == Ordered ==> OrderInv(start, w))
  }

  /** What holds between steps. */
  ghost predicate Inv(start: nat, w: World) {
    && Core(start, w)
    && (w.mode == Ordered ==> Wakeup(w, w.nextRsn))
    && (w.mode == Unordered ==> forall r :: r in w.buffer ==> Wakeup(w, r))
  }

  // ---------- Each step keeps the invariant ----------

  lemma SendKeepsOrder(start: nat, w: World, r: nat, v: World)
    requires FlightInv(w) && OrderInv(start, w) && w.mode == Ordered
    requires r == w.nextRsn && r in w.buffer && !InFlight(w, r) && v == Send(w, r)
    requires forall q: nat :: InFlight(v, q) <==> InFlight(w, q) || q == r
    ensures OrderInv(start, v)
  {
    assert v.buffer.Keys == w.buffer.Keys;
    assert forall q: nat :: Overtaken(v.trace, q) <==> q != r && Overtaken(w.trace, q);
  }

  lemma SendKeepsCore(start: nat, w: World, r: nat)
    requires Core(start, w) && r in w.buffer && !InFlight(w, r)
    requires w.mode == Ordered ==> r == w.nextRsn
    ensures Core(start, Send(w, r))
    ensures forall q :: q in w.buffer && q != r ==> q in Send(w, r).buffer && Send(w, r).buffer[q] == w.buffer[q]
  {
    var v := Send(w, r);
    assert v.buffer.Keys == w.buffer.Keys;
    assert forall q: nat :: InFlight(v, q) <==> InFlight(w, q) || q == r;
    if w.mode == Ordered {
      SendKeepsOrder(start, w, r, v);
    }
    assert FlightInv(v) by {
      assert forall q: nat :: Unanswered(v.trace, q) == Unanswered(w.trace, q) + if q == r then 1 else 0;
    }
    assert TimerInv(v) && OneAtATime(v.trace);
    assert ArrivedSet(v.trace) == ArrivedSet(w.trace);
  }

  lemma {:induction false} SendRunKeepsCore(start: nat, w: World)
    requires Core(start, w) && w.mode == Ordered
    ensures Core(start, SendRun(w))
    ensures Wakeup(SendRun(w), SendRun(w).nextRsn)
    decreases |NotInFlight(w)|
  {
    if Due(w, w.nextRsn) {
      var v := Send(w, w.nextRsn);
      SendKeepsCore(start, w, w.nextRsn);
      assert NotInFlight(v) == NotInFlight(w) - {w.nextRsn};
      SendRunKeepsCore(start, v);
    }
  }

  lemma ArrivalKeepsOrder(start: nat, w: World, r: nat, v: World)
    requires OrderInv(start, w) && w.mode == Ordered && !InFlight(w, r) && start <= r
    requires r !in w.buffer && w.nextNetworkRsn <= r
    requires v.buffer.Keys == w.buffer.Keys + {r} && forall q: nat :: InFlight(v, q) <==> InFlight(w, q)
    requires v == w.(buffer := v.buffer, trace := Then(w.trace, Arrived(r)))
    ensures OrderInv(start, v)
  {
    assert forall q: nat :: Overtaken(v.trace, q) == Overtaken(w.trace, q);
  }

  lemma ArrivalKeepsBuffer(start: nat, w: World, r: nat, v: World)
    requires BufferInv(start, w) && start <= r && r !in ArrivedSet(w.trace)
    requires v.buffer.Keys == w.buffer.Keys + {r}
    requires v == w.(buffer := v.buffer, trace := Then(w.trace, Arrived(r)))
    ensures BufferInv(start, v)
  {
    assert ArrivedSet(v.trace) == ArrivedSet(w.trace) + {r};
  }

  lemma ArrivalKeepsCore(start: nat, w: World, r: nat, packetType: RequestType, v: World)
    requires Core(start, w) && Enabled(start, w, InsertStep(r, packetType))
    requires v == Note(w.(buffer := w.buffer[r := Transaction(packetType, At(0))]), Arrived(r))
    ensures Core(start, v) && r !in w.buffer && !InFlight(v, r)
    ensures forall q :: q in w.buffer ==> q in v.buffer && v.buffer[q] == w.buffer[q]
  {
    hide OrderInv;
    assert r !in w.buffer;
    assert v.buffer.Keys == w.buffer.Keys + {r};
    assert forall q: nat :: InFlight(v, q) <==> InFlight(w, q);
    assert forall q: nat :: Unanswered(v.trace, q) == Unanswered(w.trace, q);
    assert FlightInv(v);
    assert TimerInv(v);
    ArrivalKeepsBuffer(start, w, r, v);
    if w.mode == Ordered {
      assert w.nextNetworkRsn <= r;
      ArrivalKeepsOrder(start, w, r, v);
    }
  }

  lemma InsertKeepsInv(start: nat, w: World, r: nat, packetType: RequestType)
    requires Inv(start, w) && Enabled(start, w, InsertStep(r, packetType))
    ensures Inv(start, Insert(w, r, packetType).0)
  {
    hide FlightInv, TimerInv, OrderInv, BufferInv, OneAtATime;
    var v := Note(w.(buffer := w.buffer[r := Transaction(packetType, At(0))]), Arrived(r));
    ArrivalKeepsCore(start, w, r, packetType, v);
    if w.mode == Unordered {
      SendKeepsCore(start, v, r);
      assert forall q :: q in w.buffer ==> Wakeup(Send(v, r), q);
    } else if r == w.nextRsn {
      SendKeepsCore(start, v, r);
      SendRunKeepsCore(start, Send(v, r));
    }
  }

  lemma RetryKeepsInv(start: nat, w: World, r: nat)
    requires Inv(start, w) && r in w.buffer
    ensures Inv(start, Retry(w, r).0)
  {
    if !InFlight(w, r) {
      if w.mode == Unordered {
        SendKeepsCore(start, w, r);
      } else if r == w.nextRsn {
        var v := SetRetry(w, r, At(w.now));
        assert v.buffer.Keys == w.buffer.Keys;
        assert forall q: nat :: InFlight(v, q) <==> InFlight(w, q);
        SendRunKeepsCore(start, v);
      }
    }
  }

  /** What an answer of the ULP does to the in-flight set and its counts. */
  ghost predicate Answered(w: World, v: World, r: nat) {
    && InFlight(w, r)
    && (forall q: nat :: InFlight(v, q) <==> InFlight(w, q) && q != r)
    && (forall q: nat :: Unanswered(v.trace, q) == Unanswered(w.trace, q) - if q == r then 1 else 0)
  }

  lemma AnswerKeepsFlight(w: World, v: World, r: nat)
    requires FlightInv(w) && Answered(w, v, r)
    ensures FlightInv(v)
  {
  }

  lemma NackAnswers(w: World, r: nat, timeout: nat)
    requires InFlight(w, r)
    ensures Answered(w, Nack(w, r, timeout), r)
    ensures Nack(w, r, timeout).buffer.Keys == w.buffer.Keys
  {
  }

  lemma NackKeepsOrder(start: nat, w: World, r: nat, timeout: nat, v: World)
    requires FlightInv(w) && OrderInv(start, w) && w.mode == Ordered && InFlight(w, r)
    requires v == Nack(w, r, timeout) && Answered(w, v, r)
    ensures OrderInv(start, v)
  {
    assert v.buffer.Keys == w.buffer.Keys;
    assert forall q: nat :: Overtaken(v.trace, q) <==> r < q || Overtaken(w.trace, q);
  }

  lemma NackKeepsTimers(w: World, r: nat, timeout: nat, v: World)
    requires TimerInv(w) && InFlight(w, r) && v == Nack(w, r, timeout)
    ensures TimerInv(v) && Wakeup(v, r)
    ensures forall q :: q != r && Wakeup(w, q) ==> Wakeup(v, q)
  {
    assert v.buffer.Keys == w.buffer.Keys;
    assert (w.now + timeout, r) in v.timers;
    assert forall e :: e in w.timers ==> e in v.timers;
  }

  lemma NackKeepsBuffer(start: nat, w: World, r: nat, timeout: nat, v: World)
    requires BufferInv(start, w) && r in w.buffer && v == Nack(w, r, timeout)
    ensures BufferInv(start, v)
  {
    assert v.buffer.Keys == w.buffer.Keys;
    assert ArrivedSet(v.trace) == ArrivedSet(w.trace);
  }

  lemma NackKeepsInv(start: nat, w: World, r: nat, timeout: nat)
    requires Inv(start, w) && Enabled(start, w, NackStep(r, timeout))
    ensures r in w.buffer && Inv(start, Nack(w, r, timeout))
  {
    assert InFlight(w, r);
    var v := Nack(w, r, timeout);
    NackAnswers(w, r, timeout);
    NackKeepsTimers(w, r, timeout, v);
    AnswerKeepsFlight(w, v, r);
    NackKeepsBuffer(start, w, r, timeout, v);
    if w.mode == Ordered {
      NackKeepsOrder(start, w, r, timeout, v);
      assert Wakeup(v, v.nextRsn);
    } else {
      assert forall q :: q in v.buffer ==> Wakeup(v, q);
    }
  }

  lemma AckKeepsOrder(start: nat, w: World, r: nat, v: World)
    requires FlightInv(w) && OrderInv(start, w) && w.mode == Ordered && Enabled(start, w, AckStep(r))
    requires v == Ack(w, r) && Answered(w, v, r)
    ensures OrderInv(start, v)
  {
    assert v.buffer.Keys == w.buffer.Keys - {r};
    assert forall q: nat :: Overtaken(v.trace, q) <==> Overtaken(w.trace, q);
  }

  lemma AckKeepsInv(start: nat, w: World, r: nat)
    requires Inv(start, w) && Enabled(start, w, AckStep(r))
    ensures Inv(start, Ack(w, r))
  {
    assert InFlight(w, r);
    var v := Ack(w, r);
    assert v.buffer.Keys == w.buffer.Keys - {r};
    assert Answered(w, v, r);
    AnswerKeepsFlight(w, v, r);
    if w.mode == Ordered {
      AckKeepsOrder(start, w, r, v);
    }
    assert ArrivedSet(v.trace) == ArrivedSet(w.trace);
  }

  /** Taking the fired event out of the queue harms no one but its own RSN. */
  lemma FiringKeepsCore(start: nat, w: World, r: nat, v: World)
    requires Core(start, w) && (w.now, r) in w.timers
    requires v == w.(timers := w.timers - multiset{(w.now, r)})
    ensures Core(start, v)
    ensures forall q :: Wakeup(w, q) && !(q == r && q in w.buffer && w.buffer[q].retryTime == At(w.now)) ==> Wakeup(v, q)
  {
    assert forall q: nat :: InFlight(v, q) <==> InFlight(w, q);
    assert forall e :: e in v.timers ==> e in w.timers;
    assert forall e :: e in w.timers && e != (w.now, r) ==> e in v.timers;
    assert FlightInv(v);
    assert TimerInv(v);
  }

  lemma TimeoutKeepsInv(start: nat, w: World, r: nat)
    requires Inv(start, w) && Enabled(start, w, TimeoutStep(r))
    ensures Inv(start, Timeout(w, r))
  {
    var v := w.(timers := w.timers - multiset{(w.now, r)});
    FiringKeepsCore(start, w, r, v);
    if r in w.buffer && w.buffer[r].retryTime == At(w.now) {
      if w.mode == Unordered {
        SendKeepsCore(start, v, r);
      } else if r == w.nextRsn {
        SendRunKeepsCore(start, v);
      }
    }
  }

  lemma TickKeepsInv(start: nat, w: World, until: nat)
    requires Inv(start, w) && Enabled(start, w, TickStep(until))
    ensures Inv(start, w.(now := until))
  {
    var v := w.(now := until);
    assert forall q: nat :: InFlight(v, q) <==> InFlight(w, q);
    assert forall q :: Wakeup(w, q) ==> Wakeup(v, q);
    assert FlightInv(v) && TimerInv(v);
  }

  lemma StepKeepsInv(start: nat, w: World, s: Step, v: World)
    requires Inv(start, w) && Next(start, w, s, v)
    ensures Inv(start, v) && v.mode == w.mode
  {
    match s
    case InsertStep(r, packetType) => InsertKeepsInv(start, w, r, packetType);
    case RetryStep(r) => RetryKeepsInv(start, w, r);
    case NackStep(r, timeout) => NackKeepsInv(start, w, r, timeout);
    case AckStep(r) => AckKeepsInv(start, w, r);
    case TimeoutStep(r) => TimeoutKeepsInv(start, w, r);
    case TickStep(until) => TickKeepsInv(start, w, until);
  }

  lemma {:induction false} EveryRunKeepsInv(mode: OrderingMode, start: nat, ws: seq<World>, steps: seq<Step>, i: nat)
    requires IsRun(mode, start, ws, steps) && i < |ws|
    ensures Inv(start, ws[i]) && ws[i].mode == mode
  {
    if i > 0 {
      EveryRunKeepsInv(mode, start, ws, steps, i - 1);
      StepKeepsInv(start, ws[i - 1], steps[i - 1], ws[i]);
    }
  }

  // ---------- What every run guarantees ----------

  /** Ordered connections, with any number of rewinds: each delivery is the
      expected RSN, first deliveries are consecutive, and the buffered RSNs below
      the expected one are exactly the window from the oldest un-ACKed RSN, all
      of them in flight. */
  lemma OrderedRunsDeliverInOrder(start: nat, ws: seq<World>, steps: seq<Step>, i: nat)
    requires IsRun(Ordered, start, ws, steps) && i < |ws|
    ensures InOrder(start, ws[i].trace)
    ensures ws[i].nextRsn == Expected(start, ws[i].trace)
    ensures ws[i].nextNetworkRsn == start + AckCount(ws[i].trace)
    ensures forall r: nat :: r in ws[i].buffer && r < ws[i].nextRsn <==> ws[i].nextNetworkRsn <= r < ws[i].nextRsn
    ensures forall r: nat :: ws[i].nextNetworkRsn <= r < ws[i].nextRsn ==> InFlight(ws[i], r)
    ensures ws[i].inRnr == InRnr(ws[i].trace) && ws[i].rnrTimeout == LatestTimeout(ws[i].trace)
  {
    EveryRunKeepsInv(Ordered, start, ws, steps, i);
  }

  /** Both modes: an RSN has at most one unanswered delivery, and it has one
      exactly when its retry time is infinite. */
  lemma DeliveriesAreAnsweredOneAtATime(mode: OrderingMode, start: nat, ws: seq<World>, steps: seq<Step>, i: nat, r: nat)
    requires IsRun(mode, start, ws, steps) && i < |ws|
    ensures OneAtATime(ws[i].trace)
    ensures 0 <= Unanswered(ws[i].trace, r) <= 1
    ensures Unanswered(ws[i].trace, r) == 1 <==> r in ws[i].buffer && ws[i].buffer[r].retryTime == Infinite
  {
    EveryRunKeepsInv(mode, start, ws, steps, i);
  }

  /** No lost wakeup: the RSN an ordered connection waits for, and every RSN of
      an unordered one, is in flight or has a timeout event pending at exactly
      its retry time, which is not in the past. */
  lemma NoLostWakeup(mode: OrderingMode, start: nat, ws: seq<World>, steps: seq<Step>, i: nat, r: nat)
    requires IsRun(mode, start, ws, steps) && i < |ws|
    requires r in ws[i].buffer && (mode == Ordered ==> r == ws[i].nextRsn)
    ensures || Unanswered(ws[i].trace, r) == 1
            || exists t :: ws[i].buffer[r].retryTime == At(t) && ws[i].now <= t && (t, r) in ws[i].timers
  {
    EveryRunKeepsInv(mode, start, ws, steps, i);
    if !InFlight(ws[i], r) {
      assert Wakeup(ws[i], r);
      assert ws[i].buffer[r].retryTime == At(ws[i].buffer[r].retryTime.time);
    }
  }

  ghost function DeliveryCount(t: Trace, r: nat): nat {
    match t
    case Empty => 0
    case Then(past, e) => DeliveryCount(past, r) + if e == Delivered(r) then 1 else 0
  }

  /** `r` still waits for the retry time `t`, and nothing stands before it. */
  ghost predicate Waiting(w: World, r: nat, t: nat) {
    && r in w.buffer && w.buffer[r].retryTime == At(t)
    && (w.mode == Ordered ==> w.nextRsn == r)
  }

  /** Deliveries of `r` only add up, and a wait of `r` ends with one. */
  ghost predicate Progress(w: World, v: World, r: nat, t: nat) {
    && DeliveryCount(w.trace, r) <= DeliveryCount(v.trace, r)
    && (Waiting(w, r, t) ==> DeliveryCount(w.trace, r) < DeliveryCount(v.trace, r) || Waiting(v, r, t))
  }

  lemma {:induction false} SendRunOnlyDelivers(w: World, r: nat)
    ensures DeliveryCount(w.trace, r) <= DeliveryCount(SendRun(w).trace, r)
    decreases |NotInFlight(w)|
  {
    if Due(w, w.nextRsn) && w.mode == Ordered {
      assert NotInFlight(Send(w, w.nextRsn)) == NotInFlight(w) - {w.nextRsn};
      SendRunOnlyDelivers(Send(w, w.nextRsn), r);
    }
  }

  lemma SendRunMakesProgress(w: World, r: nat, t: nat)
    requires w.mode == Ordered
    ensures Progress(w, SendRun(w), r, t)
    ensures Due(w, r) && w.nextRsn == r ==> DeliveryCount(w.trace, r) < DeliveryCount(SendRun(w).trace, r)
  {
    if Due(w, w.nextRsn) {
      SendRunOnlyDelivers(Send(w, w.nextRsn), r);
    }
  }

  lemma InsertMakesProgress(w: World, q: nat, packetType: RequestType, r: nat, t: nat)
    requires q !in w.buffer
    ensures Progress(w, Insert(w, q, packetType).0, r, t)
  {
    var u := Note(w.(buffer := w.buffer[q := Transaction(packetType, At(0))]), Arrived(q));
    if w.mode == Ordered && q == w.nextRsn {
      SendRunOnlyDelivers(Send(u, q), r);
    }
  }

  lemma RetryMakesProgress(w: World, q: nat, r: nat, t: nat)
    requires q in w.buffer
    ensures Progress(w, Retry(w, q).0, r, t)
  {
    if w.mode == Ordered && q == w.nextRsn {
      SendRunMakesProgress(SetRetry(w, q, At(w.now)), r, w.now);
    }
  }

  lemma TimeoutMakesProgress(w: World, q: nat, r: nat, t: nat)
    ensures Progress(w, Timeout(w, q), r, t)
  {
    if w.mode == Ordered {
      SendRunMakesProgress(w.(timers := w.timers - multiset{(w.now, q)}), r, t);
    }
  }

  lemma StepMakesProgress(start: nat, w: World, s: Step, v: World, r: nat, t: nat)
    requires FlightInv(w) && BufferInv(start, w) && Next(start, w, s, v)
    requires w.mode == Ordered && s.NackStep? ==> r <= s.rsn
    ensures Progress(w, v, r, t)
  {
    match s
    case InsertStep(q, packetType) => InsertMakesProgress(w, q, packetType, r, t);
    case RetryStep(q) => RetryMakesProgress(w, q, r, t);
    case NackStep(q, _) => assert InFlight(w, q);
    case AckStep(q) => assert InFlight(w, q);
    case TimeoutStep(q) => TimeoutMakesProgress(w, q, r, t);
    case TickStep(_) =>
  }

  lemma RunMakesProgress(mode: OrderingMode, start: nat, ws: seq<World>, steps: seq<Step>, i: nat, r: nat, t: nat)
    requires IsRun(mode, start, ws, steps) && i < |steps|
    requires mode == Ordered && steps[i].NackStep? ==> r <= steps[i].rsn
    ensures Progress(ws[i], ws[i + 1], r, t)
  {
    EveryRunKeepsInv(mode, start, ws, steps, i);
    StepMakesProgress(start, ws[i], steps[i], ws[i + 1], r, t);
  }

  lemma WaitingIsOnTime(start: nat, w: World, r: nat, t: nat)
    requires Inv(start, w) && Waiting(w, r, t)
    ensures w.now <= t
  {
    assert Wakeup(w, r);
  }

  /** Retries are on time: an RSN that waits for retry time `t` has been
      delivered again before the clock passes `t`, whatever stale timers and
      duplicates do meanwhile, unless an ordered connection is rewound further. */
  lemma {:induction false} RetriesAreOnTime(mode: OrderingMode, start: nat, ws: seq<World>, steps: seq<Step>,
                                            i: nat, j: nat, r: nat, t: nat)
    requires IsRun(mode, start, ws, steps) && i <= j < |ws|
    requires Waiting(ws[i], r, t)
    requires mode == Ordered ==> forall k :: i <= k < j && steps[k].NackStep? ==> r <= steps[k].rsn
    ensures DeliveryCount(ws[i].trace, r) <= DeliveryCount(ws[j].trace, r)
    ensures DeliveryCount(ws[i].trace, r) < DeliveryCount(ws[j].trace, r) || (Waiting(ws[j], r, t) && ws[j].now <= t)
  {
    hide Inv, Next;
    if i < j {
      RetriesAreOnTime(mode, start, ws, steps, i, j - 1, r, t);
      RunMakesProgress(mode, start, ws, steps, j - 1, r, t);
    }
    if Waiting(ws[j], r, t) {
      assert ws[j].now <= t by {
        EveryRunKeepsInv(mode, start, ws, steps, j);
        WaitingIsOnTime(start, ws[j], r, t);
      }
    }
  }

  // ---------- RNR retry times, over runs ----------

  /** A NACK puts its RSN off by exactly its timeout, in both modes, and schedules
      the event for that moment. */
  lemma NackSetsRetryTime(mode: OrderingMode, start: nat, ws: seq<World>, steps: seq<Step>, i: nat, r: nat, timeout: nat)
    requires IsRun(mode, start, ws, steps) && i < |steps| && steps[i] == NackStep(r, timeout)
    ensures SitsOut(ws[i + 1], r, ws[i].now + timeout, DeliveryCount(ws[i].trace, r))
    ensures (ws[i].now + timeout, r) in ws[i + 1].timers && ws[i + 1].now == ws[i].now
  {
  }

  /** `r` has its next delivery at time `t` and has been delivered `n` times. */
  ghost predicate SitsOut(w: World, r: nat, t: nat, n: nat) {
    r in w.buffer && w.buffer[r].retryTime == At(t) && DeliveryCount(w.trace, r) == n
  }

  lemma {:induction false} SendRunSparesTheEarly(w: World, r: nat, t: nat, n: nat)
    requires SitsOut(w, r, t, n) && w.now < t
    ensures SitsOut(SendRun(w), r, t, n)
    decreases |NotInFlight(w)|
  {
    if Due(w, w.nextRsn) && w.mode == Ordered {
      assert NotInFlight(Send(w, w.nextRsn)) == NotInFlight(w) - {w.nextRsn};
      SendRunSparesTheEarly(Send(w, w.nextRsn), r, t, n);
    }
  }

  lemma InsertSparesTheEarly(w: World, q: nat, packetType: RequestType, r: nat, t: nat, n: nat)
    requires SitsOut(w, r, t, n) && w.now < t && q !in w.buffer
    ensures SitsOut(Insert(w, q, packetType).0, r, t, n)
  {
    var u := Note(w.(buffer := w.buffer[q := Transaction(packetType, At(0))]), Arrived(q));
    assert SitsOut(u, r, t, n);
    assert SitsOut(Send(u, q), r, t, n);
    hide SitsOut;
    SendRunSparesTheEarly(Send(u, q), r, t, n);
  }

  lemma RetrySparesTheEarly(w: World, q: nat, r: nat, t: nat, n: nat)
    requires SitsOut(w, r, t, n) && w.now < t && q in w.buffer && q != r
    ensures SitsOut(Retry(w, q).0, r, t, n)
  {
    var u := SetRetry(w, q, At(w.now));
    assert SitsOut(u, r, t, n);
    assert SitsOut(Send(w, q), r, t, n);
    hide SitsOut;
    SendRunSparesTheEarly(u, r, t, n);
  }

  lemma TimeoutSparesTheEarly(w: World, q: nat, r: nat, t: nat, n: nat)
    requires SitsOut(w, r, t, n) && w.now < t
    ensures SitsOut(Timeout(w, q), r, t, n)
  {
    var u := w.(timers := w.timers - multiset{(w.now, q)});
    assert SitsOut(u, r, t, n);
    SendRunSparesTheEarly(u, r, t, n);
  }

  lemma StepSparesTheEarly(start: nat, w: World, s: Step, v: World, r: nat, t: nat, n: nat)
    requires FlightInv(w) && BufferInv(start, w) && Next(start, w, s, v)
    requires SitsOut(w, r, t, n) && w.now < t && s != RetryStep(r)
    ensures SitsOut(v, r, t, n)
  {
    hide SendRun, Insert, Retry, Timeout;
    match s
    case InsertStep(q, packetType) => InsertSparesTheEarly(w, q, packetType, r, t, n);
    case RetryStep(q) => RetrySparesTheEarly(w, q, r, t, n);
    case NackStep(q, _) => assert InFlight(w, q);
    case AckStep(q) => assert InFlight(w, q);
    case TimeoutStep(q) => TimeoutSparesTheEarly(w, q, r, t, n);
    case TickStep(_) =>
  }

  lemma {:induction false} ClockNeverRunsBack(mode: OrderingMode, start: nat, ws: seq<World>, steps: seq<Step>,
                                              i: nat, j: nat)
    requires IsRun(mode, start, ws, steps) && i <= j < |ws|
    ensures ws[i].now <= ws[j].now
  {
    if i < j {
      ClockNeverRunsBack(mode, start, ws, steps, i, j - 1);
      StepMovesClock(start, ws[j - 1], steps[j - 1], ws[j]);
    }
  }

  lemma {:induction false} SendRunKeepsClock(w: World)
    ensures SendRun(w).now == w.now
    decreases |NotInFlight(w)|
  {
    if Due(w, w.nextRsn) && w.mode == Ordered {
      assert NotInFlight(Send(w, w.nextRsn)) == NotInFlight(w) - {w.nextRsn};
      SendRunKeepsClock(Send(w, w.nextRsn));
    }
  }

  lemma StepMovesClock(start: nat, w: World, s: Step, v: World)
    requires Next(start, w, s, v)
    ensures if s.TickStep? then w.now <= v.now == s.until else v.now == w.now
  {
    match s
    case InsertStep(r, packetType) =>
      SendRunKeepsClock(Send(Note(w.(buffer := w.buffer[r := Transaction(packetType, At(0))]), Arrived(r)), r));
    case RetryStep(r) => SendRunKeepsClock(SetRetry(w, r, At(w.now)));
    case TimeoutStep(r) => SendRunKeepsClock(w.(timers := w.timers - multiset{(w.now, r)}));
    case _ =>
  }

  /** Both modes: a NACKed RSN is not delivered again while the clock is below its
      NACK's time plus timeout, unless a duplicate asks for it. */
  lemma {:induction false} NackedRsnSitsOutItsTimeout(mode: OrderingMode, start: nat, ws: seq<World>, steps: seq<Step>,
                                                      i: nat, j: nat, r: nat, timeout: nat)
    requires IsRun(mode, start, ws, steps) && i < j < |ws| && steps[i] == NackStep(r, timeout)
    requires ws[j].now < ws[i].now + timeout
    requires forall k :: i < k < j ==> steps[k] != RetryStep(r)
    ensures SitsOut(ws[j], r, ws[i].now + timeout, DeliveryCount(ws[i].trace, r))
  {
    hide Next, SitsOut, Inv;
    if j == i + 1 {
      NackSetsRetryTime(mode, start, ws, steps, i, r, timeout);
    } else {
      ClockNeverRunsBack(mode, start, ws, steps, j - 1, j);
      NackedRsnSitsOutItsTimeout(mode, start, ws, steps, i, j - 1, r, timeout);
      assert FlightInv(ws[j - 1]) && BufferInv(start, ws[j - 1]) by {
        EveryRunKeepsInv(mode, start, ws, steps, j - 1);
        InvHasCore(start, ws[j - 1]);
      }
      StepSparesTheEarly(start, ws[j - 1], steps[j - 1], ws[j], r, ws[i].now + timeout, DeliveryCount(ws[i].trace, r));
    }
  }

  lemma InvHasCore(start: nat, w: World)
    requires Inv(start, w)
    ensures FlightInv(w) && BufferInv(start, w)
  {
  }

  /** And it has been delivered by the time the clock is past that moment, on an
      unordered connection always, on an ordered one while it stays the RSN the
      connection waits for. */
  lemma NackedRsnComesBack(mode: OrderingMode, start: nat, ws: seq<World>, steps: seq<Step>,
                           i: nat, j: nat, r: nat, timeout: nat)
    requires IsRun(mode, start, ws, steps) && i < j < |ws| && steps[i] == NackStep(r, timeout)
    requires ws[i].now + timeout < ws[j].now
    requires mode == Ordered ==> r <= ws[i].nextRsn
    requires mode == Ordered ==> forall k :: i < k < j && steps[k].NackStep? ==> r <= steps[k].rsn
    ensures DeliveryCount(ws[i].trace, r) < DeliveryCount(ws[j].trace, r)
  {
    EveryRunKeepsInv(mode, start, ws, steps, i);
    NackSetsRetryTime(mode, start, ws, steps, i, r, timeout);
    RetriesAreOnTime(mode, start, ws, steps, i + 1, j, r, ws[i].now + timeout);
  }

  // ---------- What a packet is answered with ----------

  /** Read off the trace: a new request is turned down exactly when it is push data
      that is not expected on an ordered connection in RNR. */
  lemma InsertIsRefusedIff(start: nat, w: World, r: nat, packetType: RequestType)
    requires Inv(start, w) && r !in w.buffer
    ensures Insert(w, r, packetType).1 == FailedPrecondition <==>
              && w.mode == Ordered && InRnr(w.trace) && r != Expected(start, w.trace)
              && (packetType == PushSolicitedData || packetType == PushUnsolicitedData)
  {
  }

  /** A duplicate is turned down exactly when it is neither in flight nor expected
      on an ordered connection in RNR, whatever its type. */
  lemma RetryIsRefusedIff(start: nat, w: World, r: nat)
    requires Inv(start, w) && r in w.buffer
    ensures Retry(w, r).1 == FailedPrecondition <==>
              && w.mode == Ordered && InRnr(w.trace) && r != Expected(start, w.trace)
              && Unanswered(w.trace, r) == 0
  {
    assert Unanswered(w.trace, r) == if InFlight(w, r) then 1 else 0;
  }

  /** A new request goes to the ULP at once exactly when it is expected; on an
      unordered connection all are. */
  lemma InsertDeliversIff(start: nat, w: World, r: nat, packetType: RequestType)
    requires Inv(start, w) && Enabled(start, w, InsertStep(r, packetType))
    ensures var v := Insert(w, r, packetType).0;
            if w.mode == Unordered || r == Expected(start, w.trace)
            then DeliveryCount(w.trace, r) < DeliveryCount(v.trace, r)
            else v.trace == Then(w.trace, Arrived(r))
  {
    var u := Note(w.(buffer := w.buffer[r := Transaction(packetType, At(0))]), Arrived(r));
    if w.mode == Ordered && r == w.nextRsn {
      SendRunOnlyDelivers(Send(u, r), r);
    }
  }

  /** A duplicate goes to the ULP again exactly when it is not there already and is
      expected, and otherwise changes nothing. */
  lemma RetryDeliversIff(start: nat, w: World, r: nat)
    requires Inv(start, w) && r in w.buffer
    ensures var v := Retry(w, r).0;
            if Unanswered(w.trace, r) == 0 && (w.mode == Unordered || r == Expected(start, w.trace))
            then DeliveryCount(w.trace, r) < DeliveryCount(v.trace, r)
            else v == w
  {
    assert Unanswered(w.trace, r) == if InFlight(w, r) then 1 else 0;
    if w.mode == Ordered && r == w.nextRsn && !InFlight(w, r) {
      SendRunMakesProgress(SetRetry(w, r, At(w.now)), r, w.now);
    }
  }

  /** `r` has arrived, and is known as a packet of this type while it is kept. */
  ghost predicate KnownAs(w: World, r: nat, packetType: RequestType) {
    r in ArrivedSet(w.trace) && (r in w.buffer ==> w.buffer[r].packetType == packetType)
  }

  lemma {:induction false} SendRunKeepsType(w: World, r: nat, packetType: RequestType)
    requires KnownAs(w, r, packetType)
    ensures KnownAs(SendRun(w), r, packetType)
    decreases |NotInFlight(w)|
  {
    if Due(w, w.nextRsn) && w.mode == Ordered {
      assert NotInFlight(Send(w, w.nextRsn)) == NotInFlight(w) - {w.nextRsn};
      SendRunKeepsType(Send(w, w.nextRsn), r, packetType);
    }
  }

  lemma InsertKeepsType(w: World, q: nat, p: RequestType, r: nat, packetType: RequestType)
    requires if q == r then p == packetType else KnownAs(w, r, packetType)
    ensures KnownAs(Insert(w, q, p).0, r, packetType)
  {
    var u := Note(w.(buffer := w.buffer[q := Transaction(p, At(0))]), Arrived(q));
    assert KnownAs(u, r, packetType);
    assert KnownAs(Send(u, q), r, packetType);
    SendRunKeepsType(Send(u, q), r, packetType);
  }

  lemma StepKeepsType(start: nat, w: World, s: Step, v: World, r: nat, packetType: RequestType)
    requires Next(start, w, s, v)
    requires s == InsertStep(r, packetType) || KnownAs(w, r, packetType)
    ensures KnownAs(v, r, packetType)
  {
    hide SendRun, Insert;
    match s
    case InsertStep(q, p) => InsertKeepsType(w, q, p, r, packetType);
    case RetryStep(q) => SendRunKeepsType(SetRetry(w, q, At(w.now)), r, packetType);
    case TimeoutStep(q) => SendRunKeepsType(w.(timers := w.timers - multiset{(w.now, q)}), r, packetType);
    case _ =>
  }

  /** While a request is kept for a retry it keeps the type it arrived with. */
  lemma {:induction false} TypesAreKept(mode: OrderingMode, start: nat, ws: seq<World>, steps: seq<Step>,
                                        i: nat, j: nat, r: nat, packetType: RequestType)
    requires IsRun(mode, start, ws, steps) && i < j < |ws| && steps[i] == InsertStep(r, packetType)
    ensures KnownAs(ws[j], r, packetType)
  {
    hide Next, KnownAs;
    if i + 1 < j {
      TypesAreKept(mode, start, ws, steps, i, j - 1, r, packetType);
    }
    assert Next(start, ws[j - 1], steps[j - 1], ws[j - 1 + 1]);
    StepKeepsType(start, ws[j - 1], steps[j - 1], ws[j], r, packetType);
  }

  /** An unordered connection never leaves its initial RSNs nor enters RNR. */
  lemma {:induction false} UnorderedRunsKeepCounters(start: nat, ws: seq<World>, steps: seq<Step>, i: nat)
    requires IsRun(Unordered, start, ws, steps) && i < |ws|
    ensures ws[i].mode == Unordered && ws[i].nextRsn == ws[i].nextNetworkRsn == start
    ensures !ws[i].inRnr && ws[i].rnrTimeout == 0
  {
    if i > 0 {
      UnorderedRunsKeepCounters(start, ws, steps, i - 1);
      assert Next(start, ws[i - 1], steps[i - 1], ws[i - 1 + 1]);
    }
  }

  /** Why the ULP must turn down what a NACK overtook: accepting the oldest
      un-ACKed RSN keeps the engine sound if and only if it was not overtaken. */
  lemma AckIsSoundIffNotOvertaken(start: nat, w: World, r: nat)
    requires Inv(start, w) && w.mode == Ordered
    requires InFlight(w, r) && r == w.nextNetworkRsn
    ensures Inv(start, Ack(w, r)) <==> !Overtaken(w.trace, r)
    ensures Overtaken(w.trace, r) ==> Stalled(start, Ack(w, r))
  {
    assert r < w.nextRsn <==> !Overtaken(w.trace, r);
    assert Unanswered(w.trace, r) == 1;
    if !Overtaken(w.trace, r) {
      AckKeepsInv(start, w, r);
    } else {
      assert r in ArrivedSet(w.trace) && r == w.nextRsn;
      assert !OrderInv(start, Ack(w, r));
    }
  }

  /** The RSN the connection waits for, and everything before it, has come and
      gone. */
  ghost predicate Stalled(start: nat, w: World) {
    && w.mode == Ordered && w.nextRsn !in w.buffer
    && (forall q :: start <= q <= w.nextRsn ==> q in ArrivedSet(w.trace))
    && (forall q :: q in w.buffer ==> w.nextRsn < q)
  }

  lemma StalledStays(start: nat, w: World, s: Step, v: World, q: nat)
    requires Stalled(start, w) && Next(start, w, s, v)
    ensures Stalled(start, v) && DeliveryCount(v.trace, q) == DeliveryCount(w.trace, q)
  {
    if s.InsertStep? {
      assert s.rsn != w.nextRsn && w.nextRsn < s.rsn;
    }
  }

  /** A continuation of a run, from whatever world it has reached. */
  ghost predicate Continues(start: nat, ws: seq<World>, steps: seq<Step>) {
    && |ws| == |steps| + 1
    && forall i :: 0 <= i < |steps| ==> Next(start, ws[i], steps[i], ws[i + 1])
  }

  lemma {:induction false} StalledForGood(start: nat, ws: seq<World>, steps: seq<Step>, i: nat, q: nat)
    requires Continues(start, ws, steps) && Stalled(start, ws[0]) && i < |ws|
    ensures Stalled(start, ws[i]) && DeliveryCount(ws[i].trace, q) == DeliveryCount(ws[0].trace, q)
  {
    hide Next, Stalled;
    if i > 0 {
      StalledForGood(start, ws, steps, i - 1, q);
      assert Next(start, ws[i - 1], steps[i - 1], ws[i - 1 + 1]);
      StalledStays(start, ws[i - 1], steps[i - 1], ws[i], q);
    }
  }

  /** An ACK for an overtaken RSN stops the connection for good: whatever happens
      afterwards, nothing is delivered any more. */
  lemma OvertakenAckStopsDelivery(start: nat, w: World, r: nat, ws: seq<World>, steps: seq<Step>, i: nat, q: nat)
    requires Inv(start, w) && w.mode == Ordered
    requires InFlight(w, r) && r == w.nextNetworkRsn && Overtaken(w.trace, r)
    requires Continues(start, ws, steps) && ws[0] == Ack(w, r) && i < |ws|
    ensures Stalled(start, ws[i]) && DeliveryCount(ws[i].trace, q) == DeliveryCount(w.trace, q)
  {
    hide Inv, Stalled, Continues;
    AckIsSoundIffNotOvertaken(start, w, r);
    StalledForGood(start, ws, steps, i, q);
  }

  const OvertakingRun := [InsertStep(0, PushSolicitedData), InsertStep(1, PushSolicitedData), NackStep(0, 5),
                          RetryStep(0), AckStep(0)]

  function Delivered01(): Trace {
    Then(Then(Then(Then(Empty, Arrived(0)), Delivered(0)), Arrived(1)), Delivered(1))
  }

  /** The worlds of this run. */
  function OvertakingWorld(k: nat): World {
    var sent := Transaction(PushSolicitedData, Infinite);
    var waits := Transaction(PushSolicitedData, At(5));
    var first := Then(Then(Empty, Arrived(0)), Delivered(0));
    var nacked := Then(Delivered01(), Nacked(0, 5));
    if k == 0 then Initial(Ordered, 0)
    else if k == 1 then World(Ordered, 1, 0, false, 0, map[0 := sent], 0, multiset{}, first)
    else if k == 2 then World(Ordered, 2, 0, false, 0, map[0 := sent, 1 := sent], 0, multiset{}, Delivered01())
    else if k == 3 then World(Ordered, 0, 0, true, 5, map[0 := waits, 1 := sent], 0, multiset{(5, 0)}, nacked)
    else if k == 4 then World(Ordered, 1, 0, true, 5, map[0 := sent, 1 := sent], 0, multiset{(5, 0)}, Then(nacked, Delivered(0)))
    else World(Ordered, 1, 1, false, 5, map[1 := sent], 0, multiset{(5, 0)}, Then(Then(nacked, Delivered(0)), Acked(0)))
  }

  lemma SendRunStops(w: World)
    requires !Due(w, w.nextRsn)
    ensures SendRun(w) == w
  {
  }

  lemma SendRunSendsOne(w: World)
    requires w.mode == Ordered && Due(w, w.nextRsn) && !Due(Send(w, w.nextRsn), w.nextRsn + 1)
    ensures SendRun(w) == Send(w, w.nextRsn)
  {
    SendRunStops(Send(w, w.nextRsn));
  }

  lemma OvertakingInserts(k: nat)
    requires k < 2
    ensures Next(0, OvertakingWorld(k), OvertakingRun[k], OvertakingWorld(k + 1))
  {
    var w, v := OvertakingWorld(k), OvertakingWorld(k + 1);
    var u := Note(w.(buffer := w.buffer[k := Transaction(PushSolicitedData, At(0))]), Arrived(k));
    assert Send(u, k) == v;
    SendRunStops(v);
  }

  lemma OvertakingNacks()
    ensures Next(0, OvertakingWorld(2), OvertakingRun[2], OvertakingWorld(3))
  {
    assert Unanswered(Delivered01(), 0) == 1;
    assert OvertakingWorld(2).buffer[0 := Transaction(PushSolicitedData, At(5))] == OvertakingWorld(3).buffer;
  }

  lemma OvertakingRetries()
    ensures Next(0, OvertakingWorld(3), OvertakingRun[3], OvertakingWorld(4))
  {
    var w, v := OvertakingWorld(3), OvertakingWorld(4);
    var u := SetRetry(w, 0, At(0));
    assert Send(u, 0) == v by {
      assert u.buffer[0 := Transaction(PushSolicitedData, Infinite)] == v.buffer;
    }
    SendRunSendsOne(u);
  }

  lemma OvertakingAcks()
    ensures Next(0, OvertakingWorld(4), OvertakingRun[4], OvertakingWorld(5))
    ensures Overtaken(OvertakingWorld(5).trace, 1)
  {
    var t := Delivered01();
    var n := Then(t, Nacked(0, 5));
    assert Unanswered(t, 0) == 1 && Unanswered(t, 1) == 1 && AckCount(t) == 0;
    assert Unanswered(n, 0) == 0 && AckCount(n) == 0;
    assert Overtaken(n, 1);
    assert !Overtaken(Then(n, Delivered(0)), 0) && Overtaken(Then(n, Delivered(0)), 1);
    assert OvertakingWorld(4).buffer - {0} == OvertakingWorld(5).buffer;
  }

  /** Such a state is reached: RSNs 0 and 1 are delivered, 0 is NACKed, delivered
      again and accepted, while 1 is still in flight from its first delivery. */
  lemma OvertakenRsnIsReached() returns (ws: seq<World>, steps: seq<Step>)
    ensures IsRun(Ordered, 0, ws, steps)
    ensures var w := ws[|steps|]; InFlight(w, 1) && w.nextNetworkRsn == 1 && Overtaken(w.trace, 1)
  {
    hide Next, Overtaken, Delivered01;
    steps := OvertakingRun;
    ws := seq(6, k requires 0 <= k < 6 => OvertakingWorld(k));
    forall k: nat | k < 5 ensures Next(0, OvertakingWorld(k), OvertakingRun[k], OvertakingWorld(k + 1)) {
      if k < 2 {
        OvertakingInserts(k);
      } else if k == 2 {
        OvertakingNacks();
      } else if k == 3 {
        OvertakingRetries();
      } else {
        OvertakingAcks();
      }
    }
    OvertakingAcks();
  }
}
