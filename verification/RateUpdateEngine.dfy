/**
 The event flow of the rate update engine: ACKs, NACKs and timeouts of a
 connection become events for the congestion control algorithm, at most one at a
 time, through an event queue, a processing loop that reschedules itself, and a
 response queue whose handler clears the connection's outstanding flag.
 */
module RateUpdateEngine {
  import opened Lists

  /** A last event time of None is minus infinity: there was no event yet. */
  datatype Connection = Connection(outstanding: bool, numAcked: nat, lastEventTime: Option<int>)

  datatype Kind = Ack | Nack | TimeoutRetransmit(count: nat)
  datatype Event = Event(cid: nat, kind: Kind, numAcked: nat)

  datatype Config = Config(
    size: nat, threshold1: nat, threshold2: nat, threshold3: nat,
    timeGap: int, packetCount: nat)

  /** `processing` and `handlers` count the pending calls of `ProcessNextEvent` and
      of `HandleNextResponse`; `admitted` and `handled` are the history. */
  datatype World = World(
    connections: map<nat, Connection>,
    events: seq<Event>,
    responses: seq<Event>,
    queueScheduled: bool,
    processing: nat,
    handlers: nat,
    now: int,
    admitted: seq<Event>,
    handled: seq<Event>)

  const MAX_NUM_ACKED := 1023 // ten bits

  function SaturateHigh(n: nat): nat {
    if n > MAX_NUM_ACKED then MAX_NUM_ACKED else n
  }

  // ---------- Admission ----------

  /** Any event of an idle connection below threshold 1; then, in ever fuller
      bands, an event that is late or reports many packets, one that is late, and
      one that is both; none at or above the queue's size. */
  predicate CanEnqueue(c: Config, n: nat, x: Connection, now: int) {
    var late := x.lastEventTime == None || now - x.lastEventTime.value >= c.timeGap;
    var many := x.numAcked >= c.packetCount;
    if x.outstanding then false
    else if n < c.threshold1 then true
    else if n < c.threshold2 then late || many
    else if n < c.threshold3 then late
    else if n < c.size then late && many
    else false
  }

  predicate ThresholdsFit(c: Config) {
    c.threshold1 <= c.size && c.threshold2 <= c.size && c.threshold3 <= c.size
  }

  /** The queue never outgrows its size for just those configurations whose
      thresholds lie within it; otherwise some idle connection is let in. */
  lemma FullQueueRefusesIff(c: Config)
    ensures (forall n: nat, x, now :: n >= c.size ==> !CanEnqueue(c, n, x, now))
            <==> ThresholdsFit(c)
  {
    var late := Connection(false, c.packetCount, None);
    if c.threshold1 > c.size || c.threshold2 > c.size || c.threshold3 > c.size {
      assert CanEnqueue(c, c.size, late, 0);
    }
  }

  // ---------- Steps ----------

  function Admit(w: World, e: Event): World
    requires e.cid in w.connections
  {
    w.(connections := w.connections[e.cid := Connection(true, 0, Some(w.now))],
       queueScheduled := true,
       processing := if w.queueScheduled then w.processing else w.processing + 1,
       events := w.events + [e],
       admitted := w.admitted + [e])
  }

  /** An ACK or a NACK. When it cannot be enqueued, the packets it acknowledged stay
      on the connection's account. */
  function Receive(c: Config, w: World, cid: nat, kind: Kind): World
    requires cid in w.connections && !kind.TimeoutRetransmit?
  {
    var x := w.connections[cid];
    if !CanEnqueue(c, |w.events|, x, w.now) then w
    else Admit(w, Event(cid, kind, SaturateHigh(x.numAcked)))
  }

  function ClampRetransmits(count: nat): nat {
    if count >= 7 then 6 else count
  }

  /** A timeout forgets the acknowledged packets first, whether or not its event can
      be enqueued. */
  function TimedOut(c: Config, w: World, cid: nat, count: nat): World
    requires cid in w.connections
  {
    var x := w.connections[cid].(numAcked := 0);
    var v := w.(connections := w.connections[cid := x]);
    if !CanEnqueue(c, |w.events|, x, w.now) then v
    else Admit(v, Event(cid, TimeoutRetransmit(ClampRetransmits(count)), 0))
  }

  /** One round of the processing loop; it stops itself on an empty queue. */
  function Process(w: World): World
    requires 0 < w.processing
  {
    if w.events == [] then w.(queueScheduled := false, processing := w.processing - 1)
    else w.(events := w.events[1..], responses := w.responses + [w.events[0]], handlers := w.handlers + 1)
  }

  function Handle(w: World): World
    requires 0 < w.handlers && w.responses != [] && w.responses[0].cid in w.connections
  {
    var e := w.responses[0];
    w.(responses := w.responses[1..], handlers := w.handlers - 1, handled := w.handled + [e],
       connections := w.connections[e.cid := w.connections[e.cid].(outstanding := false)])
  }

  // ---------- Runs ----------

  datatype Step =
    | ReceiveStep(cid: nat, kind: Kind)
    | TimeoutStep(cid: nat, count: nat)
    | AckedStep(cid: nat)         // the reliability manager counts an acknowledged packet
    | ConnectStep(cid: nat)
    | ProcessStep                 // a pending call of the processing loop
    | HandleStep                  // a pending call of the response handler
    | TickStep(until: int)

  /** What can happen next. That the handler finds a response, and a response its
      connection, is proved below and not assumed: the handler is enabled whenever
      a call of it is pending. */
  predicate Enabled(w: World, s: Step) {
    match s
    case ReceiveStep(cid, kind) => cid in w.connections && !kind.TimeoutRetransmit?
    case TimeoutStep(cid, _) => cid in w.connections
    case AckedStep(cid) => cid in w.connections
    case ConnectStep(cid) => cid !in w.connections
    case ProcessStep => 0 < w.processing
    case HandleStep => 0 < w.handlers
    case TickStep(until) => w.now <= until
  }

  ghost predicate Next(c: Config, w: World, s: Step, v: World) {
    && Enabled(w, s)
    && match s
       case ReceiveStep(cid, kind) => v == Receive(c, w, cid, kind)
       case TimeoutStep(cid, count) => v == TimedOut(c, w, cid, count)
       case AckedStep(cid) =>
         v == w.(connections := w.connections[cid := w.connections[cid].(numAcked := w.connections[cid].numAcked + 1)])
       case ConnectStep(cid) => v == w.(connections := w.connections[cid := Connection(false, 0, None)])
       case ProcessStep => v == Process(w)
       case HandleStep => HandlerIsSafe(w) ==> v == Handle(w)
       case TickStep(until) => v == w.(now := until)
  }

  predicate HandlerIsSafe(w: World) {
    0 < w.handlers && w.responses != [] && w.responses[0].cid in w.connections
  }

  function Initial(now: int): World {
    World(map[], [], [], false, 0, 0, now, [], [])
  }

  ghost predicate IsRun(c: Config, ws: seq<World>, steps: seq<Step>) {
    && |ws| == |steps| + 1
    && ws[0] == Initial(ws[0].now)
    && forall i :: 0 <= i < |steps| ==> Next(c, ws[i], steps[i], ws[i + 1])
  }

  // ---------- The invariant ----------

  /** What is between admission and the end of handling, oldest first. */
  function Pipeline(w: World): seq<Event> {
    w.responses + w.events
  }

  ghost predicate Within(p: seq<Event>, cid: nat) {
    exists i :: 0 <= i < |p| && p[i].cid == cid
  }

  ghost predicate OneEach(p: seq<Event>) {
    forall i, j :: 0 <= i < j < |p| ==> p[i].cid != p[j].cid
  }

  ghost predicate FlagsAgree(connections: map<nat, Connection>, p: seq<Event>) {
    && (forall i :: 0 <= i < |p| ==> p[i].cid in connections)
    && (forall cid :: cid in connections ==> (connections[cid].outstanding <==> Within(p, cid)))
  }

  ghost predicate Inv(w: World) {
    && OneEach(Pipeline(w))
    && FlagsAgree(w.connections, Pipeline(w))
    && w.handlers == |w.responses|
    && w.processing == (if w.queueScheduled then 1 else 0)
    && (w.events != [] ==> w.queueScheduled)
    && w.admitted == w.handled + Pipeline(w)
  }

  lemma AppendEvent(connections: map<nat, Connection>, p: seq<Event>, e: Event, x: Connection)
    requires OneEach(p) && FlagsAgree(connections, p)
    requires e.cid in connections && !connections[e.cid].outstanding && x.outstanding
    ensures OneEach(p + [e]) && FlagsAgree(connections[e.cid := x], p + [e])
  {
    var q, after := p + [e], connections[e.cid := x];
    assert !Within(p, e.cid);
    assert q[|p|].cid == e.cid;
    forall cid | cid in after ensures after[cid].outstanding <==> Within(q, cid) {
      if Within(p, cid) {
        var i :| 0 <= i < |p| && p[i].cid == cid;
        assert q[i].cid == cid;
      }
    }
  }

  lemma DropEvent(connections: map<nat, Connection>, p: seq<Event>)
    requires OneEach(p) && FlagsAgree(connections, p) && p != []
    ensures OneEach(p[1..])
    ensures FlagsAgree(connections[p[0].cid := connections[p[0].cid].(outstanding := false)], p[1..])
  {
    var q := p[1..];
    var after := connections[p[0].cid := connections[p[0].cid].(outstanding := false)];
    forall cid | cid in after ensures after[cid].outstanding <==> Within(q, cid) {
      if Within(p, cid) && cid != p[0].cid {
        var i :| 0 <= i < |p| && p[i].cid == cid;
        assert q[i - 1].cid == cid;
      }
    }
  }

  lemma AdmitKeepsInv(w: World, e: Event)
    requires Inv(w) && e.cid in w.connections && !w.connections[e.cid].outstanding
    ensures Inv(Admit(w, e))
  {
    var v := Admit(w, e);
    AppendEvent(w.connections, Pipeline(w), e, v.connections[e.cid]);
    assert Pipeline(v) == Pipeline(w) + [e];
  }

  lemma ProcessKeepsInv(w: World)
    requires Inv(w) && 0 < w.processing
    ensures Inv(Process(w)) && Pipeline(Process(w)) == Pipeline(w)
  {
    assert w.events != [] ==> Pipeline(Process(w)) == Pipeline(w);
  }

  /** Whenever a call of the handler is pending, the check that there is a response,
      and that its flag was set, succeeds. */
  lemma HandlerNeverFails(w: World)
    requires Inv(w) && 0 < w.handlers
    ensures HandlerIsSafe(w) && w.connections[w.responses[0].cid].outstanding
  {
    assert Pipeline(w)[0] == w.responses[0];
    assert Within(Pipeline(w), w.responses[0].cid);
  }

  lemma HandleKeepsInv(w: World)
    requires Inv(w) && 0 < w.handlers && HandlerIsSafe(w)
    ensures Inv(Handle(w))
  {
    DropEvent(w.connections, Pipeline(w));
    assert Pipeline(Handle(w)) == Pipeline(w)[1..];
    assert w.handled + Pipeline(w) == w.handled + [w.responses[0]] + Pipeline(w)[1..];
  }

  lemma StepKeepsInv(c: Config, w: World, s: Step, v: World)
    requires Inv(w) && Next(c, w, s, v)
    ensures Inv(v)
  {
    match s
    case ReceiveStep(cid, kind) =>
      var x := w.connections[cid];
      if CanEnqueue(c, |w.events|, x, w.now) {
        AdmitKeepsInv(w, Event(cid, kind, SaturateHigh(x.numAcked)));
      }
    case TimeoutStep(cid, count) =>
      var x := w.connections[cid].(numAcked := 0);
      var u := w.(connections := w.connections[cid := x]);
      assert Inv(u);
      if CanEnqueue(c, |w.events|, x, w.now) {
        AdmitKeepsInv(u, Event(cid, TimeoutRetransmit(ClampRetransmits(count)), 0));
      }
    case ProcessStep => ProcessKeepsInv(w);
    case HandleStep =>
      HandlerNeverFails(w);
      HandleKeepsInv(w);
    case AckedStep(_) =>
    case ConnectStep(_) =>
    case TickStep(_) =>
  }

  /** What a call that may admit an event of connection `cid` did: it admitted exactly
      one, with the time recorded and the account cleared, or none. */
  ghost predicate Admitted(w: World, v: World, cid: nat, e: Event) {
    && e.cid == cid && v.admitted == w.admitted + [e] && v.events == w.events + [e]
    && v.connections == w.connections[cid := Connection(true, 0, Some(w.now))]
    && v.queueScheduled && v.processing == w.processing + (if w.queueScheduled then 0 else 1)
    && v.responses == w.responses && v.handlers == w.handlers && v.handled == w.handled && v.now == w.now
  }

  function Max(a: nat, b: nat): nat {
    if a < b then b else a
  }

  /** The queue is below the highest threshold the event qualifies for: any event for the
      first, one with many packets for the second, a late one for the third, and one that
      is both for the size. A threshold below an earlier one counts as that. */
  predicate Qualifies(c: Config, n: nat, late: bool, many: bool) {
    var second := Max(c.threshold1, c.threshold2);
    var third := Max(second, c.threshold3);
    n < c.threshold1 || (many && n < second) || (late && n < third) || (late && many && n < Max(third, c.size))
  }

  /** An event is admitted exactly when nothing of its connection is in the pipeline and
      it qualifies. */
  lemma ReceiptIsAdmittedIff(c: Config, w: World, cid: nat, kind: Kind)
    requires cid in w.connections && !kind.TimeoutRetransmit?
    ensures var v := Receive(c, w, cid, kind);
            var x := w.connections[cid];
            var late := x.lastEventTime == None || x.lastEventTime.value + c.timeGap <= w.now;
            if !x.outstanding && Qualifies(c, |w.events|, late, c.packetCount <= x.numAcked)
            then Admitted(w, v, cid, Event(cid, kind, if x.numAcked <= 1023 then x.numAcked else 1023))
            else v == w
  {
  }

  /** A timeout has no packets to report; its event carries the retransmission count, up
      to 6. */
  lemma TimeoutIsAdmittedIff(c: Config, w: World, cid: nat, count: nat)
    requires cid in w.connections
    ensures var v := TimedOut(c, w, cid, count);
            var x := w.connections[cid];
            var late := x.lastEventTime == None || x.lastEventTime.value + c.timeGap <= w.now;
            if !x.outstanding && Qualifies(c, |w.events|, late, c.packetCount == 0)
            then Admitted(w, v, cid, Event(cid, TimeoutRetransmit(if count <= 6 then count else 6), 0))
            else v == w.(connections := w.connections[cid := x.(numAcked := 0)])
  {
    var x := w.connections[cid];
    assert w.connections[cid := x.(numAcked := 0)][cid := Connection(true, 0, Some(w.now))]
        == w.connections[cid := Connection(true, 0, Some(w.now))];
  }

  /** What a fuller queue lets in, an emptier one does. */
  lemma EmptierQueueAdmitsMore(c: Config, m: nat, n: nat, x: Connection, now: int)
    requires m <= n && CanEnqueue(c, n, x, now)
    ensures CanEnqueue(c, m, x, now)
  {
  }

  // ---------- What an event reports ----------

  /** Packets acknowledged on connection `cid` and not yet reported by an event, nor
      forgotten by a timeout, after `j` steps: read off the steps and the admissions. */
  ghost function Unreported(ws: seq<World>, steps: seq<Step>, cid: nat, j: nat): nat
    requires |ws| == |steps| + 1 && j <= |steps|
  {
    if j == 0 then 0
    else
      var before := Unreported(ws, steps, cid, j - 1);
      match steps[j - 1]
      case AckedStep(d) => if d == cid then before + 1 else before
      case TimeoutStep(d, _) => if d == cid then 0 else before
      case ReceiveStep(d, _) => if d == cid && ws[j].admitted != ws[j - 1].admitted then 0 else before
      case ConnectStep(d) => if d == cid then 0 else before
      case _ => before
  }

  lemma AccountStep(c: Config, w: World, s: Step, v: World, cid: nat)
    requires Inv(w) && Next(c, w, s, v) && cid in v.connections
    ensures cid !in w.connections ==> v.connections[cid].numAcked == 0 && s == ConnectStep(cid)
    ensures cid in w.connections ==>
              v.connections[cid].numAcked ==
                match s
                case AckedStep(d) => w.connections[cid].numAcked + (if d == cid then 1 else 0)
                case TimeoutStep(d, _) => if d == cid then 0 else w.connections[cid].numAcked
                case ReceiveStep(d, _) => if d == cid && v.admitted != w.admitted then 0 else w.connections[cid].numAcked
                case _ => w.connections[cid].numAcked
  {
    if s.HandleStep? {
      HandlerNeverFails(w);
    } else if s.ReceiveStep? {
      assert CanEnqueue(c, |w.events|, w.connections[s.cid], w.now) ==> |v.admitted| == |w.admitted| + 1;
    }
  }

  /** What counts as the time of a connection's last event is when it was admitted. */
  lemma LastEventIsLastAdmission(c: Config, w: World, s: Step, v: World, cid: nat)
    requires Inv(w) && Next(c, w, s, v) && cid in v.connections
    ensures v.connections[cid].lastEventTime ==
              if |v.admitted| > |w.admitted| && v.admitted[|w.admitted|].cid == cid then Some(w.now)
              else if cid in w.connections then w.connections[cid].lastEventTime
              else None
  {
    if s.HandleStep? {
      HandlerNeverFails(w);
    }
  }

  /** A connection's account is what has been acknowledged since its last event or
      timeout; and that is what its next event reports. */
  lemma {:induction false} AccountsAreUnreported(c: Config, ws: seq<World>, steps: seq<Step>, cid: nat, j: nat)
    requires IsRun(c, ws, steps) && j < |ws| && cid in ws[j].connections
    ensures ws[j].connections[cid].numAcked == Unreported(ws, steps, cid, j)
  {
    if j > 0 {
      EveryRunKeepsInv(c, ws, steps, j - 1);
      assert Next(c, ws[j - 1], steps[j - 1], ws[j - 1 + 1]);
      AccountStep(c, ws[j - 1], steps[j - 1], ws[j], cid);
      if cid in ws[j - 1].connections {
        AccountsAreUnreported(c, ws, steps, cid, j - 1);
      }
    }
  }

  lemma {:induction false} EveryRunKeepsInv(c: Config, ws: seq<World>, steps: seq<Step>, i: nat)
    requires IsRun(c, ws, steps) && i < |ws|
    ensures Inv(ws[i])
  {
    if i > 0 {
      EveryRunKeepsInv(c, ws, steps, i - 1);
      StepKeepsInv(c, ws[i - 1], steps[i - 1], ws[i]);
    }
  }

  // ---------- What the invariant is for ----------

  function Count(p: seq<Event>, cid: nat): nat {
    if p == [] then 0 else (if p[0].cid == cid then 1 else 0) + Count(p[1..], cid)
  }

  lemma {:induction false} CountOneEach(p: seq<Event>, cid: nat)
    requires OneEach(p)
    ensures Count(p, cid) == if Within(p, cid) then 1 else 0
  {
    if p != [] {
      CountOneEach(p[1..], cid);
      if Within(p[1..], cid) {
        var i :| 0 <= i < |p[1..]| && p[1..][i].cid == cid;
        assert p[i + 1].cid == cid;
      } else if p[0].cid != cid {
        assert forall i :: 0 < i < |p| ==> p[i] == p[1..][i - 1];
      }
    }
  }

  /** In every reachable state a connection's flag is set iff exactly one event or
      response of it is in the pipeline, and otherwise there is none. */
  lemma FlagMeansExactlyOne(c: Config, ws: seq<World>, steps: seq<Step>, i: nat, cid: nat)
    requires IsRun(c, ws, steps) && i < |ws| && cid in ws[i].connections
    ensures Count(Pipeline(ws[i]), cid) == if ws[i].connections[cid].outstanding then 1 else 0
  {
    EveryRunKeepsInv(c, ws, steps, i);
    CountOneEach(Pipeline(ws[i]), cid);
  }

  /** Events are answered once each, in the order they were admitted. */
  lemma AnsweredInOrder(c: Config, ws: seq<World>, steps: seq<Step>, i: nat)
    requires IsRun(c, ws, steps) && i < |ws|
    ensures ws[i].handled <= ws[i].admitted
    ensures ws[i].handlers == 0 && ws[i].processing == 0 ==> ws[i].handled == ws[i].admitted
  {
    EveryRunKeepsInv(c, ws, steps, i);
    assert ws[i].handled + Pipeline(ws[i]) == ws[i].admitted;
  }

  /** With thresholds within the size, the queue stays within its size. */
  lemma {:induction false} QueueIsBounded(c: Config, ws: seq<World>, steps: seq<Step>, i: nat)
    requires IsRun(c, ws, steps) && i < |ws| && ThresholdsFit(c)
    ensures |ws[i].events| <= c.size
  {
    if i > 0 {
      QueueIsBounded(c, ws, steps, i - 1);
      assert Next(c, ws[i - 1], steps[i - 1], ws[i - 1 + 1]);
      if steps[i - 1].HandleStep? {
        EveryRunKeepsInv(c, ws, steps, i - 1);
        HandlerNeverFails(ws[i - 1]);
      }
    }
  }

  lemma RunGoesOn(c: Config, ws: seq<World>, steps: seq<Step>, s: Step, v: World)
    requires IsRun(c, ws, steps) && Next(c, ws[|steps|], s, v)
    ensures IsRun(c, ws + [v], steps + [s])
  {
    var vs, more := ws + [v], steps + [s];
    forall i | 0 <= i < |more| ensures Next(c, vs[i], more[i], vs[i + 1]) {
      if i < |steps| {
        assert Next(c, ws[i], steps[i], ws[i + 1]);
      }
    }
  }

  /** Connections 0 to n - 1 exist and the first `k` of them have an event queued. */
  ghost predicate Filled(w: World, n: nat, k: nat) {
    && |w.events| == k <= n
    && (forall cid :: k <= cid < n ==> cid in w.connections && w.connections[cid] == Connection(false, 0, None))
    && (forall cid :: n <= cid ==> cid !in w.connections)
  }

  lemma {:induction false} Connects(c: Config, n: nat) returns (ws: seq<World>, steps: seq<Step>)
    ensures IsRun(c, ws, steps) && Filled(ws[|steps|], n, 0)
  {
    if n == 0 {
      ws, steps := [Initial(0)], [];
    } else {
      ws, steps := Connects(c, n - 1);
      var w := ws[|steps|];
      var v := w.(connections := w.connections[n - 1 := Connection(false, 0, None)]);
      RunGoesOn(c, ws, steps, ConnectStep(n - 1), v);
      ws, steps := ws + [v], steps + [ConnectStep(n - 1)];
    }
  }

  /** A threshold above the size lets in connections that never had an event, up to
      and beyond the size. */
  lemma {:induction false} Overfills(c: Config, k: nat) returns (ws: seq<World>, steps: seq<Step>)
    requires !ThresholdsFit(c) && k <= c.size + 1
    ensures IsRun(c, ws, steps) && Filled(ws[|steps|], c.size + 1, k)
  {
    if k == 0 {
      ws, steps := Connects(c, c.size + 1);
    } else {
      ws, steps := Overfills(c, k - 1);
      var w := ws[|steps|];
      assert CanEnqueue(c, |w.events|, w.connections[k - 1], w.now);
      var v := Receive(c, w, k - 1, Ack);
      RunGoesOn(c, ws, steps, ReceiveStep(k - 1, Ack), v);
      ws, steps := ws + [v], steps + [ReceiveStep(k - 1, Ack)];
    }
  }

  ghost predicate Overflows(c: Config, ws: seq<World>, steps: seq<Step>) {
    IsRun(c, ws, steps) && exists i :: 0 <= i < |ws| && |ws[i].events| > c.size
  }

  /** Some run makes the queue outgrow its size if and only if some threshold lies
      above the size. */
  lemma SomeRunOverflowsIff(c: Config)
    ensures (exists ws, steps :: Overflows(c, ws, steps)) <==> !ThresholdsFit(c)
  {
    if !ThresholdsFit(c) {
      var ws, steps := Overfills(c, c.size + 1);
      assert |ws[|steps|].events| > c.size;
      assert Overflows(c, ws, steps);
    }
    forall ws: seq<World>, steps: seq<Step> | ThresholdsFit(c) && IsRun(c, ws, steps) ensures !Overflows(c, ws, steps) {
      forall i | 0 <= i < |ws| ensures |ws[i].events| <= c.size {
        QueueIsBounded(c, ws, steps, i);
      }
    }
  }

  /** Because a timeout clears the packet count before it asks, a nearly full queue
      (from threshold 3 on) turns every timeout away. */
  lemma TimeoutsNeedRoom(c: Config, w: World, cid: nat, count: nat)
    requires cid in w.connections && 0 < c.packetCount
    requires c.threshold1 <= c.threshold2 <= c.threshold3 <= |w.events|
    ensures TimedOut(c, w, cid, count).events == w.events
  {
  }

  /** How many pending calls it takes to empty the pipeline. */
  function Backlog(w: World): nat {
    2 * |w.events| + |w.responses| + w.processing
  }

  /** Left alone, the engine answers everything: each pending call works the backlog
      down by one, there is a pending call as long as any connection waits, and with
      no backlog none does. */
  lemma BacklogShrinks(c: Config, w: World, s: Step, v: World)
    requires Inv(w) && Next(c, w, s, v) && (s.ProcessStep? || s.HandleStep?)
    ensures Backlog(v) == Backlog(w) - 1
  {
    if s.HandleStep? { HandlerNeverFails(w); }
  }

  lemma WaitingMeansPending(w: World, cid: nat)
    requires Inv(w) && cid in w.connections && w.connections[cid].outstanding
    ensures 0 < Backlog(w) && (Enabled(w, ProcessStep) || Enabled(w, HandleStep))
  {
    assert Within(Pipeline(w), cid);
  }

  predicate Internal(s: Step) {
    s.ProcessStep? || s.HandleStep? || s.TickStep?
  }

  function InternalCalls(steps: seq<Step>): nat {
    if steps == [] then 0
    else InternalCalls(steps[..|steps| - 1]) + (if steps[|steps| - 1].TickStep? then 0 else 1)
  }

  lemma NoBacklogNobodyWaits(w: World)
    requires Inv(w) && Backlog(w) == 0
    ensures forall cid :: cid in w.connections ==> !w.connections[cid].outstanding
  {
    forall cid | cid in w.connections && w.connections[cid].outstanding ensures false {
      WaitingMeansPending(w, cid);
    }
  }

  lemma InternalStep(c: Config, ws: seq<World>, steps: seq<Step>, i: nat)
    requires IsRun(c, ws, steps) && i < |steps| && Internal(steps[i])
    ensures Backlog(ws[i + 1]) == Backlog(ws[i]) - if steps[i].TickStep? then 0 else 1
  {
    EveryRunKeepsInv(c, ws, steps, i);
    assert Next(c, ws[i], steps[i], ws[i + 1]);
    if !steps[i].TickStep? {
      BacklogShrinks(c, ws[i], steps[i], ws[i + 1]);
    }
  }

  lemma {:induction false} CallsShrinkBacklog(c: Config, ws: seq<World>, steps: seq<Step>, from: nat, to: nat)
    requires IsRun(c, ws, steps) && from <= to < |ws|
    requires forall k :: from <= k < to ==> Internal(steps[k])
    ensures InternalCalls(steps[from..to]) == Backlog(ws[from]) - Backlog(ws[to])
  {
    hide Next, Backlog;
    if from < to {
      CallsShrinkBacklog(c, ws, steps, from, to - 1);
      var part := steps[from..to];
      assert part[..|part| - 1] == steps[from..to - 1];
      InternalStep(c, ws, steps, to - 1);
    }
  }

  /** So an idle stretch of a run makes as many calls as the backlog shrank by, and
      once it has made `Backlog` of them no connection waits any more. */
  lemma EngineDrains(c: Config, ws: seq<World>, steps: seq<Step>, from: nat, to: nat)
    requires IsRun(c, ws, steps) && from <= to < |ws|
    requires forall k :: from <= k < to ==> Internal(steps[k])
    ensures InternalCalls(steps[from..to]) == Backlog(ws[from]) - Backlog(ws[to])
    ensures InternalCalls(steps[from..to]) == Backlog(ws[from]) ==>
              forall cid :: cid in ws[to].connections ==> !ws[to].connections[cid].outstanding
  {
    hide Next, Backlog, Inv;
    EveryRunKeepsInv(c, ws, steps, to);
    CallsShrinkBacklog(c, ws, steps, from, to);
    if Backlog(ws[to]) == 0 {
      NoBacklogNobodyWaits(ws[to]);
    }
  }

  // ---------- The object ----------

  class ProtocolRateUpdateEngine {
    const config: Config
    var connections: map<nat, Connection>
    var eventQueue: seq<Event>
    var responseQueue: seq<Event>
    var queueScheduled: bool
    var now: int
    ghost var processing: nat
    ghost var handlers: nat
    ghost var admitted: seq<Event>
    ghost var handled: seq<Event>

    ghost function View(): World
      reads this
    {
      World(connections, eventQueue, responseQueue, queueScheduled, processing, handlers, now, admitted, handled)
    }

    constructor (config: Config, now: int)
      ensures this.config == config && View() == Initial(now)
    {
      this.config, this.now, queueScheduled := config, now, false;
      connections, eventQueue, responseQueue := map[], [], [];
      processing, handlers, admitted, handled := 0, 0, [], [];
    }

    method CanEnqueueEvent(cid: nat) returns (ok: bool)
      requires cid in connections
      ensures ok == CanEnqueue(config, |eventQueue|, connections[cid], now)
    {
      if connections[cid].outstanding { return false; }
      if |eventQueue| < config.threshold1 { return true; }
      var last := connections[cid].lastEventTime;
      var predicate1 := last == None || now - last.value >= config.timeGap;
      var predicate2 := connections[cid].numAcked >= config.packetCount;
      if |eventQueue| < config.threshold2 { return predicate1 || predicate2; }
      if |eventQueue| < config.threshold3 { return predicate1; }
      if |eventQueue| < config.size { return predicate1 && predicate2; }
      return false;
    }

    /** Sets the flag and reports whether that changed it. */
    method UpdateOutstandingEvent(cid: nat, value: bool) returns (changed: bool)
      requires cid in connections
      modifies this`connections
      ensures changed == (old(connections[cid].outstanding) != value)
      ensures connections == old(connections)[cid := old(connections)[cid].(outstanding := value)]
    {
      var oldValue := connections[cid].outstanding;
      connections := connections[cid := connections[cid].(outstanding := value)];
      return oldValue != value;
    }

    method PrepareForEnqueueEvent(cid: nat)
      requires cid in connections && !connections[cid].outstanding
      modifies this`connections, this`queueScheduled, this`processing
      ensures connections == old(connections)[cid := old(connections)[cid].(outstanding := true)]
      ensures queueScheduled
      ensures processing == if old(queueScheduled) then old(processing) else old(processing) + 1
    {
      var changed := UpdateOutstandingEvent(cid, true);
      assert changed;
      if !queueScheduled {
        queueScheduled := true;
        processing := processing + 1;
      }
    }

    method ResetNumAcked(cid: nat)
      requires cid in connections
      modifies this`connections
      ensures connections == old(connections)[cid := old(connections)[cid].(numAcked := 0)]
    {
      connections := connections[cid := connections[cid].(numAcked := 0)];
    }

    method UpdateLastEventTime(cid: nat)
      requires cid in connections
      modifies this`connections
      ensures connections == old(connections)[cid := old(connections)[cid].(lastEventTime := Some(now))]
    {
      connections := connections[cid := connections[cid].(lastEventTime := Some(now))];
    }

    /** Explicit ACKs and NACKs take the same course. */
    method AckOrNackReceived(cid: nat, kind: Kind)
      requires cid in connections && !kind.TimeoutRetransmit?
      modifies this
      ensures View() == Receive(config, old(View()), cid, kind)
    {
      var ok := CanEnqueueEvent(cid);
      if ok {
        var numPacketsAcked := SaturateHigh(connections[cid].numAcked);
        ResetNumAcked(cid);
        UpdateLastEventTime(cid);
        var event := Event(cid, kind, numPacketsAcked);
        PrepareForEnqueueEvent(cid);
        eventQueue := eventQueue + [event];
        admitted := admitted + [event];
        assert connections == old(connections)[cid := Connection(true, 0, Some(now))];
      }
    }

    method HandlePacketTimeoutRetransmitted(cid: nat, retransmitCount: nat)
      requires cid in connections
      modifies this
      ensures View() == TimedOut(config, old(View()), cid, retransmitCount)
    {
      var count := retransmitCount;
      if count >= 7 {
        count := 6;
      }
      ResetNumAcked(cid);
      var ok := CanEnqueueEvent(cid);
      if ok {
        UpdateLastEventTime(cid);
        var event := Event(cid, TimeoutRetransmit(count), 0);
        PrepareForEnqueueEvent(cid);
        eventQueue := eventQueue + [event];
        admitted := admitted + [event];
        assert connections == old(connections)[cid := Connection(true, 0, Some(now))];
      }
    }

    method ProcessNextEvent()
      requires Inv(View()) && 0 < processing
      modifies this
      ensures View() == Process(old(View()))
    {
      assert queueScheduled;
      processing := processing - 1;
      if |eventQueue| == 0 {
        queueScheduled := false;
        return;
      }
      var event := eventQueue[0];
      eventQueue := eventQueue[1..];
      responseQueue := responseQueue + [event];
      processing := processing + 1;
      handlers := handlers + 1;
    }

    method HandleNextResponse()
      requires Inv(View()) && 0 < handlers
      modifies this
      ensures HandlerIsSafe(old(View())) && View() == Handle(old(View()))
    {
      HandlerNeverFails(View());
      var response := responseQueue[0];
      responseQueue := responseQueue[1..];
      handlers := handlers - 1;
      handled := handled + [response];
      var changed := UpdateOutstandingEvent(response.cid, false);
      assert changed;
    }
  }
}
