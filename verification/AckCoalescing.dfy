/**
 ACK coalescing for one connection: received packets bump a counter, and an ACK
 leaves when the counter reaches its threshold, when one is asked for, or when
 the coalescing timer runs out. Timers are never cancelled; a timeout event that
 no longer matches the recorded trigger time is stale and must do nothing.
 */
module AckCoalescing {

  datatype Limits = Limits(threshold: nat, timeout: nat, ignoreArBit: bool)

  datatype World = World(
    counter: nat,
    triggerTime: nat,        // 0 while no timer runs
    implicitlyAcked: nat,
    oowDrop: bool,
    now: nat,
    timers: multiset<nat>,
    acksSent: nat)

  function Initial(now: nat): World {
    World(0, 0, 0, false, now, multiset{}, 0)
  }

  /** One received packet counts for a Falcon ACK and a ULP ACK, so the configured
      threshold is doubled. */
  function AckThreshold(l: Limits): nat {
    2 * l.threshold
  }

  function TransmitAck(w: World): World {
    w.(counter := 0, triggerTime := 0, implicitlyAcked := 0, oowDrop := false, acksSent := w.acksSent + 1)
  }

  /** An ACK goes out right away. The AR bit is ignored, if so configured, while
      out-of-window drops are to be reported. */
  predicate SendsNow(l: Limits, w: World, immediate: bool, increment: nat) {
    (immediate && !(l.ignoreArBit && w.oowDrop)) || w.counter + increment >= AckThreshold(l)
  }

  function Generate(l: Limits, w: World, immediate: bool, increment: nat): World {
    var v := w.(counter := w.counter + increment);
    if SendsNow(l, w, immediate, increment) then TransmitAck(v)
    else if v.triggerTime == 0 then v.(triggerTime := w.now, timers := w.timers + multiset{w.now + l.timeout})
    else v
  }

  function Piggyback(w: World): World {
    var v := if w.oowDrop then w
             else w.(counter := if w.counter >= 2 * w.implicitlyAcked then w.counter - 2 * w.implicitlyAcked else 0,
                     implicitlyAcked := 0);
    if v.counter == 0 then v.(triggerTime := 0) else v
  }

  /** A coalescing timeout event that is due now. */
  function Timeout(l: Limits, w: World): World {
    var v := w.(timers := w.timers - multiset{w.now});
    if w.now - w.triggerTime == l.timeout && w.counter > 0 then TransmitAck(v) else v
  }

  // ---------- Runs ----------

  datatype Step =
    | GenerateStep(immediate: bool, increment: nat)
    | PiggybackStep
    | TimeoutStep
    | NackStep                       // a NACK piggybacks and reports the drops
    | ImplicitAckStep(packets: nat)  // the receiver owes these to the next piggyback
    | OowDropStep
    | TickStep(until: nat)

  /** The call keeps counter and timer in step: it sends, or it leaves something
      owed just when the clock cannot be mistaken for the mark of a stopped timer. */
  predicate InStep(l: Limits, w: World, immediate: bool, increment: nat) {
    SendsNow(l, w, immediate, increment) || (0 < w.counter + increment <==> 0 < w.now)
  }

  ghost predicate Next(l: Limits, w: World, s: Step, v: World) {
    match s
    case GenerateStep(immediate, increment) =>
      InStep(l, w, immediate, increment) && v == Generate(l, w, immediate, increment)
    case PiggybackStep => v == Piggyback(w)
    case TimeoutStep => w.now in w.timers && v == Timeout(l, w)
    case NackStep => v == Piggyback(w).(oowDrop := false)
    case ImplicitAckStep(packets) => v == w.(implicitlyAcked := w.implicitlyAcked + packets)
    case OowDropStep => v == w.(oowDrop := true)
    case TickStep(until) => w.now <= until && (forall e :: e in w.timers ==> until <= e) && v == w.(now := until)
  }

  ghost predicate IsRun(l: Limits, ws: seq<World>, steps: seq<Step>) {
    && |ws| == |steps| + 1
    && ws[0] == Initial(ws[0].now)
    && forall i :: 0 <= i < |steps| ==> Next(l, ws[i], steps[i], ws[i + 1])
  }

  /** At rest: something is owed iff the timer runs, less than the threshold is
      owed, and the running timer's event is pending. */
  ghost predicate Inv(l: Limits, w: World) {
    && w.triggerTime <= w.now
    && (w.counter == 0 <==> w.triggerTime == 0)
    && (w.counter == 0 || w.counter < AckThreshold(l))
    && (w.counter > 0 ==> (w.triggerTime + l.timeout) in w.timers)
    && (forall e :: e in w.timers ==> w.now <= e)
  }

  /** Exactly the calls that keep the counter and the timer in agreement. */
  lemma GenerateKeepsInvIff(l: Limits, w: World, immediate: bool, increment: nat)
    requires Inv(l, w)
    ensures Inv(l, Generate(l, w, immediate, increment)) <==> InStep(l, w, immediate, increment)
  {
    var v := Generate(l, w, immediate, increment);
    assert forall e :: e in w.timers ==> e in v.timers;
    if v.counter > 0 && w.triggerTime == 0 && !SendsNow(l, w, immediate, increment) {
      assert (w.now + l.timeout) in v.timers;
    }
  }

  /** The two ways to fall out of step. A zero increment on an empty counter starts a
      timer nothing is owed for; at time 0 what is owed gets a timer that looks
      stopped. */
  lemma ZeroIncrementStartsDeadTimer(l: Limits, now: nat)
    requires 0 < now && 0 < l.threshold
    ensures Inv(l, Initial(now)) && !Inv(l, Generate(l, Initial(now), false, 0))
    ensures Generate(l, Initial(now), false, 0).counter == 0 && Generate(l, Initial(now), false, 0).triggerTime == now
  {
  }

  lemma TimeZeroHidesTheTimer(l: Limits, increment: nat)
    requires 0 < increment < AckThreshold(l)
    ensures Inv(l, Initial(0)) && !Inv(l, Generate(l, Initial(0), false, increment))
    ensures var v := Generate(l, Initial(0), false, increment);
            v.counter == increment && v.triggerTime == 0 && l.timeout in v.timers
  {
  }

  /** After time 0 every call that counts a packet stays in step. */
  lemma CountingStaysInStep(l: Limits, w: World, immediate: bool, increment: nat)
    requires 0 < increment && 0 < w.now
    ensures InStep(l, w, immediate, increment)
  {
  }

  lemma TimeoutKeepsInv(l: Limits, w: World)
    requires Inv(l, w) && w.now in w.timers
    ensures Inv(l, Timeout(l, w))
  {
    var v := Timeout(l, w);
    assert forall e :: e in v.timers ==> e in w.timers;
    assert forall e :: e in w.timers && e != w.now ==> e in v.timers;
  }

  lemma PiggybackKeepsInv(l: Limits, w: World)
    requires Inv(l, w)
    ensures Inv(l, Piggyback(w))
  {
  }

  lemma StepKeepsInv(l: Limits, w: World, s: Step, v: World)
    requires Inv(l, w) && Next(l, w, s, v)
    ensures Inv(l, v)
  {
    match s
    case GenerateStep(immediate, increment) => GenerateKeepsInvIff(l, w, immediate, increment);
    case PiggybackStep => PiggybackKeepsInv(l, w);
    case TimeoutStep => TimeoutKeepsInv(l, w);
    case NackStep => PiggybackKeepsInv(l, w);
    case ImplicitAckStep(_) =>
    case OowDropStep =>
    case TickStep(_) =>
  }

  lemma {:induction false} EveryRunKeepsInv(l: Limits, ws: seq<World>, steps: seq<Step>, i: nat)
    requires IsRun(l, ws, steps) && i < |ws|
    ensures Inv(l, ws[i])
  {
    if i > 0 {
      EveryRunKeepsInv(l, ws, steps, i - 1);
      StepKeepsInv(l, ws[i - 1], steps[i - 1], ws[i]);
    }
  }

  /** A timeout sends an ACK iff it is the one the current timer is waiting for. */
  lemma OnlyTheCurrentTimerSends(l: Limits, w: World)
    requires Inv(l, w) && w.now in w.timers
    ensures Timeout(l, w).acksSent == w.acksSent + 1 <==> w.triggerTime != 0 && w.triggerTime + l.timeout == w.now
    ensures Timeout(l, w).acksSent == w.acksSent ==> Timeout(l, w) == w.(timers := w.timers - multiset{w.now})
  {
  }

  /** Something has been owed without a break since the timer was started. */
  ghost predicate StillOwed(w: World, trigger: nat) {
    0 < w.counter && w.triggerTime == trigger
  }

  lemma StepKeepsTimerWhileOwed(l: Limits, w: World, s: Step, v: World)
    requires Inv(l, w) && Next(l, w, s, v) && 0 < w.counter && 0 < v.counter
    ensures v.triggerTime == w.triggerTime
  {
  }

  lemma OwedIsOnTime(l: Limits, w: World)
    requires Inv(l, w) && 0 < w.counter
    ensures w.now <= w.triggerTime + l.timeout
  {
    assert (w.triggerTime + l.timeout) in w.timers;
  }

  lemma RunStep(l: Limits, ws: seq<World>, steps: seq<Step>, i: nat)
    requires IsRun(l, ws, steps) && i < |steps|
    ensures Inv(l, ws[i]) && Inv(l, ws[i + 1]) && Next(l, ws[i], steps[i], ws[i + 1])
  {
    EveryRunKeepsInv(l, ws, steps, i);
    EveryRunKeepsInv(l, ws, steps, i + 1);
  }

  /** Bounded delay: what is owed is acknowledged before the clock passes the
      trigger time plus the timeout. So if the clock has passed it, the counter has
      been cleared in between. */
  lemma {:induction false} OwedAcksLeaveInTime(l: Limits, ws: seq<World>, steps: seq<Step>, i: nat, j: nat)
    requires IsRun(l, ws, steps) && i <= j < |ws| && 0 < ws[i].counter
    requires forall k :: i <= k <= j ==> 0 < ws[k].counter
    ensures StillOwed(ws[j], ws[i].triggerTime) && ws[j].now <= ws[i].triggerTime + l.timeout
  {
    hide Inv, Next;
    if i < j {
      OwedAcksLeaveInTime(l, ws, steps, i, j - 1);
      RunStep(l, ws, steps, j - 1);
      assert 0 < ws[j - 1].counter && 0 < ws[j].counter;
      StepKeepsTimerWhileOwed(l, ws[j - 1], steps[j - 1], ws[j]);
    } else {
      EveryRunKeepsInv(l, ws, steps, j);
    }
    OwedIsOnTime(l, ws[j]);
  }

  /** A call sends an ACK exactly when one is asked for, unless the request is to be
      ignored while drops are reported, or when what is owed reaches twice the threshold.
      Otherwise it adds to what is owed and starts the timer unless that runs. */
  lemma AckLeavesIff(l: Limits, w: World, immediate: bool, increment: nat)
    ensures var v := Generate(l, w, immediate, increment);
            var asked := immediate && (!w.oowDrop || !l.ignoreArBit);
            if asked || 2 * l.threshold <= w.counter + increment then
              && v.acksSent == w.acksSent + 1 && v.counter == 0 && v.triggerTime == 0
              && v.implicitlyAcked == 0 && !v.oowDrop && v.timers == w.timers
            else
              && v.acksSent == w.acksSent && v.counter == w.counter + increment
              && v.implicitlyAcked == w.implicitlyAcked && v.oowDrop == w.oowDrop
              && (w.triggerTime != 0 ==> v.triggerTime == w.triggerTime && v.timers == w.timers)
              && (w.triggerTime == 0 ==> v.triggerTime == w.now && v.timers == w.timers + multiset{w.now + l.timeout})
  {
  }

  /** What the calls of a stretch of steps have counted. */
  function Counted(steps: seq<Step>): nat {
    if steps == [] then 0
    else
      var last := steps[|steps| - 1];
      Counted(steps[..|steps| - 1]) + if last.GenerateStep? then last.increment else 0
  }

  /** Nothing asks for an ACK, and nothing else takes from what is owed. */
  predicate OnlyCounts(s: Step) {
    (s.GenerateStep? && !s.immediate) || s.ImplicitAckStep? || s.OowDropStep? || s.TickStep?
  }

  lemma CountedSoFar(steps: seq<Step>, i: nat, j: nat)
    requires i < j <= |steps|
    ensures Counted(steps[i..j]) ==
              Counted(steps[i..j - 1]) + if steps[j - 1].GenerateStep? then steps[j - 1].increment else 0
  {
    var part := steps[i..j];
    assert part[..|part| - 1] == steps[i..j - 1];
  }

  lemma NothingCounted()
    ensures Counted([]) == 0
  {
  }

  lemma CountingStep(l: Limits, w: World, s: Step, v: World)
    requires Next(l, w, s, v) && OnlyCounts(s)
    ensures var sum := w.counter + if s.GenerateStep? then s.increment else 0;
            if s.GenerateStep? && 2 * l.threshold <= sum then v.acksSent == w.acksSent + 1 && v.counter == 0
            else v.acksSent == w.acksSent && v.counter == sum
  {
  }

  /** Coalescing over runs: from an empty counter on, with no ACK asked for, none goes
      out while fewer than twice the threshold are counted, and all of them are owed. */
  lemma {:induction false} AcksAreCoalesced(l: Limits, ws: seq<World>, steps: seq<Step>, i: nat, j: nat)
    requires IsRun(l, ws, steps) && i <= j < |ws| && ws[i].counter == 0
    requires forall k :: i <= k < j ==> OnlyCounts(steps[k])
    requires Counted(steps[i..j]) < 2 * l.threshold
    ensures ws[j].acksSent == ws[i].acksSent && ws[j].counter == Counted(steps[i..j])
  {
    hide Next, OnlyCounts, Counted;
    if i < j {
      CountedSoFar(steps, i, j);
      AcksAreCoalesced(l, ws, steps, i, j - 1);
      assert Next(l, ws[j - 1], steps[j - 1], ws[j - 1 + 1]) && OnlyCounts(steps[j - 1]);
      CountingStep(l, ws[j - 1], steps[j - 1], ws[j]);
    } else {
      NothingCounted();
      assert steps[i..j] == [];
    }
  }

  /** The call that makes it twice the threshold sends the ACK. */
  lemma ThresholdSendsAck(l: Limits, ws: seq<World>, steps: seq<Step>, i: nat, j: nat)
    requires IsRun(l, ws, steps) && i <= j < |steps| && ws[i].counter == 0
    requires forall k :: i <= k <= j ==> OnlyCounts(steps[k])
    requires Counted(steps[i..j]) < 2 * l.threshold <= Counted(steps[i..j + 1])
    ensures ws[j + 1].acksSent == ws[i].acksSent + 1 && ws[j + 1].counter == 0
  {
    AcksAreCoalesced(l, ws, steps, i, j);
    CountedSoFar(steps, i, j + 1);
    assert Next(l, ws[j], steps[j], ws[j + 1]);
    CountingStep(l, ws[j], steps[j], ws[j + 1]);
  }

  /** A piggyback takes off two per implicitly acknowledged packet, as far as they are
      owed, unless drops are to be reported; the timer stops exactly at nothing owed. */
  lemma PiggybackTakesTwo(w: World)
    ensures var v := Piggyback(w);
            && (w.oowDrop ==> v.counter == w.counter && v.implicitlyAcked == w.implicitlyAcked)
            && (!w.oowDrop ==>
                  && v.implicitlyAcked == 0
                  && (v.counter == w.counter - w.implicitlyAcked - w.implicitlyAcked
                      || (v.counter == 0 && w.counter <= w.implicitlyAcked + w.implicitlyAcked)))
            && v.triggerTime == (if v.counter == 0 then 0 else w.triggerTime)
            && v.acksSent == w.acksSent && v.timers == w.timers && v.oowDrop == w.oowDrop
  {
  }

  /** The counter is cleared only by an ACK that goes out or by a piggyback. */
  lemma ClearingMeansAcknowledging(l: Limits, w: World, s: Step, v: World)
    requires Inv(l, w) && Next(l, w, s, v) && 0 < w.counter && v.counter == 0
    ensures v.acksSent == w.acksSent + 1 || ((s.PiggybackStep? || s.NackStep?) && !w.oowDrop && w.counter <= 2 * w.implicitlyAcked)
  {
  }

  // ---------- The object ----------

  class AckCoalescingEngine {
    const limits: Limits
    var coalescingCounter: nat
    var timerTriggerTime: nat
    var implicitlyAckedCounter: nat
    var hasOowDrop: bool
    var now: nat
    ghost var timers: multiset<nat>
    ghost var acksSent: nat

    ghost function View(): World
      reads this
    {
      World(coalescingCounter, timerTriggerTime, implicitlyAckedCounter, hasOowDrop, now, timers, acksSent)
    }

    constructor (limits: Limits, now: nat)
      ensures this.limits == limits && View() == Initial(now)
    {
      this.limits, this.now := limits, now;
      coalescingCounter, timerTriggerTime, implicitlyAckedCounter, hasOowDrop := 0, 0, 0, false;
      timers, acksSent := multiset{}, 0;
    }

    method GenerateAckOrUpdateCoalescingState(immediateAckReq: bool, countIncrement: nat)
      modifies this
      ensures View() == Generate(limits, old(View()), immediateAckReq, countIncrement)
    {
      coalescingCounter := coalescingCounter + countIncrement;
      var immediate := immediateAckReq;
      if immediate && limits.ignoreArBit && hasOowDrop {
        immediate := false;
      }
      assert (immediate || coalescingCounter >= 2 * limits.threshold)
             == SendsNow(limits, old(View()), immediateAckReq, countIncrement);
      if immediate || coalescingCounter >= 2 * limits.threshold {
        TransmitACK();
      } else if timerTriggerTime == 0 {
        SetupAckCoalescingTimer();
      }
    }

    method TransmitACK()
      modifies this
      ensures View() == TransmitAck(old(View()))
    {
      coalescingCounter, timerTriggerTime, implicitlyAckedCounter := 0, 0, 0;
      // The ACK reports the out-of-window drops, if any.
      hasOowDrop := false;
      acksSent := acksSent + 1;
    }

    method SetupAckCoalescingTimer()
      modifies this
      ensures View() == old(View()).(triggerTime := now, timers := old(timers) + multiset{now + limits.timeout})
    {
      timerTriggerTime := now;
      timers := timers + multiset{now + limits.timeout};
    }

    method PiggybackAck()
      modifies this
      ensures View() == Piggyback(old(View()))
    {
      if !hasOowDrop {
        if coalescingCounter >= implicitlyAckedCounter * 2 {
          coalescingCounter := coalescingCounter - implicitlyAckedCounter * 2;
        } else {
          coalescingCounter := 0;
        }
        implicitlyAckedCounter := 0;
      }
      if coalescingCounter == 0 {
        timerTriggerTime := 0;
      }
    }

    method TransmitNACK()
      modifies this
      ensures View() == Piggyback(old(View())).(oowDrop := false)
    {
      PiggybackAck();
      hasOowDrop := false;
    }

    method HandleAckCoalescingTimeout()
      requires now in timers
      modifies this
      ensures View() == Timeout(limits, old(View()))
    {
      timers := timers - multiset{now};
      var elapsed := now - timerTriggerTime;
      if elapsed == limits.timeout && coalescingCounter > 0 {
        TransmitACK();
      }
    }
  }
}
