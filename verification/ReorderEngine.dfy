/**
 One connection of the buffer reorder engine as the object the program keeps:
 three in-order stages, the target state, and the RNR timers it schedules.
 Every method is proved to take exactly the step its specification in
 `InOrderStream` or `TargetOrder` takes, so the theorems there about all runs
 are theorems about this object.
 */
module ReorderEngine {
  import opened InOrderStream
  import opened TargetOrder

  datatype PacketType =
    | PtPullRequest | PtPushRequest | PtPushGrant | PtPullData
    | PtPushSolicitedData | PtPushUnsolicitedData
    | PtResync | PtAck | PtNack | PtBack | PtEack | PtInvalid

  /** Packets going to the ULP as target. */
  predicate IsRequest(p: PacketType) {
    p == PtPullRequest || p == PtPushSolicitedData || p == PtPushUnsolicitedData
  }

  /** Packets going to the ULP as initiator. */
  predicate IsCompletion(p: PacketType) {
    p == PtPullData || p == PtAck || p == PtNack
  }

  function Request(p: PacketType): RequestType
    requires IsRequest(p)
  {
    match p
    case PtPullRequest => PullRequest
    case PtPushSolicitedData => PushSolicitedData
    case PtPushUnsolicitedData => PushUnsolicitedData
  }

  /** Only push data is ever refused, and on the condition that the trace says. */
  lemma RefusalIsOfPushData(start: nat, w: World, r: nat, p: PacketType)
    requires IsRequest(p)
    ensures Insert(w, r, Request(p)).1 == FailedPrecondition ==> p == PtPushSolicitedData || p == PtPushUnsolicitedData
    ensures Inv(start, w) && r !in w.buffer ==>
              (Insert(w, r, Request(p)).1 == FailedPrecondition <==>
                 && (p == PtPushSolicitedData || p == PtPushUnsolicitedData)
                 && w.mode == Ordered && InRnr(w.trace) && r != Expected(start, w.trace))
  {
    hide Inv;
    if Inv(start, w) && r !in w.buffer {
      InsertIsRefusedIff(start, w, r, Request(p));
    }
  }

  class ConnectionReorder {
    const orderingMode: OrderingMode
    // Numbers the connection starts from.
    ghost const initiatorRsnStart: nat
    ghost const initiatorSsnStart: nat
    ghost const targetRsnStart: nat
    ghost const targetSsnStart: nat

    var nextInitiatorRsn: nat
    var nextTargetRsn: nat
    var nextTargetNetworkRsn: nat
    var nextInitiatorSsn: nat
    var nextTargetSsn: nat
    var inRnr: bool
    var rnrTimeout: nat
    var initiatorRsnBuffer: map<nat, PacketType>
    var targetRsnBuffer: map<nat, Transaction>
    var initiatorSsnBuffer: map<nat, nat>
    var targetSsnBuffer: map<nat, nat>

    // The simulation clock and the pending RNR timeout events.
    var now: nat
    ghost var timers: multiset<(nat, nat)>

    // What has happened: arrivals and callbacks of each stage.
    ghost var targetTrace: Trace
    ghost var completions: Arrivals<PacketType>
    ghost var grants: Arrivals<nat>
    ghost var pushRequests: Arrivals<nat>
    ghost var completionsOut: seq<(nat, PacketType)>
    ghost var grantsOut: seq<(nat, nat)>
    ghost var pushRequestsOut: seq<(nat, nat)>
    ghost var passedThrough: seq<(nat, PacketType)>

    ghost function Target(): World
      reads this`nextTargetRsn, this`nextTargetNetworkRsn, this`inRnr, this`rnrTimeout,
            this`targetRsnBuffer, this`now, this`timers, this`targetTrace
    {
      World(orderingMode, nextTargetRsn, nextTargetNetworkRsn, inRnr, rnrTimeout,
            targetRsnBuffer, now, timers, targetTrace)
    }

    /** Each stage is where its arrivals take it. */
    ghost predicate Valid()
      reads this`nextInitiatorRsn, this`initiatorRsnBuffer, this`completions, this`completionsOut,
            this`nextInitiatorSsn, this`initiatorSsnBuffer, this`grants, this`grantsOut,
            this`nextTargetSsn, this`targetSsnBuffer, this`pushRequests, this`pushRequestsOut
    {
      && OncePerNumber(initiatorRsnStart, completions)
      && OncePerNumber(initiatorSsnStart, grants)
      && OncePerNumber(targetSsnStart, pushRequests)
      && Stream(initiatorRsnStart, nextInitiatorRsn, initiatorRsnBuffer, completionsOut)
         == InOrderStream.Run(initiatorRsnStart, completions)
      && Stream(initiatorSsnStart, nextInitiatorSsn, initiatorSsnBuffer, grantsOut)
         == InOrderStream.Run(initiatorSsnStart, grants)
      && Stream(targetSsnStart, nextTargetSsn, targetSsnBuffer, pushRequestsOut)
         == InOrderStream.Run(targetSsnStart, pushRequests)
    }

    constructor (initiatorRsn: nat, targetRsn: nat, initiatorSsn: nat, targetSsn: nat, mode: OrderingMode)
      ensures Valid()
      ensures Target() == Initial(mode, targetRsn) && targetRsnStart == targetRsn
      ensures initiatorRsnStart == initiatorRsn && completions == Nothing
      ensures initiatorSsnStart == initiatorSsn && grants == Nothing
      ensures targetSsnStart == targetSsn && pushRequests == Nothing
      ensures passedThrough == []
    {
      orderingMode := mode;
      initiatorRsnStart, initiatorSsnStart := initiatorRsn, initiatorSsn;
      targetRsnStart, targetSsnStart := targetRsn, targetSsn;
      nextInitiatorRsn := initiatorRsn;
      nextInitiatorSsn := initiatorSsn;
      nextTargetRsn := targetRsn;
      nextTargetNetworkRsn := targetRsn;
      nextTargetSsn := targetSsn;
      inRnr, rnrTimeout := false, 0;
      initiatorRsnBuffer, targetRsnBuffer := map[], map[];
      initiatorSsnBuffer, targetSsnBuffer := map[], map[];
      now, timers := 0, multiset{};
      targetTrace := Empty;
      completions, grants, pushRequests := Nothing, Nothing, Nothing;
      completionsOut, grantsOut, pushRequestsOut, passedThrough := [], [], [], [];
    }

    /** What the sliding window guarantees about the packet: each number comes
        once per buffer, and types the engine does not handle never come. */
    ghost predicate Admissible(packetType: PacketType, rsn: nat, ssn: nat)
      reads this
    {
      && (IsRequest(packetType) ==> targetRsnStart <= rsn && rsn !in ArrivedSet(targetTrace))
      && (orderingMode == Ordered ==>
            && (IsCompletion(packetType) ==> initiatorRsnStart <= rsn && rsn !in Received(completions))
            && (packetType == PtPushGrant ==> initiatorSsnStart <= ssn && ssn !in Received(grants))
            && (packetType == PtPushRequest ==> targetSsnStart <= ssn && ssn !in Received(pushRequests))
            && (packetType != PtResync && packetType != PtInvalid && packetType != PtBack && packetType != PtEack))
    }

    method InsertPacket(packetType: PacketType, rsn: nat, ssn: nat) returns (status: Status)
      requires Valid() && Admissible(packetType, rsn, ssn)
      modifies this
      ensures Valid()
      ensures IsRequest(packetType) ==> (Target(), status) == Insert(old(Target()), rsn, Request(packetType))
      ensures !IsRequest(packetType) ==> Target() == old(Target()) && status == Ok
      ensures status == FailedPrecondition ==> packetType == PtPushSolicitedData || packetType == PtPushUnsolicitedData
      ensures Inv(targetRsnStart, old(Target())) ==>
                (status == FailedPrecondition <==>
                   && (packetType == PtPushSolicitedData || packetType == PtPushUnsolicitedData)
                   && orderingMode == Ordered && InRnr(old(targetTrace)) && rsn != Expected(targetRsnStart, old(targetTrace)))
      ensures completions == if orderingMode == Ordered
                                && (packetType == PtPullData || packetType == PtAck || packetType == PtNack)
                             then And(old(completions), rsn, packetType) else old(completions)
      ensures grants == if orderingMode == Ordered && packetType == PtPushGrant
                        then And(old(grants), ssn, rsn) else old(grants)
      ensures pushRequests == if orderingMode == Ordered && packetType == PtPushRequest
                              then And(old(pushRequests), ssn, rsn) else old(pushRequests)
      ensures passedThrough == if orderingMode == Unordered && !IsRequest(packetType)
                               then old(passedThrough) + [(rsn, packetType)] else old(passedThrough)
    {
      status := Ok;
      if IsRequest(packetType) {
        ghost var w := Target();
        status := InsertRequest(packetType, rsn);
        RefusalIsOfPushData(targetRsnStart, w, rsn, packetType);
      } else if orderingMode == Unordered {
        passedThrough := passedThrough + [(rsn, packetType)];
      } else {
        InsertInStage(packetType, rsn, ssn);
      }
    }

    method InsertInStage(packetType: PacketType, rsn: nat, ssn: nat)
      requires Valid() && Admissible(packetType, rsn, ssn)
      requires orderingMode == Ordered && !IsRequest(packetType)
      modifies this`nextInitiatorRsn, this`initiatorRsnBuffer, this`completions, this`completionsOut,
               this`nextInitiatorSsn, this`initiatorSsnBuffer, this`grants, this`grantsOut,
               this`nextTargetSsn, this`targetSsnBuffer, this`pushRequests, this`pushRequestsOut
      ensures Valid() && Target() == old(Target())
      ensures completions == if IsCompletion(packetType) then And(old(completions), rsn, packetType) else old(completions)
      ensures grants == if packetType == PtPushGrant then And(old(grants), ssn, rsn) else old(grants)
      ensures pushRequests == if packetType == PtPushRequest then And(old(pushRequests), ssn, rsn) else old(pushRequests)
    {
      hide Valid, Target, Received, ArrivedSet;
      match packetType
      case PtPullData | PtAck | PtNack => InsertCompletion(packetType, rsn);
      case PtPushGrant => InsertGrant(rsn, ssn);
      case PtPushRequest => InsertPushRequest(rsn, ssn);
    }

    method InsertRequest(packetType: PacketType, rsn: nat) returns (status: Status)
      requires IsRequest(packetType)
      modifies this`nextTargetRsn, this`targetRsnBuffer, this`targetTrace
      ensures (Target(), status) == Insert(old(Target()), rsn, Request(packetType))
    {
      status := Ok;
      targetRsnBuffer := targetRsnBuffer[rsn := Transaction(Request(packetType), At(0))];
      targetTrace := Then(targetTrace, Arrived(rsn));
      if orderingMode == Unordered {
        SendToUlpTarget(rsn);
      } else if rsn == nextTargetRsn {
        SendToUlpTarget(rsn);
        CheckTargetRsnBuffer();
      } else if inRnr && packetType != PtPullRequest {
        status := FailedPrecondition;
      }
    }

    method InsertCompletion(packetType: PacketType, rsn: nat)
      requires Valid() && initiatorRsnStart <= rsn && rsn !in Received(completions)
      modifies this`nextInitiatorRsn, this`initiatorRsnBuffer, this`completions, this`completionsOut
      ensures Valid() && completions == And(old(completions), rsn, packetType)
    {
      ghost var stage := Stream(initiatorRsnStart, nextInitiatorRsn, initiatorRsnBuffer, completionsOut);
      ArrivalContinuesRun(initiatorRsnStart, completions, rsn, packetType, stage);
      hide InOrderStream.Run, OncePerNumber, Received;
      completions := And(completions, rsn, packetType);
      if rsn == nextInitiatorRsn {
        nextInitiatorRsn := nextInitiatorRsn + 1;
        completionsOut := completionsOut + [(rsn, packetType)];
        var out;
        nextInitiatorRsn, initiatorRsnBuffer, out := Drain(nextInitiatorRsn, initiatorRsnBuffer,
          Stream(initiatorRsnStart, nextInitiatorRsn, initiatorRsnBuffer, completionsOut));
        completionsOut := completionsOut + out;
      } else {
        initiatorRsnBuffer := initiatorRsnBuffer[rsn := packetType];
      }
    }

    method InsertGrant(rsn: nat, ssn: nat)
      requires Valid() && initiatorSsnStart <= ssn && ssn !in Received(grants)
      modifies this`nextInitiatorSsn, this`initiatorSsnBuffer, this`grants, this`grantsOut
      ensures Valid() && grants == And(old(grants), ssn, rsn)
    {
      ghost var stage := Stream(initiatorSsnStart, nextInitiatorSsn, initiatorSsnBuffer, grantsOut);
      ArrivalContinuesRun(initiatorSsnStart, grants, ssn, rsn, stage);
      hide InOrderStream.Run, OncePerNumber, Received;
      grants := And(grants, ssn, rsn);
      if ssn == nextInitiatorSsn {
        grantsOut := grantsOut + [(ssn, rsn)];
        nextInitiatorSsn := nextInitiatorSsn + 1;
        var out;
        nextInitiatorSsn, initiatorSsnBuffer, out := Drain(nextInitiatorSsn, initiatorSsnBuffer,
          Stream(initiatorSsnStart, nextInitiatorSsn, initiatorSsnBuffer, grantsOut));
        grantsOut := grantsOut + out;
      } else {
        initiatorSsnBuffer := initiatorSsnBuffer[ssn := rsn];
      }
    }

    method InsertPushRequest(rsn: nat, ssn: nat)
      requires Valid() && targetSsnStart <= ssn && ssn !in Received(pushRequests)
      modifies this`nextTargetSsn, this`targetSsnBuffer, this`pushRequests, this`pushRequestsOut
      ensures Valid() && pushRequests == And(old(pushRequests), ssn, rsn)
    {
      ghost var stage := Stream(targetSsnStart, nextTargetSsn, targetSsnBuffer, pushRequestsOut);
      ArrivalContinuesRun(targetSsnStart, pushRequests, ssn, rsn, stage);
      hide InOrderStream.Run, OncePerNumber, Received;
      pushRequests := And(pushRequests, ssn, rsn);
      if ssn == nextTargetSsn {
        pushRequestsOut := pushRequestsOut + [(ssn, rsn)];
        nextTargetSsn := nextTargetSsn + 1;
        var out;
        nextTargetSsn, targetSsnBuffer, out := Drain(nextTargetSsn, targetSsnBuffer,
          Stream(targetSsnStart, nextTargetSsn, targetSsnBuffer, pushRequestsOut));
        pushRequestsOut := pushRequestsOut + out;
      } else {
        targetSsnBuffer := targetSsnBuffer[ssn := rsn];
      }
    }

    method SendToUlpTarget(rsn: nat)
      requires rsn in targetRsnBuffer
      modifies this`nextTargetRsn, this`targetRsnBuffer, this`targetTrace
      ensures Target() == Send(old(Target()), rsn)
    {
      targetRsnBuffer := targetRsnBuffer[rsn := targetRsnBuffer[rsn].(retryTime := Infinite)];
      targetTrace := Then(targetTrace, Delivered(rsn));
      if orderingMode == Ordered {
        nextTargetRsn := nextTargetRsn + 1;
      }
    }

    /** Walks the ordered buffer from the expected RSN; an iterator that skips a
        number no longer matches the expected RSN and ends the walk. */
    method CheckTargetRsnBuffer()
      requires orderingMode == Ordered
      modifies this`nextTargetRsn, this`targetRsnBuffer, this`targetTrace
      ensures Target() == SendRun(old(Target()))
    {
      var it := nextTargetRsn;
      while it in targetRsnBuffer
        invariant it == nextTargetRsn
        invariant SendRun(Target()) == SendRun(old(Target()))
        decreases NotInFlight(Target())
      {
        if targetRsnBuffer[it].retryTime.At? && targetRsnBuffer[it].retryTime.time <= now {
          ghost var w := Target();
          SendToUlpTarget(it);
          assert NotInFlight(Target()) == NotInFlight(w) - {it};
          it := it + 1;
        } else {
          break;
        }
      }
    }

    method RetryRnrNackedPacket(rsn: nat) returns (status: Status)
      requires rsn in targetRsnBuffer && targetRsnBuffer[rsn].packetType != PullRequest
      modifies this`nextTargetRsn, this`targetRsnBuffer, this`targetTrace
      ensures (Target(), status) == Retry(old(Target()), rsn)
    {
      status := Ok;
      if targetRsnBuffer[rsn].retryTime != Infinite {
        if orderingMode == Unordered {
          SendToUlpTarget(rsn);
        } else if rsn == nextTargetRsn {
          targetRsnBuffer := targetRsnBuffer[rsn := targetRsnBuffer[rsn].(retryTime := At(now))];
          CheckTargetRsnBuffer();
        } else if inRnr {
          status := FailedPrecondition;
        }
      }
    }

    /** A request is head of line iff it is the oldest one the ULP has not
        accepted; on an unordered connection every request is. */
    method IsHeadOfLineNetworkRequest(rsn: nat) returns (hol: bool)
      requires Inv(targetRsnStart, Target())
      ensures hol <==> orderingMode == Unordered || rsn == targetRsnStart + AckCount(targetTrace)
    {
      if orderingMode == Unordered {
        hol := true;
      } else {
        hol := rsn == nextTargetNetworkRsn;
      }
    }

    method HandleRnrNackFromUlp(rsn: nat, timeout: nat)
      requires rsn in targetRsnBuffer
      modifies this`nextTargetRsn, this`inRnr, this`rnrTimeout, this`targetRsnBuffer, this`timers, this`targetTrace
      ensures Target() == Nack(old(Target()), rsn, timeout)
    {
      if orderingMode == Ordered {
        if rsn < nextTargetRsn {
          nextTargetRsn := rsn;
        }
        inRnr := true;
        rnrTimeout := timeout;
      }
      ScheduleRetry(rsn, timeout);
    }

    /** Puts off the next delivery and schedules the timeout event for it. */
    method ScheduleRetry(rsn: nat, timeout: nat)
      requires rsn in targetRsnBuffer
      modifies this`targetRsnBuffer, this`timers, this`targetTrace
      ensures targetRsnBuffer == old(targetRsnBuffer)[rsn := old(targetRsnBuffer)[rsn].(retryTime := At(now + timeout))]
      ensures timers == old(timers) + multiset{(now + timeout, rsn)}
      ensures targetTrace == Then(old(targetTrace), Nacked(rsn, timeout))
    {
      var due := now + timeout;
      targetRsnBuffer := targetRsnBuffer[rsn := targetRsnBuffer[rsn].(retryTime := At(due))];
      timers := timers + multiset{(due, rsn)};
      targetTrace := Then(targetTrace, Nacked(rsn, timeout));
    }

    method HandleAckFromUlp(rsn: nat)
      modifies this`nextTargetNetworkRsn, this`inRnr, this`targetRsnBuffer, this`targetTrace
      ensures Target() == Ack(old(Target()), rsn)
    {
      targetRsnBuffer := targetRsnBuffer - {rsn};
      targetTrace := Then(targetTrace, Acked(rsn));
      if orderingMode == Ordered {
        nextTargetNetworkRsn := nextTargetNetworkRsn + 1;
        inRnr := false;
      }
    }

    /** Runs when the event queue pops the timeout event (now, rsn). */
    method HandleRnrTimeout(rsn: nat)
      requires (now, rsn) in timers
      modifies this`nextTargetRsn, this`targetRsnBuffer, this`timers, this`targetTrace
      ensures Target() == Timeout(old(Target()), rsn)
    {
      timers := timers - multiset{(now, rsn)};
      if rsn !in targetRsnBuffer {
        return;
      }
      if targetRsnBuffer[rsn].retryTime != At(now) {
        return;
      }
      if orderingMode == Unordered {
        SendToUlpTarget(rsn);
      } else {
        if rsn != nextTargetRsn {
          return;
        }
        CheckTargetRsnBuffer();
      }
    }

    /** The event queue moves the clock to its next event. */
    method Advance(until: nat)
      requires Enabled(targetRsnStart, Target(), TickStep(until))
      modifies this`now
      ensures Target() == old(Target()).(now := until)
    {
      now := until;
    }

    /** The timeout of the latest RNR NACK, as the caller will put it into the
        NACK it sends for packets refused while the connection is in RNR. */
    method GetRnrTimeout() returns (timeout: nat)
      requires Inv(targetRsnStart, Target())
      ensures orderingMode == Ordered ==> timeout == LatestTimeout(targetTrace)
    {
      timeout := rnrTimeout;
    }
  }
}
