# Verification of the Falcon NIC simulator's protocol core

A Dafny model of the stateful parts of the Falcon transport simulator, with proofs about all their inputs, runs and
reachable states. `dafny verify dfyconfig.toml` checks the whole project.

Each component that keeps state is modelled twice: as a value with its operations as functions, about which the theorems
are proved, and as a class with the source's own fields and loops, each of whose methods is proved to take exactly the
step of the corresponding function. Port selection keeps none and is methods on values; a bitmap is a class alone.
Pending simulator events are a multiset of times, or a count where their times do not matter.

| files | what they model |
|---|---|
| `InOrderStream`, `TargetOrder`, `ReorderEngine` | the buffer reorder engine: three sorting stages and the target side with RNR rewinds, retry times and stale timers |
| `Lists`, `SchedulerQueues`, `InterPacketPolicy`, `ConnectionScheduler`, `ConnectionTurns`, `WeightedRounds`, `BusyPollScheduler` | the connection scheduler: FIFO queues, phantom requests, eligibility, rotation lists, bounded waiting under round robin, exact shares under the weighted policy, and the nested loops of a turn |
| `SerialNumbers`, `RetransmissionQueues`, `RetransmissionScheduler` | sequence number comparison with wraparound, ordered retransmission queues and their two-level rotation |
| `Arbiter` | the weighted arbiter among the schedulers |
| `RateUpdateEngine` | the event flow of the rate update engine |
| `AckCoalescing` | the ACK coalescing counter and timer |
| `AdmissionControl` | token buckets and the solicitation window |
| `SwitchBuffer`, `PortSelection`, `Ipv6Trie` | the switch: ingress buffer accounting with PFC, weighted port choice, longest-prefix routing |
| `FalconBitmap` | the hole search in packet bitmaps |

## Where the code and its intent part

- Switch buffer: for a packet split between guarantee and pool, memory_management_unit.cc:390-398 sets the guarantee's
  occupancy to full before it computes the guarantee part of the packet's tag, so that part is zero and the check at
  line 684 fails when the packet is dequeued. Both rules are modelled, `AsWritten` and `AsIntended`;
  `SwitchBuffer.TagCoversIff` says exactly which packets differ and `SwitchBuffer.SplitPacketCannotBeReleased` gives one.
- ACK coalescing: a zero increment on an empty counter starts a timer that nothing is owed for, and at time 0 the
  trigger time equals the mark for "no timer" (`AckCoalescing.ZeroIncrementStartsDeadTimer`, `TimeZeroHidesTheTimer`).
  `AckCoalescing.GenerateKeepsInvIff` gives the exact condition, and runs are about calls that meet it. The callers in
  the repository pass an increment of 1 or 2 (falcon_protocol_packet_reliability_manager.cc:820-875 and 1973), which
  meets it at every time but 0 (`CountingStaysInStep`).
- Weighted policy: to put the request type behind the data type, a phantom marks it inactive, which forfeits whatever
  credits it has left (falcon_protocol_packet_type_based_connection_scheduler.cc:241-252). So with phantoms the request
  type can get less than its share (`WeightedRounds.PhantomLeavesRound`); all other types get theirs exactly
  (`WeightedRounds.RoundSharesExactly`).
- Sequence numbers: at distance exactly 2^31 both `SeqLT(a, b)` and `SeqLT(b, a)` hold (`SerialNumbers.TrichotomyIff`).
- Rate update engine: the event queue respects its size in all runs exactly if all thresholds lie within it; with any
  above it some run overflows (`RateUpdateEngine.QueueIsBounded`, `RateUpdateEngine.SomeRunOverflowsIff`).
- Port selection: the shares are exact only if the sum of the weights fits its 32-bit variable
  (`PortSelection.SharesAreExactIff`). When the sum is 0 modulo 2^32 - no options, only zero weights, two weights of
  2^31 - port_selection.cc:76 divides by zero. `PortSelection.SelectionIsFairIff` puts both together.
- Reorder engine: an ACK for an RSN that a NACK overtook moves the window past the next RSN
  (`TargetOrder.AckIsSoundIffNotOvertaken`), and nothing is ever delivered again
  (`TargetOrder.OvertakenAckStopsDelivery`). A state in which the ULP could give one is reachable
  (`TargetOrder.OvertakenRsnIsReached`); it must not.

## What is assumed of the surroundings

- Each RSN and SSN comes once per buffer (the sliding windows filter duplicates), and the ULP answers only what is in
  flight; on an ordered connection it accepts in RSN order and nothing that a NACK overtook.
- Congestion, admission and op-rate gates of the two packet schedulers do not change during one scheduling turn; they
  are functions of the connection and the packet. The arbiter asks a scheduler anew at each of its slots.
- Sequence numbers queued for retransmission at one time span less than 2^31; so an ordered set behaves as one whatever
  its internal search.
- The congestion control algorithm answers each event with a response for the same connection.
- A transaction reserves in the solicitation window once and refunds what it reserved; time does not run backwards.

## Model

| member | source | states |
|---|---|---|
| `InOrderStream.ReorderingSorts` | isekai/host/falcon/falcon_protocol_buffer_reorder_engine.cc:69-132 | whatever the arrival order of distinct numbers, a stage has released exactly the consecutive run from its start to the first number missing, each once and in order, and holds exactly the rest |
| `InOrderStream.ArrivalOrderIsInvisible` | isekai/host/falcon/falcon_protocol_buffer_reorder_engine.cc:69-132 | two arrival orders of the same packets leave a stage in the same state with the same callbacks made |
| `InOrderStream.ArriveSorts` | isekai/host/falcon/falcon_protocol_buffer_reorder_engine.cc:240-268 | one arrival keeps a stage sorting, with the run behind the expected number dragged along |
| `InOrderStream.Drain` | isekai/host/falcon/falcon_protocol_buffer_reorder_engine.cc:240-253 | the draining loop over the smallest buffered number releases the maximal run, as the recursive specification does |
| `TargetOrder.OrderedRunsDeliverInOrder` | isekai/host/falcon/falcon_protocol_buffer_reorder_engine.cc:208-238 | over every ordered run with rewinds: each delivery is the expected RSN, first deliveries are consecutive, the RNR flag and timeout are those of the last NACK, and the buffered RSNs below the next one are exactly the un-ACKed window, all in flight |
| `TargetOrder.DeliveriesAreAnsweredOneAtATime` | isekai/host/falcon/falcon_protocol_buffer_reorder_engine.cc:324-345 | in both ordering modes an RSN has at most one unanswered delivery, and has one exactly when its retry time is infinite |
| `TargetOrder.NoLostWakeup` | isekai/host/falcon/falcon_protocol_buffer_reorder_engine.cc:208-228 | what a connection waits for is in flight or has a timeout event pending at exactly its retry time, not in the past |
| `TargetOrder.RetriesAreOnTime` | isekai/host/falcon/falcon_protocol_buffer_reorder_engine.cc:299-316 | an RSN waiting for a retry time has been delivered again before the clock passes it, whatever stale timers and duplicates do |
| `TargetOrder.NackSetsRetryTime` | isekai/host/falcon/falcon_protocol_buffer_reorder_engine.cc:208-228 | in both modes a NACK puts its RSN off by exactly its timeout and schedules the event for that moment |
| `TargetOrder.NackedRsnSitsOutItsTimeout` | isekai/host/falcon/falcon_protocol_buffer_reorder_engine.cc:224-316 | in both modes no step delivers a NACKed RSN while the clock is below the time of the NACK plus its timeout, unless a duplicate asks for it |
| `TargetOrder.NackedRsnComesBack` | isekai/host/falcon/falcon_protocol_buffer_reorder_engine.cc:224-316 | once the clock has passed that moment it has been delivered again, on an ordered connection while it stays the RSN waited for |
| `TargetOrder.InsertIsRefusedIff` | isekai/host/falcon/falcon_protocol_buffer_reorder_engine.cc:98-108 | read off the trace: a new request is refused exactly when it is push data that is not expected on an ordered connection in RNR |
| `TargetOrder.RetryIsRefusedIff` | isekai/host/falcon/falcon_protocol_buffer_reorder_engine.cc:162-181 | a duplicate is refused exactly when it is neither in flight nor expected on an ordered connection in RNR |
| `TargetOrder.InsertDeliversIff` | isekai/host/falcon/falcon_protocol_buffer_reorder_engine.cc:53-109 | a new request is delivered at once exactly when it is expected or the connection is unordered |
| `TargetOrder.RetryDeliversIff` | isekai/host/falcon/falcon_protocol_buffer_reorder_engine.cc:162-181 | a duplicate is delivered exactly when its RSN is not in flight and is expected or the connection is unordered, and otherwise changes nothing |
| `TargetOrder.TypesAreKept` | isekai/host/falcon/falcon_protocol_buffer_reorder_engine.cc:91-95 | over whole runs a buffered request keeps the type it arrived with |
| `TargetOrder.UnorderedRunsKeepCounters` | isekai/host/falcon/falcon_protocol_buffer_reorder_engine.cc:208-238 | an unordered connection never moves its RSNs nor enters RNR |
| `TargetOrder.AckIsSoundIffNotOvertaken` | isekai/host/falcon/falcon_protocol_buffer_reorder_engine.cc:230-238 | accepting the oldest un-ACKed RSN keeps counters, buffer, retry times and history in agreement if and only if no NACK overtook it; else the connection is stalled |
| `TargetOrder.OvertakenAckStopsDelivery` | isekai/host/falcon/falcon_protocol_buffer_reorder_engine.cc:230-238 | after an ACK for an overtaken RSN nothing is delivered any more, whatever steps follow |
| `TargetOrder.OvertakenRsnIsReached` | isekai/host/falcon/falcon_protocol_buffer_reorder_engine.cc:208-238 | a run of five steps after which the oldest un-ACKed RSN is in flight and overtaken |
| `TargetOrder.EveryRunKeepsInv` | isekai/host/falcon/falcon_protocol_buffer_reorder_engine.cc:46-238 | the agreement of counters, buffer, retry times, pending timers and history holds in every reachable state |
| `TargetOrder.StepKeepsInv` | isekai/host/falcon/falcon_protocol_buffer_reorder_engine.cc:149-238 | every single operation keeps that agreement |
| `ReorderEngine.ConnectionReorder.constructor` | isekai/host/falcon/falcon_protocol_buffer_reorder_engine.cc:21-36 | a connection starts with empty buffers at the configured RSN and SSN |
| `ReorderEngine.ConnectionReorder.InsertPacket` | isekai/host/falcon/falcon_protocol_buffer_reorder_engine.cc:46-147 | each packet type goes to its own stage; requests take the step of the target specification, which refuses exactly push data that the trace does not expect in RNR; and the three in-order stages stay sorted |
| `ReorderEngine.ConnectionReorder.InsertRequest` | isekai/host/falcon/falcon_protocol_buffer_reorder_engine.cc:53-109 | a request is delivered, buffered or refused as the target specification says |
| `ReorderEngine.ConnectionReorder.InsertCompletion` | isekai/host/falcon/falcon_protocol_buffer_reorder_engine.cc:70-85 | a completion for the initiator is ordered by RSN |
| `ReorderEngine.ConnectionReorder.InsertGrant` | isekai/host/falcon/falcon_protocol_buffer_reorder_engine.cc:110-120 | a grant is ordered by SSN |
| `ReorderEngine.ConnectionReorder.InsertPushRequest` | isekai/host/falcon/falcon_protocol_buffer_reorder_engine.cc:122-132 | a push request is ordered by SSN |
| `ReorderEngine.ConnectionReorder.SendToUlpTarget` | isekai/host/falcon/falcon_protocol_buffer_reorder_engine.cc:324-338 | a delivery makes the RSN in flight and is recorded as such |
| `ReorderEngine.ConnectionReorder.CheckTargetRsnBuffer` | isekai/host/falcon/falcon_protocol_buffer_reorder_engine.cc:270-282 | the loop delivers the maximal run of RSNs that are due |
| `ReorderEngine.ConnectionReorder.RetryRnrNackedPacket` | isekai/host/falcon/falcon_protocol_buffer_reorder_engine.cc:149-182 | a duplicate of an RNR NACKed packet retries it when it is not in flight and it is its turn, and fails while the connection is in RNR |
| `ReorderEngine.ConnectionReorder.IsHeadOfLineNetworkRequest` | isekai/host/falcon/falcon_protocol_buffer_reorder_engine.cc:189-206 | true exactly for the oldest request the ULP has not accepted, and for all on an unordered connection |
| `ReorderEngine.ConnectionReorder.HandleRnrNackFromUlp` | isekai/host/falcon/falcon_protocol_buffer_reorder_engine.cc:208-228 | rewinds, records the retry time and schedules the timeout event for it |
| `ReorderEngine.ConnectionReorder.HandleAckFromUlp` | isekai/host/falcon/falcon_protocol_buffer_reorder_engine.cc:230-238 | drops the accepted RSN, advances the window and ends RNR |
| `ReorderEngine.ConnectionReorder.HandleRnrTimeout` | isekai/host/falcon/falcon_protocol_buffer_reorder_engine.cc:299-316 | a timeout delivers only if it is the one recorded for its RSN and it is its turn |
| `ReorderEngine.ConnectionReorder.GetRnrTimeout` | isekai/host/falcon/falcon_protocol_buffer_reorder_engine.cc:318-322 | the timeout of the latest NACK |
| `SchedulerQueues.PacketsLeaveInOrder` | isekai/host/falcon/falcon_protocol_base_connection_scheduler.cc:183-238 | over whole runs what has left any queue is the beginning of what entered it, in order; so solicited and unsolicited data of an ordered connection leave in transaction order whatever the gates do |
| `SchedulerQueues.DataFollowsEarlierRequests` | isekai/host/falcon/falcon_protocol_base_connection_scheduler.cc:418-453 | unsolicited data of an ordered connection leaves only after every request queued before its phantom |
| `SchedulerQueues.CountersCountEligiblePackets` | isekai/host/falcon/falcon_protocol_base_connection_scheduler.cc:461-468 | in every reachable state the counter of a packet type is the number of eligible entries queued over all connections |
| `SchedulerQueues.QueuesHoldTheirKinds` | isekai/host/falcon/falcon_protocol_base_connection_scheduler.cc:113-159 | in every reachable state each queue holds only its own kinds of packets, named one by one |
| `SchedulerQueues.NewPacketGoesToTheTail` | isekai/host/falcon/falcon_protocol_base_connection_scheduler.cc:113-238 | a new packet is appended to the queue of its kind, with its phantom or its solicited data on an ordered connection, and no other queue changes |
| `SchedulerQueues.EveryRunKeepsInv` | isekai/host/falcon/falcon_protocol_base_connection_scheduler.cc:85-241 | queues, eligibility flags, counters and history agree in every reachable state |
| `SchedulerQueues.StepKeepsInv` | isekai/host/falcon/falcon_protocol_base_connection_scheduler.cc:376-453 | connecting, enqueueing, serving a phantom and sending each keep that agreement |
| `InterPacketPolicy.ComputeSettles` | isekai/host/falcon/falcon_protocol_inter_packet_type_weighted_round_robin_policy.cc:99-123 | a new round gives each type its credits, activates exactly the types with eligible packets, and makes the total the sum of the credits |
| `InterPacketPolicy.CreditsCoverPackets` | isekai/host/falcon/falcon_protocol_inter_packet_type_weighted_round_robin_policy.cc:103-113 | a credit stands for up to 64 eligible packets and the last one for at least one |
| `InterPacketPolicy.UpdateSettles` | isekai/host/falcon/falcon_protocol_inter_packet_type_weighted_round_robin_policy.cc:81-97 | after a turn active types hold credits, credits stay within the counters, and after a blocked turn every type with eligible packets is active |
| `InterPacketPolicy.UpdateRedealsIff` | isekai/host/falcon/falcon_protocol_inter_packet_type_weighted_round_robin_policy.cc:81-97 | a new round is dealt exactly when the turn was blocked or no credits are left; otherwise the credits stay and just the spent types leave the list |
| `InterPacketPolicy.SelectKeepsBooks` | isekai/host/falcon/falcon_protocol_inter_packet_type_weighted_round_robin_policy.cc:27-54 | a selection keeps the books and leaves the type it picks with fewer credits than eligible packets |
| `InterPacketPolicy.SelectSpendsOneCredit` | isekai/host/falcon/falcon_protocol_inter_packet_type_weighted_round_robin_policy.cc:27-54 | none is selected exactly when no packet is eligible; else the front of the list goes to the back and exactly one credit, its own, is spent |
| `InterPacketPolicy.MarkActiveSettles` | isekai/host/falcon/falcon_protocol_inter_packet_type_weighted_round_robin_policy.cc:56-63 | activation deals a round when no credits are left, changes nothing otherwise, and leaves the books settled |
| `InterPacketPolicy.MarkInactiveKeepsBooks` | isekai/host/falcon/falcon_protocol_inter_packet_type_weighted_round_robin_policy.cc:65-79 | a type that goes inactive leaves the books balanced |
| `InterPacketPolicy.MarkInactiveForfeits` | isekai/host/falcon/falcon_protocol_inter_packet_type_weighted_round_robin_policy.cc:65-79 | that type is inactive and its credits are gone, from the total as well; every other type is as it was |
| `InterPacketPolicy.InterPacketTypePolicy.constructor` | isekai/host/falcon/falcon_protocol_inter_packet_type_round_robin_policy.cc:13-23 | all packet types start inactive and without credits |
| `InterPacketPolicy.InterPacketTypePolicy.SelectPacketTypeBasedQueueType` | isekai/host/falcon/falcon_protocol_inter_packet_type_weighted_round_robin_policy.cc:27-54 | serves the front of the active list, sends it to the back and, with weights, spends one of its credits; none without active types or credits |
| `InterPacketPolicy.InterPacketTypePolicy.MarkPacketTypeBasedQueueTypeActive` | isekai/host/falcon/falcon_protocol_inter_packet_type_round_robin_policy.cc:39-49 | round robin puts the type at the back of the active list; the weighted policy starts a round iff no credits are left |
| `InterPacketPolicy.InterPacketTypePolicy.MarkPacketTypeBasedQueueTypeInactive` | isekai/host/falcon/falcon_protocol_inter_packet_type_weighted_round_robin_policy.cc:65-79 | an active type leaves the active list and, with weights, forfeits its credits |
| `InterPacketPolicy.InterPacketTypePolicy.ComputePerPacketCredits` | isekai/host/falcon/falcon_protocol_inter_packet_type_weighted_round_robin_policy.cc:99-123 | the loop over the types deals the credits of a round |
| `InterPacketPolicy.InterPacketTypePolicy.UpdatePolicyState` | isekai/host/falcon/falcon_protocol_inter_packet_type_weighted_round_robin_policy.cc:81-97 | the loop drops spent types and then starts a round if one is due |
| `ConnectionScheduler.SelectKeepsTurn` | isekai/host/falcon/falcon_protocol_packet_type_based_connection_scheduler.cc:123-148 | picking a packet type keeps lists, queues and credits in agreement within a turn |
| `ConnectionScheduler.EnqueueKeepsInv` | isekai/host/falcon/falcon_protocol_packet_type_based_connection_scheduler.cc:54-64 | enqueueing keeps them in agreement: a connection with an eligible entry of a type is on that type's active list, an active one has a non-empty queue, and under round robin a type is active iff one of its connections is |
| `ConnectionScheduler.SendKeepsSchedulerInv` | isekai/host/falcon/falcon_protocol_packet_type_based_connection_scheduler.cc:198-228 | sending a packet keeps them in agreement |
| `ConnectionScheduler.ServeKeepsSchedulerInv` | isekai/host/falcon/falcon_protocol_packet_type_based_connection_scheduler.cc:230-253 | serving a phantom keeps them in agreement |
| `ConnectionScheduler.ConnectKeepsSchedulerInv` | isekai/host/falcon/falcon_protocol_packet_type_based_connection_scheduler.cc:44-52 | a new connection keeps them in agreement |
| `ConnectionScheduler.BlockedTurnSettles` | isekai/host/falcon/falcon_protocol_packet_type_based_connection_scheduler.cc:123-148 | a turn that found nothing ends with the books settled and, with weights, a round in which every type with eligible packets is active |
| `ConnectionScheduler.StuckListsMeanIdle` | isekai/host/falcon/falcon_protocol_packet_type_based_connection_scheduler.cc:67-119 | if the active lists of all types with eligible packets are stuck, no head packet of any queue of any connection can be sent |
| `ConnectionScheduler.FullRoundMeansIdle` | isekai/host/falcon/falcon_protocol_packet_type_based_connection_scheduler.cc:67-119 | a vain round over a list that holds every type with eligible packets means that no head packet of any queue can be sent |
| `ConnectionScheduler.IdleMeansBlocked` | isekai/host/falcon/falcon_protocol_packet_type_based_connection_scheduler.cc:86-117 | then every packet at the head of a queue waits for its grant or phantom or is held back by a gate, and no phantom is at a head |
| `ConnectionScheduler.PhantomPutsDataFirst` | isekai/host/falcon/falcon_protocol_packet_type_based_connection_scheduler.cc:230-253 | under round robin the request type goes to the end of the list behind the data type when a phantom is served |
| `ConnectionScheduler.AddKeepsSchedulerInv` | isekai/host/falcon/falcon_protocol_packet_type_based_connection_scheduler.cc:54-64 | adding a packet and marking its connection and type active keeps queues, lists and credits in agreement |
| `ConnectionScheduler.EligiblePacketsAreWork` | isekai/host/falcon/falcon_protocol_packet_type_based_connection_scheduler.cc:256-258 | while an eligible packet is queued anywhere the policy reports work, and with weights only then |
| `ConnectionScheduler.ServeConsumesPhantom` | isekai/host/falcon/falcon_protocol_base_connection_scheduler.cc:418-453 | serving a phantom leaves strictly fewer of them, which is why the recursion after a phantom ends |
| `BusyPollScheduler.IntraPacketTypePolicy.InitConnection` | isekai/host/falcon/falcon_protocol_intra_packet_type_round_robin_policy.cc:23-35 | a new connection joins the inactive list of every packet type and nothing else changes |
| `BusyPollScheduler.IntraPacketTypePolicy.SelectConnection` | isekai/host/falcon/falcon_protocol_intra_packet_type_round_robin_policy.cc:37-56 | the front of the type's active list is served and goes to the back |
| `BusyPollScheduler.IntraPacketTypePolicy.MarkConnectionActive` | isekai/host/falcon/falcon_protocol_intra_packet_type_round_robin_policy.cc:58-74 | the connection moves to the back of the active list unless it is there |
| `BusyPollScheduler.IntraPacketTypePolicy.MarkConnectionInactive` | isekai/host/falcon/falcon_protocol_intra_packet_type_round_robin_policy.cc:76-91 | the connection moves to the inactive list unless it is there |
| `BusyPollScheduler.Scheduler.InitConnectionSchedulerQueues` | isekai/host/falcon/falcon_protocol_packet_type_based_connection_scheduler.cc:44-52 | fails exactly for a known connection, which it leaves alone, and keeps the agreement |
| `BusyPollScheduler.Scheduler.AddPacketToQueue` | isekai/host/falcon/falcon_protocol_base_connection_scheduler.cc:85-241 | queues, phantom, eligibility and counter change as the specification says for each packet type and ordering mode |
| `BusyPollScheduler.Scheduler.EnqueuePacket` | isekai/host/falcon/falcon_protocol_packet_type_based_connection_scheduler.cc:54-64 | enqueues and keeps queues, lists and credits in agreement |
| `BusyPollScheduler.Scheduler.SchedulePacket` | isekai/host/falcon/falcon_protocol_packet_type_based_connection_scheduler.cc:198-228 | sends the head of the queue and restores the agreement; the new state is that of one service, and with weights the round goes on with the same credits while any are left |
| `BusyPollScheduler.Scheduler.UpdatePolicyStates` | isekai/host/falcon/falcon_protocol_packet_type_based_connection_scheduler.cc:213-228 | an emptied queue takes its connection, and a type without connections its type, off the active lists |
| `BusyPollScheduler.Scheduler.HandlePhantomRequest` | isekai/host/falcon/falcon_protocol_packet_type_based_connection_scheduler.cc:230-253 | the data behind the phantom becomes eligible and active, the phantom leaves, and the agreement is restored |
| `BusyPollScheduler.Scheduler.AttemptHead` | isekai/host/falcon/falcon_protocol_packet_type_based_connection_scheduler.cc:86-117 | serves a phantom, sends a packet all gates let through, and otherwise changes nothing and reports a head that is stuck |
| `BusyPollScheduler.Scheduler.PickCandidateConnection` | isekai/host/falcon/falcon_protocol_packet_type_based_connection_scheduler.cc:150-168 | returns each connection of the list once, starting where the rotation stands, and then none |
| `BusyPollScheduler.Scheduler.PickCandidatePacketType` | isekai/host/falcon/falcon_protocol_packet_type_based_connection_scheduler.cc:123-148 | returns each active type once while credits last, and ends the round with settled books |
| `BusyPollScheduler.Scheduler.TryConnections` | isekai/host/falcon/falcon_protocol_packet_type_based_connection_scheduler.cc:79-117 | the inner loop ends; it finds nothing only if every active connection of the type is stuck |
| `BusyPollScheduler.Scheduler.TryRound` | isekai/host/falcon/falcon_protocol_packet_type_based_connection_scheduler.cc:67-119 | one round of the nested loops is exactly the service of the first connection of the first type that offers something, or a vain turn when none does, for both policies; with weights each type up to it spends a credit |
| `BusyPollScheduler.Scheduler.ScheduleWork` | isekai/host/falcon/falcon_protocol_packet_type_based_connection_scheduler.cc:67-119 | terminates, recursion after phantoms included; what it sends passed the gates and follows only phantoms. Under round robin it ends without a packet only if no head packet of any type and connection can be sent; with weights a turn that does nothing means so if it began with every type that has eligible packets listed, and it always ends so |
| `BusyPollScheduler.Scheduler.HasWork` | isekai/host/falcon/falcon_protocol_packet_type_based_connection_scheduler.cc:256-258 | work is reported as the policy counts it |
| `ConnectionTurns.EveryRunKeepsInv` | isekai/host/falcon/falcon_protocol_packet_type_based_connection_scheduler.cc:44-253 | over every run of connecting, enqueueing, services and vain turns under round robin, queues and lists agree |
| `ConnectionTurns.ServeKeepsInv` | isekai/host/falcon/falcon_protocol_packet_type_based_connection_scheduler.cc:67-119 | a service, of a packet or a phantom, keeps queues and lists in agreement |
| `ConnectionTurns.ServiceMovesUp` | isekai/host/falcon/falcon_protocol_packet_type_based_connection_scheduler.cc:123-168 | a service that goes to another brings a queue head that may be served closer to its turn |
| `ConnectionTurns.BoundedWait` | isekai/host/falcon/falcon_protocol_packet_type_based_connection_scheduler.cc:67-119 | over whole runs a queue head that may be served is passed over in no more turns than five for each connection ahead of its own and one for each packet type ahead of its own, whatever else connects, is enqueued and is served |
| `ConnectionTurns.WaitIsShort` | isekai/host/falcon/falcon_protocol_packet_type_based_connection_scheduler.cc:67-119 | nobody starves: from when a queue head may be served until it is, as long as it may be, fewer than five turns per connection known by then go by |
| `ConnectionTurns.OfferedIff` | isekai/host/falcon/falcon_protocol_packet_type_based_connection_scheduler.cc:86-117 | a queue head may be served exactly when it is a phantom, or no longer waits for grant or phantom and passes both gates |
| `WeightedRounds.EveryRunKeepsInv` | isekai/host/falcon/falcon_protocol_packet_type_based_connection_scheduler.cc:44-253 | over every run of connecting, enqueueing, services and vain turns with weights, queues, lists and credits agree |
| `WeightedRounds.SendLeavesRound` | isekai/host/falcon/falcon_protocol_packet_type_based_connection_scheduler.cc:198-228 | sending a packet leaves all credits and the total alone and drops just the spent types while credits are left, and deals a new round otherwise; a type emptied by it forfeits nothing |
| `WeightedRounds.PhantomLeavesRound` | isekai/host/falcon/falcon_protocol_packet_type_based_connection_scheduler.cc:230-253 | serving a phantom costs the request type all its credits; a new round is dealt exactly when that leaves none, or when none were left, in which case the request type loses its new share too |
| `WeightedRounds.SpentSpec` | isekai/host/falcon/falcon_protocol_inter_packet_type_weighted_round_robin_policy.cc:27-54 | after k selections of a turn just the first k types of the list have spent one credit each |
| `WeightedRounds.DealSharesOut` | isekai/host/falcon/falcon_protocol_inter_packet_type_weighted_round_robin_policy.cc:99-123 | a step that deals a new round gives each type one credit for every 64 eligible packets |
| `WeightedRounds.RoundSharesExactly` | isekai/host/falcon/falcon_protocol_inter_packet_type_weighted_round_robin_policy.cc:27-123 | over whole runs, between two deals a type whose heads pass the gates sends exactly as many packets as the first deal gave it credits, whatever else goes on; for the request type while it serves no phantom |
| `WeightedRounds.RoundsAreShort` | isekai/host/falcon/falcon_protocol_inter_packet_type_weighted_round_robin_policy.cc:27-54 | a round lasts at most as many turns as credits were dealt for it |
| `SerialNumbers.TrichotomyIff` | isekai/host/falcon/falcon_protocol_connection_scheduler_types.h:14-26 | exactly one of below, equal and above holds, and SeqGT is the converse of SeqLT, if and only if the numbers are not exactly half the number space apart; there each is below the other |
| `SerialNumbers.ComparesUnwrappedIff` | isekai/host/falcon/falcon_protocol_connection_scheduler_types.h:14-17 | for numbers at most 2^31 apart the wrapped comparison is that of the unwrapped numbers if and only if the first is not ahead by exactly 2^31 |
| `SerialNumbers.WindowOrder` | isekai/host/falcon/falcon_protocol_connection_scheduler_types.h:14-17 | inside a window of half the number space the comparison is a strict total order |
| `SerialNumbers.NotTransitive` | isekai/host/falcon/falcon_protocol_connection_scheduler_types.h:14-17 | without a bound on the span the comparison runs in a circle |
| `SerialNumbers.InsertSpec` | isekai/host/falcon/falcon_protocol_connection_scheduler_types.cc:57-60 | inserting fails just when the sequence number is queued already, adds exactly the packet otherwise, and keeps the set in order |
| `SerialNumbers.EraseSpec` | isekai/host/falcon/falcon_protocol_connection_scheduler_types.cc:68-72 | erasing removes the packet with that sequence number and no other |
| `SerialNumbers.IterationIsOldestFirst` | isekai/host/falcon/falcon_protocol_connection_scheduler_types.h:47-51 | even across wraparound a queue is in the order of the unwrapped numbers, so its head is its oldest packet |
| `RetransmissionQueues.EveryRunKeepsInv` | isekai/host/falcon/falcon_protocol_retransmission_scheduler.cc:64-198 | in every reachable state a connection is on the active list iff one of its queues is, a queue iff it holds a packet, and the lists are disjoint and duplicate-free |
| `RetransmissionQueues.EnqueueKeepsInv` | isekai/host/falcon/falcon_protocol_retransmission_scheduler.cc:64-133 | enqueueing keeps lists and queues in agreement |
| `RetransmissionQueues.DequeueKeepsInv` | isekai/host/falcon/falcon_protocol_retransmission_scheduler.cc:135-198 | dequeueing any packet keeps them in agreement |
| `RetransmissionQueues.TurnKeepsInv` | isekai/host/falcon/falcon_protocol_retransmission_scheduler.cc:201-269 | a turn keeps them in agreement, whether it sends or not |
| `RetransmissionQueues.QueuesHoldTheirKinds` | isekai/host/falcon/falcon_protocol_retransmission_scheduler.cc:84-112 | in every reachable state requests are in the request queue and all other packets in the data queue |
| `RetransmissionQueues.EnqueueAddsPacket` | isekai/host/falcon/falcon_protocol_retransmission_scheduler.cc:64-133 | enqueueing adds the packet to the queue of its kind unless its number is there already, and touches no other queue |
| `RetransmissionQueues.DequeueRemovesPacket` | isekai/host/falcon/falcon_protocol_retransmission_scheduler.cc:135-198 | dequeueing removes the packet with that number from the queue of its kind, and nothing else |
| `RetransmissionQueues.NothingSentIffNothingReady` | isekai/host/falcon/falcon_protocol_retransmission_scheduler.cc:201-269 | a turn comes to nothing if and only if the op rate or the other gates hold back the head of every non-empty queue of every connection, and then leaves all queues alone |
| `RetransmissionQueues.SentIsReady` | isekai/host/falcon/falcon_protocol_retransmission_scheduler.cc:244-264 | what a turn sends is the head of its queue and passed the gates |
| `RetransmissionQueues.SentIsOldest` | isekai/host/falcon/falcon_protocol_connection_scheduler_types.h:47-51 | what a turn sends is the oldest packet of its queue by unwrapped sequence number, even across wraparound |
| `RetransmissionQueues.BoundedWait` | isekai/host/falcon/falcon_protocol_retransmission_scheduler.cc:201-269 | over whole runs a connection that keeps work it may send is passed over in no more turns than there were connections ahead of it |
| `RetransmissionScheduler.InterConnectionRoundRobinPolicy.InitConnection` | isekai/host/falcon/falcon_protocol_inter_connection_round_robin_policy.cc:18-32 | fails exactly for a known connection, else joins the inactive list |
| `RetransmissionScheduler.InterConnectionRoundRobinPolicy.SelectConnection` | isekai/host/falcon/falcon_protocol_inter_connection_round_robin_policy.cc:34-49 | the front of the active list is served and goes to the back; none if it is empty |
| `RetransmissionScheduler.InterConnectionRoundRobinPolicy.MarkConnectionActive` | isekai/host/falcon/falcon_protocol_inter_connection_round_robin_policy.cc:51-64 | moves to the back of the active list unless active |
| `RetransmissionScheduler.InterConnectionRoundRobinPolicy.MarkConnectionInactive` | isekai/host/falcon/falcon_protocol_inter_connection_round_robin_policy.cc:66-79 | moves to the inactive list unless inactive |
| `RetransmissionScheduler.IntraConnectionRoundRobinPolicy.InitConnection` | isekai/host/falcon/falcon_protocol_intra_connection_round_robin_policy.cc:36-49 | both queues of a connection start inactive |
| `RetransmissionScheduler.IntraConnectionRoundRobinPolicy.SelectQueue` | isekai/host/falcon/falcon_protocol_intra_connection_round_robin_policy.h:44-61 | the front queue is served and goes to the back; none if no queue is active |
| `RetransmissionScheduler.IntraConnectionRoundRobinPolicy.MarkQueueActive` | isekai/host/falcon/falcon_protocol_intra_connection_round_robin_policy.h:63-79 | moves to the back of the active list unless active |
| `RetransmissionScheduler.IntraConnectionRoundRobinPolicy.MarkQueueInactive` | isekai/host/falcon/falcon_protocol_intra_connection_round_robin_policy.h:81-97 | moves to the inactive list unless inactive |
| `RetransmissionScheduler.ProtocolRetransmissionScheduler.InitConnectionSchedulerQueues` | isekai/host/falcon/falcon_protocol_retransmission_scheduler.cc:49-61 | fails exactly for a known connection and keeps the agreement |
| `RetransmissionScheduler.ProtocolRetransmissionScheduler.EnqueuePacket` | isekai/host/falcon/falcon_protocol_retransmission_scheduler.cc:64-133 | rejects a packet exactly when one with its sequence number is still queued; otherwise inserts it, activates queue and connection, and keeps the agreement |
| `RetransmissionScheduler.ProtocolRetransmissionScheduler.DequeuePacket` | isekai/host/falcon/falcon_protocol_retransmission_scheduler.cc:135-198 | removes the packet, takes an emptied queue off its connection's list and a connection without work off the list of connections, and keeps the agreement |
| `RetransmissionScheduler.ProtocolRetransmissionScheduler.TryQueues` | isekai/host/falcon/falcon_protocol_retransmission_scheduler.cc:222-267 | the inner loop sends the first queue head that may be sent, or turns the list once around and one further |
| `RetransmissionScheduler.ProtocolRetransmissionScheduler.ScheduleWork` | isekai/host/falcon/falcon_protocol_retransmission_scheduler.cc:201-269 | the nested loops end, send exactly the packet of the specification and report failure if and only if nothing could be sent |
| `Arbiter.EveryRunKeepsInv` | isekai/host/falcon/falcon_protocol_round_robin_arbiter.cc:38-85 | at most one arbitration event is pending, just when the flag is set, and never earlier than a tick after the last effective run |
| `Arbiter.OneEventIffScheduled` | isekai/host/falcon/falcon_protocol_round_robin_arbiter.cc:38-53 | the number of pending events is one or zero as the flag says, in every reachable state |
| `Arbiter.WorkLeavesEvent` | isekai/host/falcon/falcon_protocol_round_robin_arbiter.cc:38-85 | whenever a step ends with work to do exactly one event is pending, the one that was, or one due at once or a tick after the last effective run |
| `Arbiter.PendingRunIsOnTime` | isekai/host/falcon/falcon_protocol_round_robin_arbiter.cc:38-62 | a pending event stays until it runs, and the clock does not pass it |
| `Arbiter.EveryRunIsSpaced` | isekai/host/falcon/falcon_protocol_round_robin_arbiter.cc:57-62 | over every run of the arbiter two effective runs are at least as many ticks apart as there are runs from one to the other |
| `Arbiter.EveryRunServesInTurn` | isekai/host/falcon/falcon_protocol_round_robin_arbiter.cc:63-79 | a scheduler able to send at each of its slots in each of as many runs as there are slots is served in one of them; each run may meet other answers |
| `Arbiter.EveryRunSharesExactly` | isekai/host/falcon/falcon_protocol_round_robin_arbiter.cc:26-32 | over any stretch with the same schedulers backlogged, as long as the sum of their weights, each is served exactly its weight in runs |
| `Arbiter.RunTurnsReadySlots` | isekai/host/falcon/falcon_protocol_round_robin_arbiter.cc:63-79 | a run serves the first slot whose scheduler can send there and moves it to the back of the ready slots; the same scheduler may answer differently at each of its slots |
| `Arbiter.ProtocolRoundRobinArbiter.constructor` | isekai/host/falcon/falcon_protocol_round_robin_arbiter.cc:15-34 | the slots list each scheduler as often as its weight says |
| `Arbiter.ProtocolRoundRobinArbiter.ScheduleSchedulerArbiter` | isekai/host/falcon/falcon_protocol_round_robin_arbiter.cc:38-53 | schedules one event at the right time unless one is pending or there is no work |
| `Arbiter.ProtocolRoundRobinArbiter.DoArbitration` | isekai/host/falcon/falcon_protocol_round_robin_arbiter.cc:57-85 | without work only clears the flag; else records the run, moves the candidate past the slot served, and schedules the next event one tick later iff work is left |
| `Arbiter.ProtocolRoundRobinArbiter.RunSchedulers` | isekai/host/falcon/falcon_protocol_round_robin_arbiter.cc:62-79 | an effective run is recorded at the current time, and the candidate moves past the slot served |
| `Arbiter.ProtocolRoundRobinArbiter.Scan` | isekai/host/falcon/falcon_protocol_round_robin_arbiter.cc:63-79 | the loop asks each slot anew and ends at the slot after the first that can send, or where it began |
| `SwitchBuffer.RunsConserveCells` | isekai/fabric/memory_management_unit.cc:328-429 | over whole runs the free cells and the shared parts of live tags make up the pool, each slot's counters are the sums over its live tags within their limits, and every release check passes, provided no tag forgets cells |
| `SwitchBuffer.FlowingPacketIsCharged` | isekai/fabric/memory_management_unit.cc:339-398 | a packet of a slot that is not paused, holds less than its share of the free pool plus its guarantee, and fits the pool is charged to what is left of the guarantee and then to the pool |
| `SwitchBuffer.OtherPacketNeedsHeadroom` | isekai/fabric/memory_management_unit.cc:339-418 | any other packet pauses its slot and is charged to the headroom, or dropped exactly when the headroom lacks room |
| `SwitchBuffer.ReleaseEndsPfcIff` | isekai/fabric/memory_management_unit.cc:535-558 | a release ends PFC exactly for its own slot and exactly when that then holds less than its share of the free pool plus its guarantee |
| `SwitchBuffer.ReceiveKeepsInv` | isekai/fabric/memory_management_unit.cc:328-429 | a receipt, drop or split keeps the books and never overdraws the pool |
| `SwitchBuffer.TagCoversIff` | isekai/fabric/memory_management_unit.cc:390-398 | a tag accounts for all cells of its packet if and only if the packet is not split into a guarantee with room, for the code as written |
| `SwitchBuffer.SplitPacketCannotBeReleased` | isekai/fabric/memory_management_unit.cc:684-686 | a concrete packet that the code as written accepts and then cannot release, and that the intended rule can |
| `SwitchBuffer.ReleaseKeepsInv` | isekai/fabric/memory_management_unit.cc:672-711 | no check at a release fails and releasing keeps the books |
| `SwitchBuffer.ReleaseUndoesReceive` | isekai/fabric/memory_management_unit.cc:672-711 | releasing a packet right after it was received restores every counter |
| `SwitchBuffer.MemoryManagementUnit.ReceivedData` | isekai/fabric/memory_management_unit.cc:328-429 | triggers PFC if due, then charges the packet or drops it when the headroom cannot take it; both for the code as written and as intended |
| `SwitchBuffer.MemoryManagementUnit.CheckPfcTrigger` | isekai/fabric/memory_management_unit.cc:339-351 | PFC starts for a slot over its dynamic limit or when the pool cannot take the packet |
| `SwitchBuffer.MemoryManagementUnit.PlacePacket` | isekai/fabric/memory_management_unit.cc:353-428 | charges headroom, pool, guarantee or a split of the last two |
| `SwitchBuffer.MemoryManagementUnit.DequeuedPacket` | isekai/fabric/memory_management_unit.cc:528-578 | releases the packet's ingress charge |
| `SwitchBuffer.MemoryManagementUnit.IngressAccountingRelease` | isekai/fabric/memory_management_unit.cc:672-711 | takes back the charge and ends PFC when the slot is back under its limit |
| `Ipv6Trie.LinearScanIsLongest` | isekai/common/ipv6_trie.h:140-172 | the reference scan finds an entry iff one matches, and then a longest one |
| `Ipv6Trie.ScanIsDeepestLookup` | isekai/common/ipv6_trie.h:140-172 | the deepest stored prefix of an address is what the scan finds |
| `Ipv6Trie.MatchesIffSameUnderMask` | isekai/common/ipv6_trie.h:63-100 | for a mask without holes an address matches a prefix exactly if it agrees with the range wherever the mask is set; with holes that is sufficient only |
| `Ipv6Trie.IPTable.constructor` | isekai/common/ipv6_trie.h:177-178 | an empty table |
| `Ipv6Trie.IPTable.Insert` | isekai/common/ipv6_trie.h:63-138 | stores the data at the prefix given by the mask's leading ones, and fails and changes nothing if and only if that prefix is stored already |
| `Ipv6Trie.IPTable.Descend` | isekai/common/ipv6_trie.h:72-100 | the first loop walks to the node of the prefix or to the last node there is |
| `Ipv6Trie.IPTable.Extend` | isekai/common/ipv6_trie.h:112-133 | the second loop adds nodes for the rest of the prefix and disturbs no stored entry |
| `Ipv6Trie.IPTable.FindLongest` | isekai/common/ipv6_trie.h:140-172 | equals the linear scan over everything inserted |
| `Ipv6Trie.IPTable.Empty` | isekai/common/ipv6_trie.h:174 | true iff nothing was inserted |
| `AckCoalescing.EveryRunKeepsInv` | isekai/host/falcon/falcon_protocol_ack_coalescing_engine.cc:85-124 | at rest the counter is zero iff the timer is off, stays below twice the threshold, and while positive its timeout event is pending |
| `AckCoalescing.OwedAcksLeaveInTime` | isekai/host/falcon/falcon_protocol_ack_coalescing_engine.cc:318-355 | while something is owed the clock does not pass the trigger time plus the timeout |
| `AckCoalescing.OnlyTheCurrentTimerSends` | isekai/host/falcon/falcon_protocol_ack_coalescing_engine.cc:340-355 | a timeout sends an ACK if and only if it is the one of the running timer |
| `AckCoalescing.ClearingMeansAcknowledging` | isekai/host/falcon/falcon_protocol_ack_coalescing_engine.cc:268-295 | the counter is cleared only by an ACK or by a piggyback that covers it |
| `AckCoalescing.AckLeavesIff` | isekai/host/falcon/falcon_protocol_ack_coalescing_engine.cc:85-124 | a call sends an ACK exactly when one is asked for and not to be ignored, or when twice the threshold is owed, and else counts and starts the timer unless it runs |
| `AckCoalescing.AcksAreCoalesced` | isekai/host/falcon/falcon_protocol_ack_coalescing_engine.cc:85-124 | over whole runs no unrequested ACK leaves while less than twice the threshold has been counted, and all that was counted is owed |
| `AckCoalescing.ThresholdSendsAck` | isekai/host/falcon/falcon_protocol_ack_coalescing_engine.cc:109-118 | the call that completes twice the threshold sends one |
| `AckCoalescing.PiggybackTakesTwo` | isekai/host/falcon/falcon_protocol_ack_coalescing_engine.cc:255-297 | a piggyback takes off two per implicitly acknowledged packet, as far as owed, unless drops are to be reported |
| `AckCoalescing.GenerateKeepsInvIff` | isekai/host/falcon/falcon_protocol_ack_coalescing_engine.cc:85-124 | exactly which calls keep counter and timer in agreement: those that send, and those that either leave something owed after time 0 or leave nothing owed at time 0 |
| `AckCoalescing.ZeroIncrementStartsDeadTimer` | isekai/host/falcon/falcon_protocol_ack_coalescing_engine.cc:116-121 | a zero increment on an empty counter starts a timer that nothing is owed for |
| `AckCoalescing.TimeZeroHidesTheTimer` | isekai/host/falcon/falcon_protocol_ack_coalescing_engine.cc:318-338 | what is counted at time 0 gets a timeout event and a trigger time that reads as no timer |
| `AckCoalescing.CountingStaysInStep` | isekai/host/falcon/falcon_protocol_ack_coalescing_engine.cc:85-124 | after time 0 every call with a positive increment keeps counter and timer in agreement |
| `AckCoalescing.AckCoalescingEngine.GenerateAckOrUpdateCoalescingState` | isekai/host/falcon/falcon_protocol_ack_coalescing_engine.cc:85-124 | counts, and sends at the threshold or on request unless the request bit is to be ignored |
| `AckCoalescing.AckCoalescingEngine.TransmitACK` | isekai/host/falcon/falcon_protocol_ack_coalescing_engine.cc:132-165 | clears counter, timer and implicit count, and reports the drops |
| `AckCoalescing.AckCoalescingEngine.TransmitNACK` | isekai/host/falcon/falcon_protocol_ack_coalescing_engine.cc:170-253 | piggybacks and then reports the drops |
| `AckCoalescing.AckCoalescingEngine.PiggybackAck` | isekai/host/falcon/falcon_protocol_ack_coalescing_engine.cc:255-297 | takes off two per implicitly acknowledged packet unless drops are to be reported, and stops the timer at zero |
| `AckCoalescing.AckCoalescingEngine.SetupAckCoalescingTimer` | isekai/host/falcon/falcon_protocol_ack_coalescing_engine.cc:318-338 | records the trigger time and schedules its timeout |
| `AckCoalescing.AckCoalescingEngine.HandleAckCoalescingTimeout` | isekai/host/falcon/falcon_protocol_ack_coalescing_engine.cc:340-355 | sends an ACK exactly when the timeout matches the trigger time and something is owed |
| `RateUpdateEngine.FullQueueRefusesIff` | isekai/host/falcon/falcon_protocol_rate_update_engine.cc:730-756 | a queue at its size refuses every event if and only if all three thresholds lie within the size |
| `RateUpdateEngine.ReceiptIsAdmittedIff` | isekai/host/falcon/falcon_protocol_rate_update_engine.cc:451-535 | an ACK or NACK event is admitted exactly when its connection is idle and the queue is below the highest threshold it qualifies for; it then reports up to 1023 packets, and else nothing changes |
| `RateUpdateEngine.TimeoutIsAdmittedIff` | isekai/host/falcon/falcon_protocol_rate_update_engine.cc:545-589 | the same for timeouts, which report no packets, up to 6 retransmissions, and clear the account in any case |
| `RateUpdateEngine.EmptierQueueAdmitsMore` | isekai/host/falcon/falcon_protocol_rate_update_engine.cc:730-756 | what a fuller queue admits an emptier one does |
| `RateUpdateEngine.AccountsAreUnreported` | isekai/host/falcon/falcon_protocol_rate_update_engine.cc:345-360 | over whole runs a connection's account is what was acknowledged since its last event or timeout |
| `RateUpdateEngine.LastEventIsLastAdmission` | isekai/host/falcon/falcon_protocol_rate_update_engine.cc:305-320 | the time of the last event is when it was admitted |
| `RateUpdateEngine.EveryRunKeepsInv` | isekai/host/falcon/falcon_protocol_rate_update_engine.cc:629-720 | in every reachable state flags, queues, the scheduled mark and the pending calls agree |
| `RateUpdateEngine.FlagMeansExactlyOne` | isekai/host/falcon/falcon_protocol_rate_update_engine.cc:629-720 | a connection's flag is set if and only if exactly one event or response of it is in the pipeline |
| `RateUpdateEngine.HandlerNeverFails` | isekai/host/falcon/falcon_protocol_rate_update_engine.cc:666-720 | whenever a response handler runs there is a response, and the check that its flag was set succeeds |
| `RateUpdateEngine.AnsweredInOrder` | isekai/host/falcon/falcon_protocol_rate_update_engine.cc:643-720 | events are answered once each in the order of their admission, and all of them once no call is pending |
| `RateUpdateEngine.QueueIsBounded` | isekai/host/falcon/falcon_protocol_rate_update_engine.cc:730-756 | with thresholds within the size the queue stays within its size over whole runs |
| `RateUpdateEngine.SomeRunOverflowsIff` | isekai/host/falcon/falcon_protocol_rate_update_engine.cc:730-756 | some run makes the queue outgrow its size if and only if some threshold lies above the size |
| `RateUpdateEngine.TimeoutsNeedRoom` | isekai/host/falcon/falcon_protocol_rate_update_engine.cc:562-571 | because a timeout clears the packet count first, a queue filled to threshold 3 turns every timeout away |
| `RateUpdateEngine.BacklogShrinks` | isekai/host/falcon/falcon_protocol_rate_update_engine.cc:643-664 | each pending call works the backlog down by exactly one |
| `RateUpdateEngine.EngineDrains` | isekai/host/falcon/falcon_protocol_rate_update_engine.cc:643-720 | left alone the engine answers everything in a number of calls known beforehand |
| `RateUpdateEngine.ProtocolRateUpdateEngine.CanEnqueueEvent` | isekai/host/falcon/falcon_protocol_rate_update_engine.cc:730-756 | the banded admission rule |
| `RateUpdateEngine.ProtocolRateUpdateEngine.UpdateOutstandingEvent` | isekai/host/falcon/falcon_protocol_rate_update_engine.cc:332-343 | sets the flag and tells whether it changed |
| `RateUpdateEngine.ProtocolRateUpdateEngine.PrepareForEnqueueEvent` | isekai/host/falcon/falcon_protocol_rate_update_engine.cc:629-641 | the flag was clear; it is set, and processing is scheduled unless it is |
| `RateUpdateEngine.ProtocolRateUpdateEngine.AckOrNackReceived` | isekai/host/falcon/falcon_protocol_rate_update_engine.cc:451-535 | admits an event with the saturated packet count or leaves the count to accumulate |
| `RateUpdateEngine.ProtocolRateUpdateEngine.HandlePacketTimeoutRetransmitted` | isekai/host/falcon/falcon_protocol_rate_update_engine.cc:545-589 | clears the count whether or not an event is admitted |
| `RateUpdateEngine.ProtocolRateUpdateEngine.ProcessNextEvent` | isekai/host/falcon/falcon_protocol_rate_update_engine.cc:643-664 | moves one event to the responses and reschedules itself, or stops on an empty queue; its check never fails |
| `RateUpdateEngine.ProtocolRateUpdateEngine.HandleNextResponse` | isekai/host/falcon/falcon_protocol_rate_update_engine.cc:666-720 | takes the oldest response and clears its flag; its checks never fail |
| `AdmissionControl.AskingIsHarmless` | isekai/common/token_bucket.cc:25-41 | asking a bucket in between makes no difference to what it holds later |
| `AdmissionControl.RatesAreBounded` | isekai/common/token_bucket.cc:25-48 | between checks at times s and t a bucket gives at most its size and its income of floor(t/I) - floor(s/I) intervals |
| `AdmissionControl.RefillGivesTokens` | isekai/common/token_bucket.cc:25-41 | a refill gives exactly the income of the intervals that have ended, up to the bucket size |
| `AdmissionControl.AdmittedIffWithinLimits` | isekai/host/falcon/falcon_protocol_admission_control_manager.cc:113-277 | a transaction is let in exactly when it is within the limits of its policy, named one by one, and is then charged to each of them; otherwise it costs nothing |
| `AdmissionControl.EveryRunKeepsInv` | isekai/host/falcon/falcon_protocol_admission_control_manager.cc:234-294 | in every reachable state the solicited bytes are the unrefunded reservations and fit the window |
| `AdmissionControl.AdmitKeepsInv` | isekai/host/falcon/falcon_protocol_admission_control_manager.cc:113-153 | when all limiters agree, every check inside the reservation that follows succeeds; and the window holds |
| `AdmissionControl.WindowTestIff` | isekai/host/falcon/falcon_protocol_admission_control_manager.cc:156-168 | while the window is kept the wrapping test is the plain one; once overrun it lets nearly everything in |
| `AdmissionControl.TokenBucket.constructor` | isekai/common/token_bucket.cc:11-22 | a bucket starts full |
| `AdmissionControl.TokenBucket.AreTokensAvailable` | isekai/common/token_bucket.cc:25-41 | refills by whole intervals and answers |
| `AdmissionControl.TokenBucket.RequestTokens` | isekai/common/token_bucket.cc:44-48 | takes the tokens |
| `AdmissionControl.ProtocolAdmissionControlManager.MeetsRxWindowBasedAdmissionCriteria` | isekai/host/falcon/falcon_protocol_admission_control_manager.cc:156-168 | the window test on 64-bit words |
| `AdmissionControl.ProtocolAdmissionControlManager.MeetsAdmissionControlCriteria` | isekai/host/falcon/falcon_protocol_admission_control_manager.cc:113-153 | every limiter of the policy is asked and all must agree |
| `AdmissionControl.ProtocolAdmissionControlManager.ReserveAdmissionControlResource` | isekai/host/falcon/falcon_protocol_admission_control_manager.cc:195-232 | reserves with every limiter of the policy |
| `AdmissionControl.ProtocolAdmissionControlManager.RefundAdmissionControlResource` | isekai/host/falcon/falcon_protocol_admission_control_manager.cc:279-294 | gives the window back what was reserved |
| `PortSelection.SharesAreExactIff` | isekai/fabric/port_selection.cc:66-75 | each option is picked by exactly as many residues as its weight if and only if the sum of the weights fits 32 bits |
| `PortSelection.SelectionIsFairIff` | isekai/fabric/port_selection.cc:61-76 | a port is selected, and with the shares of the weights, if and only if the weights sum to a positive number of 32 bits |
| `PortSelection.NoOptionsDivideByZero` | isekai/fabric/port_selection.cc:66-76 | an empty list makes the sum, the divisor, 0 |
| `PortSelection.WrappedWeightsDivideByZero` | isekai/fabric/port_selection.cc:66-76 | so do two weights of 2^31, whose sum wraps around |
| `PortSelection.PicksOnce` | isekai/fabric/port_selection.cc:106-110 | no residue is in the stretch of two options |
| `PortSelection.FindOption` | isekai/fabric/port_selection.cc:113-120 | the subtracting loop finds the option with prefix_sum[i] <= m < prefix_sum[i+1] |
| `PortSelection.SelectOutputPort` | isekai/fabric/port_selection.cc:61-122 | the port of the option that the rotated hash, modulo the sum, falls to; none exactly when the 32-bit sum is 0, where the program divides by zero |
| `PortSelection.StagesAreBijections` | isekai/fabric/port_selection.cc:17-45 | each stage permutes the 32-bit hashes: turning back undoes the rotation, before it and after it |
| `PortSelection.StagesMoveBits` | isekai/fabric/port_selection.cc:17-45 | each bit moves up around the word by 4, 16, 8 or 12 places, by stage and direction, and not at all at the first stage |
| `FalconBitmap.Bitmap.FirstHoleIndex` | isekai/host/falcon/falcon_bitmap.cc:84-96 | -1 if and only if there is no hole, else the first unset bit, with a set bit above it |
| `FalconBitmap.NoneBeyond` | isekai/host/falcon/falcon_bitmap.cc:84-96 | if as many bits lead as are set at all, no other bit is set |
| `FalconBitmap.Bitmap.Set` | isekai/host/falcon/falcon_bitmap.cc:65-69 | one bit changes |

## Left out

- Wraparound of RSN and SSN: the reorder buffers compare them by plain order, so they are unbounded here.
- The map from connection ids to connections in the reorder engine and the ACK coalescing engine, with its not-found and already-exists errors: one connection each.
- Enqueueing in the connection scheduler sets the eligibility flags that the packets are created with (falcon_connection_state.cc:76-116); in the source they are set on creation.
- BusyPollScheduler.Scheduler.SchedulePacket: the admission reservation at the start of the span and its check; the gates are parameters here, and AdmissionControl proves that a reservation after a passed gate succeeds.
- SwitchBuffer.MemoryManagementUnit.DequeuedPacket: the egress counters with their checks, ECN marking and the queue idle time in the span.
- RateUpdateEngine.ProtocolRateUpdateEngine.HandleNextResponse: the update of the connection's rates from the response, and the call for a reduced retransmission timeout.
- Bounded waiting of single connections under the weighted policy; packet types get exact shares of short rounds instead.
- The fast connection and retransmission schedulers and the generic weighted policy they rest on, whose body is not part of this model.
- Packet reliability manager, resource manager and the congestion control algorithms: gates and parameters.
- The Gen2 and Gen3 variants of the engines.
- ScheduleWork of both schedulers is split into one method per loop and one per loop step, and DoArbitration of the arbiter into three methods, since each as one method is too much for the solver.
- Linked lists and stored iterators of the round-robin policies are sequences; erasing by iterator is removal of the element.
- The three in-order buffers of the reorder engine share one drain loop, which the source repeats per buffer.
- Connection states of the rate update engine and the two queues of its adapter are fields of one object; latencies, which only order the pending calls, are arbitrary.
- Reports of acknowledged packets lost to saturation or to a timeout in the rate update engine are not counted.
- Switch buffer: egress accounting, WRED and ECN marking, PFC frame timing and resumption of paused ports.
- Packets that routing deletes (network_routing.cc:101 and 117) are never released and stay charged.
- Unsigned wraparound of packet and byte counters, except where a theorem is about it; rounding of credits and time ratios in floating point.
- Sums of 64-bit quantities beyond the floating-point precision of the weighted policy's credit computation.
- The internal structure of B-trees and hash maps.
- Address parsing, configuration, statistics, histograms and logging.
