/**
 The connection scheduler as an object: the connection queues with their
 counters, the per-type rotation lists of connections, and the packet type
 policy, with the nested rotation loops of one scheduling turn.
 */
module BusyPollScheduler {
  import opened Lists
  import opened SchedulerQueues
  import opened InterPacketPolicy
  import opened ConnectionScheduler
  import ConnectionTurns
  import WeightedRounds

  /** Round robin among the connections of each packet type. */
  class IntraPacketTypePolicy {
    var policyState: Intra

    constructor ()
      ensures forall q: QueueType :: q in policyState && policyState[q] == Rotation(map[], [], [])
    {
      policyState := map[RequestQ := Rotation(map[], [], []), UnorderedRequestQ := Rotation(map[], [], []),
                         DataQ := Rotation(map[], [], []), GrantQ := Rotation(map[], [], []),
                         PullDataQ := Rotation(map[], [], [])];
      new;
      forall q: QueueType ensures q in policyState && policyState[q] == Rotation(map[], [], []) {
        assert q.RequestQ? || q.UnorderedRequestQ? || q.DataQ? || q.GrantQ? || q.PullDataQ?;
      }
    }

    method InitConnection(c: Conn)
      requires forall q: QueueType :: q in policyState && c !in policyState[q].isActive
      modifies this
      ensures forall q: QueueType :: q in policyState && policyState[q] == Join(old(policyState)[q], c)
    {
      for k := 0 to |AllTypes|
        invariant policyState.Keys == old(policyState).Keys
        invariant forall m :: 0 <= m < k ==> policyState[AllTypes[m]] == Join(old(policyState)[AllTypes[m]], c)
        invariant forall m :: k <= m < |AllTypes| ==> policyState[AllTypes[m]] == old(policyState)[AllTypes[m]]
      {
        var r := policyState[AllTypes[k]];
        policyState := policyState[AllTypes[k] := Rotation(r.isActive[c := false], r.active, r.inactive + [c])];
      }
      forall q: QueueType ensures policyState[q] == Join(old(policyState)[q], c) {
        var m := EveryTypeIsListed(q);
      }
    }

    method SelectConnection(q: QueueType) returns (r: Option<Conn>)
      requires q in policyState
      modifies this
      ensures old(policyState)[q].active == [] ==> r == None && policyState == old(policyState)
      ensures old(policyState)[q].active != [] ==>
                && r == Some(old(policyState)[q].active[0])
                && policyState == old(policyState)[q := Rotate(old(policyState)[q])]
    {
      var s := policyState[q];
      if s.active == [] {
        return None;
      }
      policyState := policyState[q := s.(active := s.active[1..] + [s.active[0]])];
      return Some(s.active[0]);
    }

    method MarkConnectionActive(c: Conn, q: QueueType)
      requires q in policyState && c in policyState[q].isActive
      modifies this
      ensures policyState == old(policyState)[q := Activate(old(policyState)[q], c)]
    {
      var s := policyState[q];
      if !s.isActive[c] {
        s := Rotation(s.isActive[c := true], s.active + [c], Remove(s.inactive, c));
      }
      policyState := policyState[q := s];
    }

    method MarkConnectionInactive(c: Conn, q: QueueType)
      requires q in policyState && c in policyState[q].isActive
      modifies this
      ensures policyState == old(policyState)[q := Deactivate(old(policyState)[q], c)]
    {
      var s := policyState[q];
      if s.isActive[c] {
        s := Rotation(s.isActive[c := false], Remove(s.active, c), s.inactive + [c]);
      }
      policyState := policyState[q := s];
    }

    method HasWork(q: QueueType) returns (b: bool)
      requires q in policyState
      ensures b <==> q in Busy(policyState)
    {
      b := policyState[q].active != [];
    }
  }

  /** A phantom at the head of a queue is a request queue's, and serving it leaves
      fewer of them. */
  lemma PhantomHeadServes(s: Queues, c: Conn, q: QueueType)
    requires SchedulerQueues.Inv(s) && Queue(s, c, q) != [] && Queue(s, c, q)[0].kind == Phantom
    ensures q == RequestQ && Phantoms(ServePhantom(s, c)) < Phantoms(s)
  {
    PhantomsWaitInRequestQueues(s, c, q);
    assert Popped(s, ServePhantom(s, c), c, RequestQ) && Fifo(s, c, q);
    ServeConsumesPhantom(s, c, ServePhantom(s, c));
  }

  /** How a pass over the connections of one packet type ended. */
  datatype Outcome = NothingSent | PacketSent | PhantomGone

  /** The types with eligible packets are all on the policy's list. */
  ghost predicate ListsEveryType(s: Queues, types: seq<QueueType>) {
    forall q: QueueType :: q in s.counts && s.counts[q] > 0 ==> q in types
  }

  lemma RoundRobinLists(s: Queues, intra: Intra, i: Inter)
    requires SchedulerInv(s, intra, i) && !i.weighted
    ensures ListsEveryType(s, i.rot.active)
  {
    forall q: QueueType | q in s.counts && s.counts[q] > 0 ensures q in i.rot.active {
      RoundRobinListsEveryType(s, intra, i, q);
    }
  }

  /** The policy after `k` selections of a turn that began with `i`. */
  ghost function Selected(i: Inter, k: nat): Inter
    requires Known(i) && k <= |i.rot.active|
  {
    if i.weighted then WeightedRounds.Spent(i, k) else ConnectionTurns.InterAt(i, k)
  }

  /** And when the turn has come back to the first type, or has run out of credits. */
  ghost function SelectedAll(i: Inter, counts: map<QueueType, int>): Inter
    requires Known(i) && GoodCounts(counts)
  {
    var n := |i.rot.active|;
    if i.weighted then Update(Select(WeightedRounds.Spent(i, n)).1, true, counts)
    else if n == 0 then i
    else ConnectionTurns.InterAt(i, 1)
  }

  /** One more selection. */
  lemma SelectsNext(i: Inter, k: nat, counts: map<QueueType, int>)
    requires Known(i) && k <= |i.rot.active| && GoodCounts(counts)
    ensures Known(Selected(i, k))
    ensures if k < |i.rot.active| then Select(Selected(i, k)).1 == Selected(i, k + 1)
            else Update(Select(Selected(i, k)).1, true, counts) == SelectedAll(i, counts)
  {
    if !i.weighted {
      ConnectionTurns.SelectAdvances(i, k);
    }
  }

  class Scheduler {
    var orderedConnections: map<Conn, bool>
    var connectionQueues: map<(Conn, QueueType), seq<WorkId>>
    var ineligiblePackets: set<(Conn, WorkId)>
    var packetCounts: map<QueueType, int>
    ghost var history: History
    const intra: IntraPacketTypePolicy
    const inter: InterPacketTypePolicy

    ghost function View(): Queues
      reads this
    {
      Queues(orderedConnections, connectionQueues, ineligiblePackets, packetCounts, history)
    }

    ghost function State(): ConnectionTurns.Turns
      reads this, intra, inter
    {
      ConnectionTurns.Turns(View(), intra.policyState, inter.View())
    }

    ghost predicate Valid()
      reads this, intra, inter
    {
      SchedulerInv(View(), intra.policyState, inter.View())
    }

    constructor (weighted: bool)
      ensures Valid() && fresh(intra) && fresh(inter)
      ensures View() == Initial() && inter.weighted == weighted
      ensures if weighted then WeightedRounds.IsInitial(State()) else ConnectionTurns.IsInitial(State())
    {
      orderedConnections, connectionQueues, ineligiblePackets, packetCounts := map[], map[], {}, NoPackets;
      history := Start;
      intra := new IntraPacketTypePolicy();
      inter := new InterPacketTypePolicy(weighted);
      new;
      InitialInv();
      assert View() == Initial();
      forall q: QueueType ensures TypeOk(View(), intra.policyState, q) {
        assert Backlog(View(), q) == {} && EligibleEntries(View(), q) == {};
      }
      assert Busy(intra.policyState) == {};
    }

    method InitConnectionSchedulerQueues(c: Conn, ordered: bool) returns (ok: bool)
      requires Valid()
      modifies this, intra
      ensures Valid()
      ensures ok <==> c !in old(orderedConnections)
      ensures View() == if ok then old(View()).(ordered := old(orderedConnections)[c := ordered]) else old(View())
      ensures State() == if ok then ConnectionTurns.AfterConnect(old(State()), c, ordered) else old(State())
    {
      if c in orderedConnections {
        return false;
      }
      ghost var s, before, i := View(), intra.policyState, inter.View();
      forall q: QueueType ensures q in before && c !in before[q].isActive {
        assert TypeOk(s, before, q);
      }
      orderedConnections := orderedConnections[c := ordered];
      intra.InitConnection(c);
      ConnectKeepsSchedulerInv(s, before, i, c, ordered, intra.policyState);
      assert intra.policyState == map q | q in before :: Join(before[q], c);
      return true;
    }

    method Enqueue(c: Conn, q: QueueType, w: WorkId)
      modifies this`connectionQueues
      ensures View() == Push(old(View()), c, q, w)
    {
      var queue := if (c, q) in connectionQueues then connectionQueues[(c, q)] else [];
      connectionQueues := connectionQueues[(c, q) := queue + [w]];
    }

    method UpdateOutstandingPacketCount(q: QueueType, change: int)
      modifies this`packetCounts
      ensures View() == Count(old(View()), q, change)
    {
      packetCounts := packetCounts[q := (if q in packetCounts then packetCounts[q] else 0) + change];
    }

    /** Puts a packet into the queue of its type and returns the type to mark
        active. The eligibility flags are those the packets are created with. */
    method AddPacketToQueue(c: Conn, rsn: int, kind: Kind) returns (q: QueueType)
      requires c in orderedConnections
      modifies this
      ensures (View(), q) == Add(old(View()), c, rsn, kind)
    {
      var isOrdered := orderedConnections[c];
      var work := WorkId(rsn, kind);
      history := Then(history, Enqueued(c, rsn, kind));
      q := QueueOf(isOrdered, kind);
      if isOrdered && kind == SolicitedData {
        ineligiblePackets := ineligiblePackets - {(c, work)};
        UpdateOutstandingPacketCount(q, 1);
      } else {
        Enqueue(c, q, work);
        if isOrdered && kind == UnsolicitedData {
          ineligiblePackets := ineligiblePackets + {(c, work)};
        } else {
          UpdateOutstandingPacketCount(q, 1);
        }
      }
      if isOrdered && kind == UnsolicitedData {
        q := RequestQ;
        UpdateOutstandingPacketCount(q, 1);
        Enqueue(c, q, WorkId(rsn, Phantom));
      }
      if isOrdered && kind == PushRequest {
        var data := WorkId(rsn, SolicitedData);
        ineligiblePackets := ineligiblePackets + {(c, data)};
        Enqueue(c, DataQ, data);
      }
    }

    method EnqueuePacket(c: Conn, rsn: int, kind: Kind)
      requires Valid() && Enabled(View(), AddStep(c, rsn, kind))
      modifies this, intra, inter
      ensures Valid()
      ensures View() == Add(old(View()), c, rsn, kind).0
      ensures ConnectionTurns.AddsPacket(old(State()), c, rsn, kind, State())
    {
      hide SchedulerInv, Add;
      ghost var s, before, i := View(), intra.policyState, inter.View();
      AddKeepsSchedulerInv(s, before, i, c, rsn, kind);
      var q := AddPacketToQueue(c, rsn, kind);
      inter.MarkPacketTypeBasedQueueTypeActive(q, packetCounts);
      intra.MarkConnectionActive(c, q);
    }

    method PopHead(c: Conn, q: QueueType)
      requires Queue(View(), c, q) != []
      modifies this`connectionQueues
      ensures View() == Pop(old(View()), c, q)
    {
      connectionQueues := connectionQueues[(c, q) := connectionQueues[(c, q)][1..]];
    }

    method IsEmpty(c: Conn, q: QueueType) returns (b: bool)
      ensures b <==> Queue(View(), c, q) == []
    {
      b := (c, q) !in connectionQueues || connectionQueues[(c, q)] == [];
    }

    method TakeHead(c: Conn, q: QueueType)
      requires Queue(View(), c, q) != []
      modifies this
      ensures View() == Send(old(View()), c, q)
    {
      history := Then(history, Sent(c, q, connectionQueues[(c, q)][0]));
      UpdateOutstandingPacketCount(q, -1);
      PopHead(c, q);
    }

    method UpdatePolicyStates(c: Conn, q: QueueType)
      requires q in intra.policyState && c in intra.policyState[q].isActive
      requires Known(inter.View()) && GoodCounts(packetCounts)
      modifies intra, inter
      ensures intra.policyState == IntraAfterSend(old(intra.policyState), View(), c, q)
      ensures inter.View() == InterAfterSend(old(inter.View()), intra.policyState, View(), c, q)
    {
      KnownStays(inter.View(), q, packetCounts);
      var empty := IsEmpty(c, q);
      if empty {
        intra.MarkConnectionInactive(c, q);
        var hasWork := intra.HasWork(q);
        if !hasWork {
          inter.MarkPacketTypeBasedQueueTypeInactive(q);
        }
      }
      inter.UpdatePolicyState(false, packetCounts);
    }

    /** Hands the head of the queue to the network and updates the policies. */
    method SchedulePacket(c: Conn, q: QueueType)
      requires CanLeave(View(), c, q) && TurnInv(View(), intra.policyState, inter.View())
      requires if inter.weighted then inter.View().credits[q] < packetCounts[q] else q in Busy(intra.policyState)
      modifies this, intra, inter
      ensures Valid()
      ensures View() == Send(old(View()), c, q)
      ensures ConnectionTurns.Served(old(View()), old(intra.policyState), old(inter.View()), c, q, State())
      ensures inter.weighted ==> WeightedRounds.RoundAfterSend(old(inter.View()), inter.View(), packetCounts)
    {
      ghost var x, y := intra.policyState, inter.View();
      if inter.weighted {
        WeightedRounds.SendLeavesRound(View(), x, y, c, q);
      }
      SendKeepsSchedulerInv(View(), intra.policyState, inter.View(), c, q, Send(View(), c, q));
      TakeHead(c, q);
      UpdatePolicyStates(c, q);
    }

    method PopPhantom(c: Conn)
      requires PhantomIsNext(View(), c)
      modifies this
      ensures View() == ServePhantom(old(View()), c)
    {
      var rsn := connectionQueues[(c, RequestQ)][0].rsn;
      history := Then(history, PhantomServed(c, rsn));
      ineligiblePackets := ineligiblePackets - {(c, WorkId(rsn, UnsolicitedData))};
      UpdateOutstandingPacketCount(DataQ, 1);
      PopHead(c, RequestQ);
      UpdateOutstandingPacketCount(RequestQ, -1);
    }

    method UpdatePolicyStatesAfterPhantom(c: Conn)
      requires DataQ in intra.policyState && c in intra.policyState[DataQ].isActive
      requires RequestQ in intra.policyState && c in intra.policyState[RequestQ].isActive
      requires Known(inter.View()) && GoodCounts(packetCounts)
      modifies intra, inter
      ensures intra.policyState == IntraAfterPhantom(old(intra.policyState), View(), c)
      ensures inter.View() == InterAfterPhantom(old(inter.View()), intra.policyState, View())
    {
      KnownStays(inter.View(), DataQ, packetCounts);
      inter.MarkPacketTypeBasedQueueTypeActive(DataQ, packetCounts);
      intra.MarkConnectionActive(c, DataQ);
      // The request type queues up behind the data type.
      KnownStays(inter.View(), RequestQ, packetCounts);
      inter.MarkPacketTypeBasedQueueTypeInactive(RequestQ);
      var empty := IsEmpty(c, RequestQ);
      if empty {
        intra.MarkConnectionInactive(c, RequestQ);
      }
      var hasWork := intra.HasWork(RequestQ);
      if hasWork {
        inter.MarkPacketTypeBasedQueueTypeActive(RequestQ, packetCounts);
      }
    }

    method HandlePhantomRequest(c: Conn)
      requires PhantomIsNext(View(), c) && TurnInv(View(), intra.policyState, inter.View())
      requires inter.weighted ==> inter.View().credits[RequestQ] < packetCounts[RequestQ]
      modifies this, intra, inter
      ensures Valid()
      ensures View() == ServePhantom(old(View()), c)
      ensures ConnectionTurns.Served(old(View()), old(intra.policyState), old(inter.View()), c, RequestQ, State())
    {
      ServeKeepsSchedulerInv(View(), intra.policyState, inter.View(), c, ServePhantom(View(), c));
      PopPhantom(c);
      UpdatePolicyStatesAfterPhantom(c);
      inter.UpdatePolicyState(false, packetCounts);
    }

    /** Looks at the head of one queue: serves a phantom, sends a packet that all
        gates let through, and leaves everything alone otherwise. */
    method AttemptHead(c: Conn, q: QueueType, g: Gates) returns (outcome: Outcome)
      requires TurnInv(View(), intra.policyState, inter.View()) && q in Busy(intra.policyState)
      requires inter.weighted ==> inter.View().credits[q] < packetCounts[q]
      requires Queue(View(), c, q) != []
      modifies this, intra, inter
      ensures outcome == NothingSent ==>
                && View() == old(View()) && inter.View() == old(inter.View())
                && intra.policyState == old(intra.policyState)
                && Stuck(View(), g, c, q)
      ensures outcome == PacketSent ==>
                Valid() && AfterSend(g, old(history), history) && history.past == old(history)
      ensures outcome == PhantomGone ==>
                && Valid() && AfterPhantoms(old(history), history) && history != old(history)
                && Phantoms(View()) < Phantoms(old(View()))
      ensures outcome != NothingSent ==>
                && ConnectionTurns.Offers(old(View()), g, c, q)
                && ConnectionTurns.Served(old(View()), old(intra.policyState), old(inter.View()), c, q, State())
    {
      hide SchedulerQueues.Inv, IntraInv, InterInTurn, SchedulerInv, Phantoms, ConnectionTurns.Served;
      var work := connectionQueues[(c, q)][0];
      if work.kind == Phantom {
        PhantomHeadServes(View(), c, q);
        HandlePhantomRequest(c);
        return PhantomGone;
      }
      if g.opRate(c) {
        if (c, work) !in ineligiblePackets && g.admits(c, work) {
          SchedulePacket(c, q);
          return PacketSent;
        }
      }
      return NothingSent;
    }

    /** The next connection of the rotation, or None after a full round. `before`
        are the lists when the round began, `m` is how many were tried since. */
    method PickCandidateConnection(q: QueueType, starting: Option<Conn>, ghost before: Intra, ghost m: nat)
      returns (candidate: Option<Conn>, started: Option<Conn>)
      requires q in before && before[q].active != [] && NoDuplicates(before[q].active) && m <= |before[q].active|
      requires intra.policyState == TurnedIntra(before, q, m)
      requires starting == if m == 0 then None else Some(before[q].active[0])
      modifies intra
      ensures if m < |before[q].active| then
                && candidate == Some(before[q].active[m]) && started == Some(before[q].active[0])
                && intra.policyState == TurnedIntra(before, q, m + 1)
              else
                candidate == None && intra.policyState == TurnedIntra(before, q, 1)
    {
      SelectionTurns(before, q, m);
      candidate := intra.SelectConnection(q);
      started := starting;
      if starting != None && candidate == starting {
        candidate := None;
      } else if starting == None {
        started := candidate;
      }
    }

    /** A pass that began with the lists `before` has found the first `m` connections
        stuck and changed nothing else. */
    ghost predicate MidPass(q: QueueType, g: Gates, s: Queues, before: Intra, i: Inter, m: nat)
      reads this, intra, inter
    {
      && q in before && m <= |before[q].active|
      && View() == s && inter.View() == i && intra.policyState == TurnedIntra(before, q, m)
      && forall j :: 0 <= j < m ==> Stuck(s, g, before[q].active[j], q)
    }

    /** The pass that began with the lists `before` has served the `m`-th connection. */
    ghost predicate ServedAt(q: QueueType, g: Gates, s: Queues, before: Intra, i: Inter, m: nat)
      reads this, intra, inter
    {
      && q in before && m < |before[q].active|
      && ConnectionTurns.Offers(s, g, before[q].active[m], q)
      && (forall j :: 0 <= j < m ==> Stuck(s, g, before[q].active[j], q))
      && ConnectionTurns.Served(s, TurnedIntra(before, q, m + 1), i, before[q].active[m], q, State())
    }

    /** Picks the next connection and looks at its head; None ends the pass. */
    method TryNextConnection(q: QueueType, starting: Option<Conn>, g: Gates,
                             ghost s: Queues, ghost before: Intra, ghost i: Inter, ghost m: nat)
      returns (outcome: Option<Outcome>, started: Option<Conn>)
      requires TurnInv(s, before, i) && q in Busy(before) && MidPass(q, g, s, before, i, m)
      requires i.weighted ==> i.credits[q] < s.counts[q]
      requires starting == if m == 0 then None else Some(before[q].active[0])
      modifies this, intra, inter
      ensures outcome == None ==>
                && View() == s && inter.View() == i && intra.policyState == TurnedIntra(before, q, 1)
                && TypeStuck(s, g, before[q], q)
      ensures outcome == Some(NothingSent) ==>
                && m < |before[q].active| && started == Some(before[q].active[0])
                && MidPass(q, g, s, before, i, m + 1)
      ensures outcome == Some(PacketSent) ==>
                Valid() && AfterSend(g, s.history, history) && history.past == s.history
      ensures outcome == Some(PhantomGone) ==>
                && Valid() && AfterPhantoms(s.history, history) && history != s.history
                && Phantoms(View()) < Phantoms(s)
      ensures outcome != None && outcome != Some(NothingSent) ==> ServedAt(q, g, s, before, i, m)
    {
      StartOfRound(s, before, q);
      var candidate;
      candidate, started := PickCandidateConnection(q, starting, before, m);
      if candidate == None {
        return None, started;
      }
      NextCandidateIsReady(s, before, i, q, m);
      var tried := AttemptHead(candidate.value, q, g);
      outcome := Some(tried);
    }

    /** One pass over the connections that are active for packet type `q`. */
    method TryConnections(q: QueueType, g: Gates) returns (outcome: Outcome, ghost m: nat)
      requires TurnInv(View(), intra.policyState, inter.View()) && q in Busy(intra.policyState)
      requires inter.weighted ==> inter.View().credits[q] < packetCounts[q]
      modifies this, intra, inter
      ensures outcome == NothingSent ==>
                && View() == old(View()) && inter.View() == old(inter.View())
                && intra.policyState == TurnedIntra(old(intra.policyState), q, 1)
                && TypeStuck(View(), g, old(intra.policyState)[q], q)
      ensures outcome == PacketSent ==>
                Valid() && AfterSend(g, old(history), history) && history.past == old(history)
      ensures outcome == PhantomGone ==>
                && Valid() && AfterPhantoms(old(history), history) && history != old(history)
                && Phantoms(View()) < Phantoms(old(View()))
      ensures outcome != NothingSent ==>
                ServedAt(q, g, old(View()), old(intra.policyState), old(inter.View()), m)
    {
      ghost var s, before, i := View(), intra.policyState, inter.View();
      m := 0;
      StartOfRound(s, before, q);
      var starting: Option<Conn> := None;
      while true
        invariant MidPass(q, g, s, before, i, m)
        invariant starting == if m == 0 then None else Some(before[q].active[0])
        decreases |before[q].active| - m
      {
        var tried;
        tried, starting := TryNextConnection(q, starting, g, s, before, i, m);
        if tried == None {
          return NothingSent, m;
        } else if tried.value != NothingSent {
          return tried.value, m;
        }
        m := m + 1;
      }
    }

    /** The next packet type of the policy, or None after a full round or when the
        credits are used up. `i` is the policy when the turn began, `k` is how many
        types were tried since. */
    method PickCandidatePacketType(starting: Option<QueueType>, ghost i: Inter, ghost k: nat)
      returns (candidate: Option<QueueType>, started: Option<QueueType>)
      requires TurnInv(View(), intra.policyState, inter.View())
      requires Known(i) && Agrees(i.rot) && (i.weighted ==> Settled(i, packetCounts))
      requires Known(inter.View()) && Picked(i, inter.View(), k)
      requires inter.View() == Selected(i, k)
      requires starting == if k == 0 then None else Some(i.rot.active[0])
      modifies inter
      ensures GoodCounts(packetCounts)
      ensures inter.View() == if k < |i.rot.active| then Selected(i, k + 1) else SelectedAll(i, packetCounts)
      ensures k < |i.rot.active| ==>
                && candidate == Some(i.rot.active[k]) && started == Some(i.rot.active[0])
                && TurnInv(View(), intra.policyState, inter.View())
                && Known(inter.View()) && Picked(i, inter.View(), k + 1)
                && candidate.value in Busy(intra.policyState)
                && (inter.weighted ==> inter.View().credits[candidate.value] < packetCounts[candidate.value])
      ensures k == |i.rot.active| ==>
                && candidate == None && Valid()
                && (inter.weighted ==> forall q: QueueType :: packetCounts[q] > 0 ==> q in inter.activeQueues)
    {
      ghost var now := inter.View();
      SelectKeepsTurn(View(), intra.policyState, now);
      CountsAreGood(View());
      SelectsNext(i, k, packetCounts);
      if k < |i.rot.active| {
        PickNext(i, now, k, packetCounts);
        if k > 0 {
          assert i.rot.active[0] != i.rot.active[k];
        }
      } else {
        RoundEnds(i, now);
        BlockedTurnSettles(View(), intra.policyState, now);
      }
      candidate := inter.SelectPacketTypeBasedQueueType();
      started := starting;
      if candidate == None || (starting != None && candidate == starting) {
        inter.UpdatePolicyState(true, packetCounts);
        return None, starting;
      }
      if starting == None {
        started := candidate;
      }
    }

    /** A turn that began with the lists `start` and the policy `i` has found the
        first `k` packet types stuck. */
    ghost predicate MidTurn(g: Gates, start: Intra, i: Inter, k: nat)
      reads this, intra, inter
    {
      && TurnInv(View(), intra.policyState, inter.View())
      && SameMembers(start, intra.policyState)
      && k <= |i.rot.active| && intra.policyState == ConnectionTurns.PassedIntra(start, i.rot.active, k)
      && Known(i) && Agrees(i.rot) && (i.weighted ==> Settled(i, packetCounts)) && inter.View() == Selected(i, k)
      && Known(inter.View()) && Picked(i, inter.View(), k)
      && RoundStuck(View(), g, start, i.rot.active, k)
    }

    lemma StartOfTurn(g: Gates)
      requires Valid()
      ensures MidTurn(g, intra.policyState, inter.View(), 0)
    {
      assert Turned(inter.activeQueues, 0) == inter.activeQueues;
    }

    /** How a round that began with the lists `start` and the policy `i` ended: in vain,
        or with the `m`-th connection of the `k`-th type. */
    ghost predicate RoundWasVain(start: Intra, i: Inter)
      reads this, intra, inter
    {
      && intra.policyState == ConnectionTurns.PassedIntra(start, i.rot.active, |i.rot.active|)
      && Known(i) && GoodCounts(packetCounts) && inter.View() == SelectedAll(i, packetCounts)
    }

    ghost predicate RoundServed(g: Gates, s: Queues, start: Intra, i: Inter, k: nat, m: nat)
      reads this, intra, inter
    {
      && Known(i) && k < |i.rot.active| && RoundStuck(s, g, start, i.rot.active, k)
      && ServedAt(i.rot.active[k], g, s, ConnectionTurns.PassedIntra(start, i.rot.active, k), Selected(i, k + 1), m)
    }

    /** Picks the next packet type and tries its connections; None ends the round. */
    method TryNextType(starting: Option<QueueType>, g: Gates, ghost start: Intra, ghost i: Inter, ghost k: nat)
      returns (outcome: Option<Outcome>, started: Option<QueueType>, ghost m: nat)
      requires MidTurn(g, start, i, k)
      requires starting == if k == 0 then None else Some(i.rot.active[0])
      modifies this, intra, inter
      ensures outcome == None ==>
                && View() == old(View()) && Valid()
                && k == |i.rot.active|
                && (inter.weighted ==> forall q: QueueType :: packetCounts[q] > 0 ==> q in inter.activeQueues)
      ensures outcome == Some(NothingSent) ==>
                && View() == old(View())
                && k < |i.rot.active| && started == Some(i.rot.active[0]) && MidTurn(g, start, i, k + 1)
      ensures outcome == Some(PacketSent) ==>
                Valid() && AfterSend(g, old(history), history) && history.past == old(history)
      ensures outcome == Some(PhantomGone) ==>
                && Valid() && AfterPhantoms(old(history), history) && history != old(history)
                && Phantoms(View()) < Phantoms(old(View()))
      ensures outcome != None && outcome != Some(NothingSent) ==>
                RoundServed(g, old(View()), start, i, k, m)
      ensures outcome == None ==> RoundWasVain(start, i)
    {
      hide SchedulerQueues.Inv, IntraInv, InterInTurn, SchedulerInv, Settled, Stuck, TypeStuck, SameMembers;
      hide ConnectionTurns.Served, ConnectionTurns.Offers, AfterSend, AfterPhantoms, Phantoms;
      ghost var s, before := View(), intra.policyState;
      var candidate;
      candidate, started := PickCandidatePacketType(starting, i, k);
      if candidate == None {
        return None, started, 0;
      }
      var tried;
      tried, m := TryConnections(candidate.value, g);
      outcome := Some(tried);
      if tried == NothingSent {
        TypePassed(s, g, start, before, inter.View(), candidate.value);
        assert RoundStuck(s, g, start, i.rot.active, k + 1);
      }
    }

    /** One round over the packet types, up to the first that gives up a packet or a
        phantom. */
    method TryTypes(g: Gates) returns (outcome: Outcome, ghost k: nat, ghost m: nat)
      requires Valid()
      modifies this, intra, inter
      ensures Valid()
      ensures outcome == NothingSent ==>
                && View() == old(View())
                && RoundStuck(View(), g, old(intra.policyState), old(inter.activeQueues), |old(inter.activeQueues)|)
                && (inter.weighted ==> forall q: QueueType :: packetCounts[q] > 0 ==> q in inter.activeQueues)
      ensures outcome == PacketSent ==> AfterSend(g, old(history), history) && history.past == old(history)
      ensures outcome == PhantomGone ==>
                && AfterPhantoms(old(history), history) && history != old(history)
                && Phantoms(View()) < Phantoms(old(View()))
      ensures outcome == NothingSent ==> RoundWasVain(old(intra.policyState), old(inter.View()))
      ensures outcome != NothingSent ==>
                RoundServed(g, old(View()), old(intra.policyState), old(inter.View()), k, m)
    {
      hide TurnInv, SchedulerInv, Settled, Known, Agrees, SameMembers, Picked, RoundStuck;
      hide ConnectionTurns.PassedIntra, ConnectionTurns.InterAt, AfterSend, AfterPhantoms, Phantoms;
      ghost var s, start, i := View(), intra.policyState, inter.View();
      k, m := 0, 0;
      StartOfTurn(g);
      var starting: Option<QueueType> := None;
      while true
        invariant k <= |i.rot.active| && View() == s
        invariant MidTurn(g, start, i, k)
        invariant starting == if k == 0 then None else Some(i.rot.active[0])
        decreases |i.rot.active| - k
      {
        var tried;
        tried, starting, m := TryNextType(starting, g, start, i, k);
        if tried == None {
          return NothingSent, k, m;
        } else if tried.value != NothingSent {
          return tried.value, k, m;
        }
        k := k + 1;
      }
    }

    /** A round takes exactly the step that `ConnectionTurns` says, or with weights
        `WeightedRounds`. */
    method TryRound(g: Gates) returns (outcome: Outcome, ghost k: nat, ghost m: nat)
      requires Valid()
      modifies this, intra, inter
      ensures Valid()
      ensures outcome == NothingSent ==>
                && View() == old(View())
                && RoundStuck(View(), g, old(intra.policyState), old(inter.activeQueues), |old(inter.activeQueues)|)
                && (inter.weighted ==> forall q: QueueType :: packetCounts[q] > 0 ==> q in inter.activeQueues)
      ensures outcome == PacketSent ==> AfterSend(g, old(history), history) && history.past == old(history)
      ensures outcome == PhantomGone ==>
                && AfterPhantoms(old(history), history) && history != old(history)
                && Phantoms(View()) < Phantoms(old(View()))
      ensures !inter.weighted && outcome == NothingSent ==>
                ConnectionTurns.Vain(old(State()), g) && State() == ConnectionTurns.AfterVain(old(State()))
      ensures !inter.weighted && outcome != NothingSent ==>
                && ConnectionTurns.Inv(old(State())) && ConnectionTurns.Chosen(old(State()), g, k, m)
                && State() == ConnectionTurns.Serve(old(State()), g, k, m)
      ensures inter.weighted && outcome == NothingSent ==> WeightedRounds.IsVain(old(State()), g, State())
      ensures inter.weighted && outcome != NothingSent ==> WeightedRounds.Serves(old(State()), g, k, m, State())
    {
      ghost var w := State();
      outcome, k, m := TryTypes(g);
      if !inter.weighted && outcome != NothingSent {
        hide SchedulerInv, RoundStuck, Phantoms, AfterSend, AfterPhantoms;
        ConnectionTurns.TurnServes(w, g, k, m, State());
      }
    }

    /** One turn. It always ends. Either one packet that passed the gates was
        sent, after any phantoms that came up, or only phantoms were served, or
        nothing happened at all. Under round robin the last two mean that nothing was
        left to send. With weights a turn that does nothing means so if it began with
        every type that has eligible packets on the list; as it always ends so, two
        such turns in a row with the same gates leave nothing to send either way. */
    method ScheduleWork(g: Gates) returns (scheduled: bool)
      requires Valid()
      modifies this, intra, inter
      ensures Valid()
      ensures scheduled <==> history != old(history)
      ensures scheduled ==> AfterSend(g, old(history), history) || AfterPhantoms(old(history), history)
      ensures !scheduled ==>
                && View() == old(View())
                && RoundStuck(View(), g, old(intra.policyState), old(inter.activeQueues), |old(inter.activeQueues)|)
      ensures !scheduled ==> ListsEveryType(View(), inter.activeQueues)
      ensures !inter.weighted && !AfterSend(g, old(history), history) ==> Idle(View(), g)
      ensures !scheduled && ListsEveryType(old(View()), old(inter.activeQueues)) ==> Idle(View(), g)
      decreases Phantoms(View()), 0
    {
      ghost var s, start, i := View(), intra.policyState, inter.View();
      var outcome;
      ghost var k, m;
      outcome, k, m := TryRound(g);
      if outcome == PacketSent {
        NewEventIsNew(s.history, history);
        return true;
      } else if outcome == PhantomGone {
        ContinueTurn(g, s.history);
        return true;
      }
      if !inter.weighted {
        RoundRobinLists(s, start, i);
        RoundRobinLists(View(), intra.policyState, inter.View());
      }
      if ListsEveryType(s, i.rot.active) {
        FullRoundMeansIdle(s, g, start, i.rot.active);
      }
      return false;
    }

    /** Phantoms cost nothing: the turn goes on after one. */
    method ContinueTurn(g: Gates, ghost h: History)
      requires Valid() && AfterPhantoms(h, history) && history != h
      modifies this, intra, inter
      ensures Valid() && history != h
      ensures AfterSend(g, h, history) || AfterPhantoms(h, history)
      ensures !inter.weighted && !AfterSend(g, h, history) ==> Idle(View(), g)
      decreases Phantoms(View()), 1
    {
      ghost var served := history;
      var more := ScheduleWork(g);
      PhantomsLead(g, h, served, history);
    }

    method HasWork(canSendPacket: bool) returns (b: bool)
      requires Valid()
      ensures b <==> canSendPacket && InterPacketPolicy.HasWork(inter.View())
    {
      if inter.weighted {
        b := canSendPacket && inter.totalAvailableCredits > 0;
      } else {
        b := canSendPacket && inter.activeQueues != [];
      }
    }
  }
}
