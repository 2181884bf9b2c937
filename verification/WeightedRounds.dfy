/**
 The weighted policy seen over whole arbitration rounds. A round is dealt at once for
 all packet types, one credit for every 64 eligible packets. How long it lasts, and
 what a type gets out of it, is decided by what each service does to the credits.

 The scheduler's loops are proved to take exactly the steps of this machine.
 */
module WeightedRounds {
  import opened Lists
  import opened SchedulerQueues
  import opened InterPacketPolicy
  import opened ConnectionScheduler
  import ConnectionTurns

  type Turns = ConnectionTurns.Turns

  // ---------- What one service does to the round ----------

  /** The round goes on: no credit is gained or lost, and just the spent types leave
      the list. */
  ghost predicate GoesOn(i: Inter, j: Inter)
    requires Known(i) && Known(j)
  {
    && j.weighted && j.credits == i.credits && j.total == i.total
    && forall p: QueueType :: j.rot.isActive[p] <==> i.rot.isActive[p] && i.credits[p] > 0
  }

  /** While credits are left the round goes on, and otherwise a new one is dealt. */
  ghost predicate RoundAfterSend(i: Inter, j: Inter, counts: map<QueueType, int>) {
    Known(i) && Known(j) && j.weighted && if i.total != 0 then GoesOn(i, j) else Redealt(j, counts)
  }

  lemma UpdateGoesOn(i: Inter, counts: map<QueueType, int>)
    requires Books(i, counts) && i.weighted
    ensures var j := Update(i, false, counts);
            RoundAfterSend(i, j, counts)
  {
    hide Agrees;
    UpdateSettles(i, false, counts);
    UpdateRedealsIff(i, false, counts);
  }

  /** A type that has lost its last connection had no credits to forfeit. */
  lemma NothingToForfeit(i: Inter, q: QueueType, counts: map<QueueType, int>)
    requires Books(i, counts) && i.weighted && i.credits[q] == 0
    ensures var j := MarkInactive(i, q);
            && Known(j) && j.weighted && Books(j, counts) && j.credits == i.credits && j.total == i.total
            && forall p: QueueType :: j.rot.isActive[p] <==> i.rot.isActive[p] && p != q
  {
    hide Agrees, Sum, GoodCounts;
    MarkInactiveKeepsBooks(i, q, counts);
    assert i.credits[q := 0] == i.credits;
    assert Known(i) && !i.rot.isActive[q] ==> MarkInactive(i, q) == i;
  }

  lemma EmptiedTypeGoesOn(i: Inter, q: QueueType, counts: map<QueueType, int>)
    requires Books(i, counts) && i.weighted && counts[q] == 0
    ensures var j := Update(MarkInactive(i, q), false, counts);
            RoundAfterSend(i, j, counts)
  {
    hide Agrees;
    NothingToForfeit(i, q, counts);
    UpdateGoesOn(MarkInactive(i, q), counts);
  }

  lemma SentIsBooked(s: Queues, i: Inter, c: Conn, q: QueueType, t: Queues)
    requires CanLeave(s, c, q) && t == Send(s, c, q)
    requires Books(i, s.counts) && i.credits[q] < s.counts[q] && GoodCounts(t.counts)
    ensures Books(i, t.counts)
  {
    SendPops(s, c, q);
    DepartureKeepsBooks(i, s.counts, q, t.counts);
  }

  lemma IdleTypeCountsNothing(t: Queues, intra: Intra, q: QueueType)
    requires SchedulerQueues.Inv(t) && IntraInv(t, intra) && q in intra && intra[q].active == []
    ensures q in t.counts && t.counts[q] == 0
  {
    assert TypeOk(t, intra, q);
    assert q in t.counts && t.counts[q] == |EligibleEntries(t, q)|;
    if t.counts[q] > 0 {
      CountedTypeHasConnection(t, intra[q], q);
    }
  }

  /** Sending a packet does no more to the round than that, and a type that is emptied
      by it loses no credits. */
  lemma SendLeavesRound(s: Queues, intra: Intra, i: Inter, c: Conn, q: QueueType)
    requires TurnInv(s, intra, i) && CanLeave(s, c, q) && i.weighted && i.credits[q] < s.counts[q]
    ensures var t := Send(s, c, q);
            && GoodCounts(t.counts) && Known(i) && q in intra && c in intra[q].isActive
            && var j := InterAfterSend(i, IntraAfterSend(intra, t, c, q), t, c, q);
               RoundAfterSend(i, j, t.counts)
  {
    hide SchedulerQueues.Inv, IntraInv, Books, Settled, GoesOn, Redealt, Send;
    var t := Send(s, c, q);
    SendKeepsSchedulerInv(s, intra, i, c, q, t);
    var after := IntraAfterSend(intra, t, c, q);
    SentIsBooked(s, i, c, q, t);
    if Queue(t, c, q) == [] && after[q].active == [] {
      IdleTypeCountsNothing(t, after, q);
      EmptiedTypeGoesOn(i, q, t.counts);
    } else {
      UpdateGoesOn(i, t.counts);
    }
  }

  // ---------- What serving a phantom does to the round ----------

  /** Putting the request type behind the data type costs it its credits. When none
      are left then, or none were left before, a new round is dealt; in the second
      case the request type has lost its share of that already. */
  ghost predicate PhantomRound(i: Inter, counts: map<QueueType, int>, j: Inter) {
    && Known(i) && Known(j) && j.weighted && GoodCounts(counts)
    && if i.total == 0 then
         && j.credits[RequestQ] == 0 && !j.rot.isActive[RequestQ]
         && forall p: QueueType :: p != RequestQ ==>
              j.credits[p] == Credit(counts[p]) && (j.rot.isActive[p] <==> counts[p] > 0)
       else if i.total == i.credits[RequestQ] then
         Redealt(j, counts)
       else
         && j.credits == i.credits[RequestQ := 0] && j.total == i.total - i.credits[RequestQ]
         && forall p: QueueType :: j.rot.isActive[p] <==> i.rot.isActive[p] && j.credits[p] > 0
  }

  /** Forfeiting what the request type has left. */
  lemma RequestsForfeit(i: Inter, counts: map<QueueType, int>)
    requires Books(i, counts) && i.weighted
    ensures var j := MarkInactive(i, RequestQ);
            && Books(j, counts) && j.weighted && j.credits == i.credits[RequestQ := 0]
            && j.total == i.total - i.credits[RequestQ]
            && forall p: QueueType :: j.rot.isActive[p] <==> i.rot.isActive[p] && p != RequestQ
  {
    hide Agrees;
    MarkInactiveKeepsBooks(i, RequestQ, counts);
    if !i.rot.isActive[RequestQ] {
      assert i.credits[RequestQ := 0] == i.credits;
    }
  }

  /** A round that is dealt with nothing to deal stays so. */
  lemma RedealtStays(i: Inter, counts: map<QueueType, int>)
    requires Books(i, counts) && i.weighted && Redealt(i, counts)
    ensures Redealt(Update(i, false, counts), counts) && Update(i, false, counts).weighted
  {
    hide Agrees;
    UpdateGoesOn(i, counts);
    forall q: QueueType ensures i.credits[q] > 0 <==> counts[q] > 0 {
      CreditIsBacked(counts[q]);
    }
  }

  /** The policy once the request type is off the list: it comes back if it still has
      connections, and the turn ends. */
  function RequestsReturn(i: Inter, busy: bool, counts: map<QueueType, int>): Inter
    requires Known(i) && GoodCounts(counts)
  {
    KnownStays(i, RequestQ, counts);
    Update(if busy then MarkActive(i, RequestQ, counts) else i, false, counts)
  }

  lemma ReturnToGoingRound(i: Inter, busy: bool, counts: map<QueueType, int>)
    requires Books(i, counts) && i.weighted && i.total != 0
    ensures var j := RequestsReturn(i, busy, counts); Known(j) && GoesOn(i, j)
  {
    hide Books, GoesOn, Redealt;
    UpdateGoesOn(i, counts);
  }

  lemma ReturnToNewRound(i: Inter, busy: bool, counts: map<QueueType, int>)
    requires Books(i, counts) && i.weighted && i.total == 0
    ensures Redealt(RequestsReturn(i, busy, counts), counts) && RequestsReturn(i, busy, counts).weighted
  {
    hide Agrees, Sum, GoesOn;
    if busy {
      ComputeSettles(i, counts);
      RedealtStays(Compute(i, counts), counts);
    } else {
      UpdateGoesOn(i, counts);
    }
  }

  /** Credits were left when the phantom came up. */
  lemma PhantomSpends(i: Inter, busy: bool, counts: map<QueueType, int>)
    requires Books(i, counts) && i.weighted && i.total != 0
    ensures var i2 := MarkInactive(i, RequestQ);
            Known(i2) && PhantomRound(i, counts, RequestsReturn(i2, busy, counts))
  {
    hide Agrees, Sum, RequestsReturn;
    RequestsForfeit(i, counts);
    var i2 := MarkInactive(i, RequestQ);
    if i2.total == 0 {
      ReturnToNewRound(i2, busy, counts);
    } else {
      ReturnToGoingRound(i2, busy, counts);
    }
  }

  lemma DealtMeansTotal(i: Inter, q: QueueType, counts: map<QueueType, int>)
    requires Books(i, counts) && i.credits[q] > 0
    ensures i.total > 0
  {
    var m := EveryTypeIsListed(q);
    SumIsPositive(i.credits, |AllTypes|);
  }

  /** None were left: the round is dealt in favour of the data, and the request type
      waits for the next one. */
  lemma PhantomDeals(i: Inter, busy: bool, counts: map<QueueType, int>)
    requires Books(i, counts) && i.weighted && i.total == 0 && counts[DataQ] > 0
    ensures Known(Compute(i, counts))
    ensures var i2 := MarkInactive(Compute(i, counts), RequestQ);
            Known(i2) && PhantomRound(i, counts, RequestsReturn(i2, busy, counts))
  {
    hide Agrees, Sum, Compute, RequestsReturn;
    ComputeSettles(i, counts);
    var i1 := Compute(i, counts);
    RequestsForfeit(i1, counts);
    var i2 := MarkInactive(i1, RequestQ);
    DealtMeansTotal(i2, DataQ, counts);
    ReturnToGoingRound(i2, busy, counts);
    forall q: QueueType ensures Credit(counts[q]) > 0 <==> counts[q] > 0 {
      CreditIsBacked(counts[q]);
    }
  }

  lemma ServedIsBooked(s: Queues, i: Inter, c: Conn, t: Queues)
    requires SchedulerQueues.Inv(s) && PhantomIsNext(s, c) && t == ServePhantom(s, c)
    requires Books(i, s.counts) && i.credits[RequestQ] < s.counts[RequestQ] && GoodCounts(t.counts)
    ensures Books(i, t.counts) && t.counts[DataQ] > 0
  {
    ServePops(s, c);
    DepartureKeepsBooks(i, s.counts, RequestQ, t.counts);
  }

  /** Serving a phantom, whatever is left of the round. */
  lemma PhantomLeavesRound(s: Queues, intra: Intra, i: Inter, c: Conn)
    requires TurnInv(s, intra, i) && PhantomIsNext(s, c) && i.weighted && i.credits[RequestQ] < s.counts[RequestQ]
    ensures var t := ServePhantom(s, c);
            && GoodCounts(t.counts) && Known(i)
            && DataQ in intra && c in intra[DataQ].isActive && RequestQ in intra && c in intra[RequestQ].isActive
            && var j := InterAfterPhantom(i, IntraAfterPhantom(intra, t, c), t);
               Known(j) && PhantomRound(i, t.counts, Update(j, false, t.counts))
  {
    var t := ServePhantom(s, c);
    ServeKeepsSchedulerInv(s, intra, i, c, t);
    ServedIsBooked(s, i, c, t);
    hide TurnInv, SchedulerInv, Books, PhantomRound, ServePhantom, IntraAfterPhantom, Compute, MarkInactive, Update;
    var busy := IntraAfterPhantom(intra, t, c)[RequestQ].active != [];
    if i.total == 0 {
      PhantomDeals(i, busy, t.counts);
    } else {
      PhantomSpends(i, busy, t.counts);
    }
  }

  // ---------- One turn ----------

  /** The policy after `k` selections. */
  function Spent(i: Inter, k: nat): (j: Inter)
    requires Known(i)
    ensures Known(j)
  {
    if k == 0 then i else Select(Spent(i, k - 1)).1
  }

  /** Each of the first `k` types of the list has spent one credit, and the list has
      been turned by as many. */
  ghost predicate SpentTo(i: Inter, j: Inter, k: nat, counts: map<QueueType, int>)
    requires Known(i)
  {
    && k <= |i.rot.active| && Books(j, counts) && Picked(i, j, k)
    && j.rot.isActive == i.rot.isActive && j.total == i.total - k
    && forall p: QueueType :: j.credits[p] + (if p in i.rot.active[..k] then 1 else 0) == i.credits[p]
  }

  lemma SpendNext(i: Inter, j: Inter, k: nat, counts: map<QueueType, int>)
    requires Settled(i, counts) && i.weighted && SpentTo(i, j, k, counts) && k < |i.rot.active|
    ensures var q := i.rot.active[k];
            Select(j).0 == Some(q) && SpentTo(i, Select(j).1, k + 1, counts) && Select(j).1.credits[q] < counts[q]
  {
    hide Agrees;
    var q := i.rot.active[k];
    assert i.rot.active[..k + 1] == i.rot.active[..k] + [q];
    PickNext(i, j, k, counts);
    SelectKeepsBooks(j, counts);
  }

  lemma {:induction false} SpentSpec(i: Inter, k: nat, counts: map<QueueType, int>)
    requires Known(i) && Settled(i, counts) && i.weighted && k <= |i.rot.active|
    ensures SpentTo(i, Spent(i, k), k, counts)
  {
    hide Settled, SpentTo;
    if k == 0 {
      NothingSpent(i, counts);
    } else {
      SpentSpec(i, k - 1, counts);
      SpendNext(i, Spent(i, k - 1), k - 1, counts);
    }
  }

  lemma NothingSpent(i: Inter, counts: map<QueueType, int>)
    requires Settled(i, counts) && i.weighted
    ensures SpentTo(i, i, 0, counts)
  {
    assert Turned(i.rot.active, 0) == i.rot.active;
  }

  ghost predicate Inv(w: Turns) {
    SchedulerInv(w.queues, w.intra, w.inter) && w.inter.weighted
  }

  /** The turn served the `m`-th connection of the `k`-th type, the first that had
      anything to offer; each type up to it has spent a credit. */
  ghost predicate Serves(w: Turns, g: Gates, k: nat, m: nat, v: Turns) {
    var types := w.inter.rot.active;
    && Known(w.inter) && k < |types| && RoundStuck(w.queues, g, w.intra, types, k)
    && var q := types[k];
       var before := ConnectionTurns.PassedIntra(w.intra, types, k);
       && q in before && m < |before[q].active|
       && ConnectionTurns.Offers(w.queues, g, before[q].active[m], q)
       && (forall j :: 0 <= j < m ==> Stuck(w.queues, g, before[q].active[j], q))
       && ConnectionTurns.Served(w.queues, TurnedIntra(before, q, m + 1), Spent(w.inter, k + 1), before[q].active[m], q, v)
  }

  /** The turn found every type on the list stuck: a new round is dealt. */
  ghost predicate IsVain(w: Turns, g: Gates, v: Turns) {
    var types := w.inter.rot.active;
    && ConnectionTurns.Vain(w, g) && Known(w.inter) && GoodCounts(w.queues.counts)
    && v.queues == w.queues && v.intra == ConnectionTurns.PassedIntra(w.intra, types, |types|)
    && v.inter == Update(Select(Spent(w.inter, |types|)).1, true, w.queues.counts)
  }

  lemma SpendingKeepsTurn(s: Queues, intra: Intra, i: Inter, k: nat)
    requires SchedulerInv(s, intra, i) && i.weighted && k <= |i.rot.active|
    ensures Known(i) && SpentTo(i, Spent(i, k), k, s.counts)
    ensures Spent(i, k).weighted && TurnInv(s, intra, Spent(i, k))
    ensures 0 < k ==> var q := i.rot.active[k - 1]; Spent(i, k).credits[q] < s.counts[q]
  {
    hide SchedulerQueues.Inv, IntraInv;
    SpentSpec(i, k, s.counts);
    if k > 0 {
      SpentSpec(i, k - 1, s.counts);
      SpendNext(i, Spent(i, k - 1), k - 1, s.counts);
    }
  }

  /** The state in which the head that is served is looked at. */
  lemma ServedInTurn(w: Turns, g: Gates, k: nat, m: nat, v: Turns)
    requires Inv(w) && Serves(w, g, k, m, v)
    ensures var q := w.inter.rot.active[k];
            var x := TurnedIntra(ConnectionTurns.PassedIntra(w.intra, w.inter.rot.active, k), q, m + 1);
            var y := Spent(w.inter, k + 1);
            && TurnInv(w.queues, x, y) && y.weighted && y.credits[q] < w.queues.counts[q]
            && SpentTo(w.inter, y, k + 1, w.queues.counts)
  {
    hide SchedulerQueues.Inv, IntraInv, SpentTo, InterInTurn, Settled, RoundStuck, Stuck;
    hide ConnectionTurns.Served, ConnectionTurns.Offers, ConnectionTurns.PassedIntra;
    var types := w.inter.rot.active;
    var y := Spent(w.inter, k + 1);
    SpendingKeepsTurn(w.queues, w.intra, w.inter, k + 1);
    ConnectionTurns.PassingKeepsTurn(w.queues, w.intra, y, types, k);
    TurningKeepsTurn(w.queues, ConnectionTurns.PassedIntra(w.intra, types, k), y, types[k], m + 1);
  }

  /** What serving the head of queue `q` of `c` does, given the lists and the policy
      when it is looked at. */
  ghost predicate Outcome(s: Queues, y: Inter, c: Conn, q: QueueType, v: Turns) {
    && Queue(s, c, q) != [] && Known(y) && Known(v.inter)
    && if Queue(s, c, q)[0].kind == Phantom then
         q == RequestQ && v.queues == ServePhantom(s, c) && PhantomRound(y, v.queues.counts, v.inter)
       else
         v.queues == Send(s, c, q) && RoundAfterSend(y, v.inter, v.queues.counts)
  }

  lemma PacketOutcome(s: Queues, x: Intra, y: Inter, c: Conn, q: QueueType, v: Turns)
    requires TurnInv(s, x, y) && y.weighted && y.credits[q] < s.counts[q]
    requires ConnectionTurns.Served(s, x, y, c, q, v) && CanLeave(s, c, q)
    ensures Inv(v) && Outcome(s, y, c, q, v)
  {
    hide TurnInv, SchedulerInv, GoesOn, Redealt, InterAfterSend, IntraAfterSend, Send, CanLeave;
    SendLeavesRound(s, x, y, c, q);
    SendKeepsSchedulerInv(s, x, y, c, q, Send(s, c, q));
    assert Queue(s, c, q)[0].kind != Phantom by {
      LeavingIsNoPhantom(s, c, q);
    }
  }

  lemma LeavingIsNoPhantom(s: Queues, c: Conn, q: QueueType)
    requires CanLeave(s, c, q)
    ensures Queue(s, c, q) != [] && Queue(s, c, q)[0].kind != Phantom
  {
  }

  lemma PhantomOutcome(s: Queues, x: Intra, y: Inter, c: Conn, q: QueueType, v: Turns)
    requires TurnInv(s, x, y) && y.weighted && y.credits[q] < s.counts[q]
    requires ConnectionTurns.Served(s, x, y, c, q, v) && q == RequestQ && PhantomIsNext(s, c)
    ensures Inv(v) && Outcome(s, y, c, q, v)
  {
    hide TurnInv, SchedulerInv, InterAfterPhantom, IntraAfterPhantom, ServePhantom, Update;
    PhantomLeavesRound(s, x, y, c);
    ServeKeepsSchedulerInv(s, x, y, c, ServePhantom(s, c));
  }

  lemma OfferedHeadLeaves(s: Queues, g: Gates, c: Conn, q: QueueType)
    requires SchedulerQueues.Inv(s) && ConnectionTurns.Offers(s, g, c, q)
    ensures if Queue(s, c, q)[0].kind == Phantom then q == RequestQ && PhantomIsNext(s, c) else CanLeave(s, c, q)
  {
    if Queue(s, c, q)[0].kind == Phantom {
      PhantomsWaitInRequestQueues(s, c, q);
    }
  }

  /** One service keeps the scheduler in order and does to the round what its outcome
      says. */
  lemma ServiceOutcome(w: Turns, g: Gates, k: nat, m: nat, v: Turns)
    requires Inv(w) && Serves(w, g, k, m, v)
    ensures Inv(v)
    ensures var q := w.inter.rot.active[k];
            var y := Spent(w.inter, k + 1);
            && SpentTo(w.inter, y, k + 1, w.queues.counts)
            && Outcome(w.queues, y, ConnectionTurns.PassedIntra(w.intra, w.inter.rot.active, k)[q].active[m], q, v)
  {
    hide SpentTo, SchedulerQueues.Inv, IntraInv, InterInTurn, Settled, Outcome, RoundStuck, Stuck, ConnectionTurns.Served, ConnectionTurns.Offers;
    hide ConnectionTurns.PassedIntra, Spent, PhantomIsNext, CanLeave;
    var q := w.inter.rot.active[k];
    var before := ConnectionTurns.PassedIntra(w.intra, w.inter.rot.active, k);
    var x, y, c := TurnedIntra(before, q, m + 1), Spent(w.inter, k + 1), before[q].active[m];
    ServedInTurn(w, g, k, m, v);
    OfferedHeadLeaves(w.queues, g, c, q);
    if Queue(w.queues, c, q) != [] && Queue(w.queues, c, q)[0].kind == Phantom {
      PhantomOutcome(w.queues, x, y, c, q, v);
    } else {
      PacketOutcome(w.queues, x, y, c, q, v);
    }
  }

  // ---------- Runs ----------

  ghost predicate Next(w: Turns, step: ConnectionTurns.Step, v: Turns) {
    match step
    case ConnectStep(c, ordered) => c !in w.queues.ordered && v == ConnectionTurns.AfterConnect(w, c, ordered)
    case AddStep(c, rsn, kind) =>
      && SchedulerQueues.Enabled(w.queues, SchedulerQueues.AddStep(c, rsn, kind))
      && ConnectionTurns.AddsPacket(w, c, rsn, kind, v)
    case ServiceStep(g, k, m) => Serves(w, g, k, m, v)
    case VainStep(g) => IsVain(w, g, v)
  }

  ghost predicate IsInitial(w: Turns) {
    && w.queues == SchedulerQueues.Initial()
    && (forall q: QueueType :: q in w.intra && w.intra[q] == Rotation(map[], [], []))
    && w.inter == NewPolicy(true)
  }

  ghost predicate IsRun(ws: seq<Turns>, steps: seq<ConnectionTurns.Step>) {
    && |ws| == |steps| + 1 && IsInitial(ws[0])
    && forall i :: 0 <= i < |steps| ==> Next(ws[i], steps[i], ws[i + 1])
  }

  lemma InitialKeeps(w: Turns)
    requires IsInitial(w)
    ensures Inv(w)
  {
    InitialInv();
    NewPolicySpec(true);
    forall q: QueueType ensures TypeOk(w.queues, w.intra, q) {
      assert Backlog(w.queues, q) == {} && EligibleEntries(w.queues, q) == {};
    }
  }

  lemma ConnectKeeps(w: Turns, c: Conn, ordered: bool)
    requires Inv(w) && c !in w.queues.ordered
    ensures Inv(ConnectionTurns.AfterConnect(w, c, ordered))
  {
    var after := ConnectionTurns.AfterConnect(w, c, ordered);
    forall q: QueueType ensures q in w.intra && q in after.intra && after.intra[q] == Join(w.intra[q], c) {
      assert TypeOk(w.queues, w.intra, q);
    }
    ConnectKeepsSchedulerInv(w.queues, w.intra, w.inter, c, ordered, after.intra);
  }

  lemma MarkActiveStaysWeighted(i: Inter, before: map<QueueType, int>, q: QueueType, counts: map<QueueType, int>)
    requires Settled(i, before) && i.weighted && GoodCounts(counts)
    ensures MarkActive(i, q, counts).weighted
    ensures if i.total == 0 then Redealt(MarkActive(i, q, counts), counts) else MarkActive(i, q, counts) == i
  {
    if i.total == 0 {
      ComputeSettles(i, counts);
    }
  }

  lemma AddKeeps(w: Turns, c: Conn, rsn: int, kind: Kind, v: Turns)
    requires Inv(w) && Next(w, ConnectionTurns.AddStep(c, rsn, kind), v)
    ensures Inv(v) && Known(w.inter) && Known(v.inter)
    ensures if w.inter.total == 0 then Redealt(v.inter, v.queues.counts) else v.inter == w.inter
    ensures v.queues.history == Then(w.queues.history, Enqueued(c, rsn, kind))
  {
    hide TurnInv, Settled, Redealt, MarkActive;
    AddKeepsSchedulerInv(w.queues, w.intra, w.inter, c, rsn, kind);
    var (t, q) := Add(w.queues, c, rsn, kind);
    MarkActiveStaysWeighted(w.inter, w.queues.counts, q, t.counts);
  }

  lemma VainKeeps(w: Turns, g: Gates, v: Turns)
    requires Inv(w) && IsVain(w, g, v)
    ensures Inv(v) && Known(v.inter) && Redealt(v.inter, v.queues.counts)
  {
    hide SchedulerQueues.Inv, IntraInv, SpentTo, InterInTurn, Settled, RoundStuck, Stuck, ConnectionTurns.PassedIntra;
    var types := w.inter.rot.active;
    var y := Spent(w.inter, |types|);
    SpendingKeepsTurn(w.queues, w.intra, w.inter, |types|);
    ConnectionTurns.PassingKeepsTurn(w.queues, w.intra, y, types, |types|);
    BlockedTurnSettles(w.queues, v.intra, y);
    SelectKeepsTurn(w.queues, v.intra, y);
    BlockedTurnDeals(Select(y).1, w.queues, v.intra);
  }

  lemma BlockedTurnDeals(y: Inter, s: Queues, x: Intra)
    requires TurnInv(s, x, y) && y.weighted
    ensures Known(y) && GoodCounts(s.counts)
    ensures var j := Update(y, true, s.counts); j.weighted && Known(j) && Redealt(j, s.counts)
  {
    hide SchedulerQueues.Inv, IntraInv;
    UpdateSettles(y, true, s.counts);
    UpdateRedealsIff(y, true, s.counts);
  }

  lemma StepKeepsInv(w: Turns, step: ConnectionTurns.Step, v: Turns)
    requires Inv(w) && Next(w, step, v)
    ensures Inv(v)
  {
    hide Inv, Serves, IsVain;
    match step
    case ConnectStep(c, ordered) => ConnectKeeps(w, c, ordered);
    case AddStep(c, rsn, kind) => AddKeeps(w, c, rsn, kind, v);
    case ServiceStep(g, k, m) => ServiceOutcome(w, g, k, m, v);
    case VainStep(g) => VainKeeps(w, g, v);
  }

  /** Queues, lists and credits agree in every state the weighted scheduler reaches. */
  lemma {:induction false} EveryRunKeepsInv(ws: seq<Turns>, steps: seq<ConnectionTurns.Step>, i: nat)
    requires IsRun(ws, steps) && i < |ws|
    ensures Inv(ws[i])
  {
    hide Inv, Next;
    if i == 0 {
      InitialKeeps(ws[0]);
    } else {
      EveryRunKeepsInv(ws, steps, i - 1);
      assert Next(ws[i - 1], steps[i - 1], ws[i - 1 + 1]);
      StepKeepsInv(ws[i - 1], steps[i - 1], ws[i]);
    }
  }

  // ---------- What a type gets out of a round ----------

  /** Packets of queue `q` that have been sent. */
  ghost function SentCount(h: History, q: QueueType): int {
    match h
    case Start => 0
    case Then(past, e) => SentCount(past, q) + if e.Sent? && e.queue == q then 1 else 0
  }

  /** The service goes to a phantom. */
  ghost predicate ServesPhantom(w: Turns, step: ConnectionTurns.Step) {
    && step.ServiceStep? && step.k < |w.inter.rot.active|
    && var q := w.inter.rot.active[step.k];
       var before := ConnectionTurns.PassedIntra(w.intra, w.inter.rot.active, step.k);
       && q in before && step.m < |before[q].active|
       && Queue(w.queues, before[q].active[step.m], q) != []
       && Queue(w.queues, before[q].active[step.m], q)[0].kind == Phantom
  }

  /** The step deals a new round: a packet arrives when no credits are left, a turn is
      vain, or a service uses up the last credits. */
  ghost predicate Deals(w: Turns, step: ConnectionTurns.Step) {
    match step
    case ConnectStep(_, _) => false
    case AddStep(_, _, _) => w.inter.total == 0
    case VainStep(_) => true
    case ServiceStep(g, k, m) =>
      || w.inter.total == k + 1
      || (ServesPhantom(w, step) && RequestQ in w.inter.credits
          && w.inter.total - k == w.inter.credits[RequestQ])
  }

  /** In this turn some connection on the list of type `q` has a head that can be
      served, unless `q` is off the list, and the request type serves no phantom. */
  ghost predicate Passes(w: Turns, step: ConnectionTurns.Step, q: QueueType) {
    match step
    case ServiceStep(g, _, _) => Offered(w, g, q) && !(q == RequestQ && ServesPhantom(w, step))
    case VainStep(g) => Offered(w, g, q)
    case _ => true
  }

  ghost predicate Offered(w: Turns, g: Gates, q: QueueType) {
    q in w.inter.rot.active ==>
      q in w.intra && exists c :: c in w.intra[q].active && ConnectionTurns.Offers(w.queues, g, c, q)
  }

  /** A type that is offered is not passed over. */
  lemma OfferedIsNotPassed(w: Turns, g: Gates, q: QueueType, k: nat)
    requires k <= |w.inter.rot.active| && RoundStuck(w.queues, g, w.intra, w.inter.rot.active, k) && Offered(w, g, q)
    ensures q !in w.inter.rot.active[..k]
  {
    forall j | 0 <= j < k ensures w.inter.rot.active[j] != q {
      assert TypeStuck(w.queues, g, w.intra[w.inter.rot.active[j]], w.inter.rot.active[j]);
    }
  }

  lemma NoCreditsLeft(i: Inter, counts: map<QueueType, int>, q: QueueType)
    requires Books(i, counts) && i.total == 0
    ensures i.credits[q] == 0
  {
    if i.credits[q] > 0 {
      DealtMeansTotal(i, q, counts);
    }
  }

  lemma OnlyRequestsLeft(i: Inter, counts: map<QueueType, int>, q: QueueType)
    requires Books(i, counts) && i.weighted && i.total == i.credits[RequestQ] && q != RequestQ
    ensures i.credits[q] == 0
  {
    RequestsForfeit(i, counts);
    NoCreditsLeft(MarkInactive(i, RequestQ), counts, q);
  }

  /** Each packet of the type costs it one credit, and when a new round is dealt it has
      none left. */
  ghost predicate PaysForEach(w: Turns, step: ConnectionTurns.Step, v: Turns, q: QueueType) {
    && Known(w.inter) && Known(v.inter)
    && var sent := SentCount(v.queues.history, q) - SentCount(w.queues.history, q);
       w.inter.credits[q] == sent + if Deals(w, step) then 0 else v.inter.credits[q]
  }

  /** What the type has left when the `k`-th type has been selected. */
  lemma LeftWhenServed(i: Inter, y: Inter, k: nat, counts: map<QueueType, int>, q: QueueType)
    requires Known(i) && k < |i.rot.active| && SpentTo(i, y, k + 1, counts) && q !in i.rot.active[..k]
    ensures Known(y) && Books(y, counts) && y.total == i.total - (k + 1)
    ensures i.credits[q] == y.credits[q] + if i.rot.active[k] == q then 1 else 0
  {
    hide Books, Picked;
    assert i.rot.active[..k + 1] == i.rot.active[..k] + [i.rot.active[k]];
    SpentIsBooked(i, y, k + 1, counts);
  }

  lemma SpentIsBooked(i: Inter, y: Inter, k: nat, counts: map<QueueType, int>)
    requires Known(i) && SpentTo(i, y, k, counts)
    ensures Known(y) && Books(y, counts)
  {
  }

  lemma PacketCosts(i: Inter, y: Inter, k: nat, counts: map<QueueType, int>, q: QueueType, j: Inter)
    requires Known(i) && k < |i.rot.active| && SpentTo(i, y, k + 1, counts) && q !in i.rot.active[..k]
    requires Known(j) && Known(y) && (y.total != 0 ==> GoesOn(y, j))
    ensures i.credits[q] == (if i.rot.active[k] == q then 1 else 0) + if i.total == k + 1 then 0 else j.credits[q]
  {
    hide SpentTo, Books;
    LeftWhenServed(i, y, k, counts, q);
    if y.total == 0 {
      NoCreditsLeft(y, counts, q);
    }
  }

  lemma PhantomCosts(i: Inter, y: Inter, k: nat, counts: map<QueueType, int>, q: QueueType, j: Inter,
                     after: map<QueueType, int>)
    requires Known(i) && k < |i.rot.active| && SpentTo(i, y, k + 1, counts) && q !in i.rot.active[..k]
    requires i.rot.active[k] == RequestQ && q != RequestQ && RequestQ !in i.rot.active[..k]
    requires PhantomRound(y, after, j) && y.weighted
    ensures i.credits[q] == if i.total == k + 1 || i.total - k == i.credits[RequestQ] then 0 else j.credits[q]
  {
    hide SpentTo, Books, Redealt;
    LeftWhenServed(i, y, k, counts, q);
    LeftWhenServed(i, y, k, counts, RequestQ);
    if y.total == 0 {
      NoCreditsLeft(y, counts, q);
    } else if y.total == y.credits[RequestQ] {
      OnlyRequestsLeft(y, counts, q);
    }
  }

  lemma PacketPays(w: Turns, step: ConnectionTurns.Step, v: Turns, q: QueueType)
    requires Inv(w) && Next(w, step, v) && step.ServiceStep? && !ServesPhantom(w, step) && Offered(w, step.g, q)
    ensures PaysForEach(w, step, v, q)
  {
    hide Inv, SpentTo, GoesOn, Redealt, Offered, Stuck, Spent, ConnectionTurns.PassedIntra;
    hide ConnectionTurns.Served, ConnectionTurns.Offers;
    var y := Spent(w.inter, step.k + 1);
    OfferedIsNotPassed(w, step.g, q, step.k);
    ServiceOutcome(w, step.g, step.k, step.m, v);
    PacketCosts(w.inter, y, step.k, w.queues.counts, q, v.inter);
  }

  lemma PhantomPays(w: Turns, step: ConnectionTurns.Step, v: Turns, q: QueueType)
    requires Inv(w) && Next(w, step, v) && ServesPhantom(w, step) && Offered(w, step.g, q) && q != RequestQ
    ensures PaysForEach(w, step, v, q)
  {
    hide Inv, SpentTo, PhantomRound, Offered, Stuck, Spent, ConnectionTurns.PassedIntra;
    hide ConnectionTurns.Served, ConnectionTurns.Offers;
    var y := Spent(w.inter, step.k + 1);
    OfferedIsNotPassed(w, step.g, q, step.k);
    ServiceOutcome(w, step.g, step.k, step.m, v);
    assert y.weighted by {
      ServedInTurn(w, step.g, step.k, step.m, v);
    }
    FirstOnList(w, step.k);
    PhantomCosts(w.inter, y, step.k, w.queues.counts, q, v.inter, v.queues.counts);
  }

  lemma FirstOnList(w: Turns, k: nat)
    requires Inv(w) && k < |w.inter.rot.active|
    ensures w.inter.rot.active[k] !in w.inter.rot.active[..k]
  {
    hide SchedulerQueues.Inv, IntraInv;
  }

  /** The bookkeeping of one type over one step. */
  lemma StepPays(w: Turns, step: ConnectionTurns.Step, v: Turns, q: QueueType)
    requires Inv(w) && Next(w, step, v) && Passes(w, step, q)
    ensures PaysForEach(w, step, v, q)
  {
    hide Inv, Serves, ServesPhantom, Offered;
    match step
    case ConnectStep(_, _) => KnowsItsTypes(w);
    case AddStep(c, rsn, kind) => ArrivalPays(w, c, rsn, kind, v, q);
    case VainStep(g) => VainPays(w, g, v, q);
    case ServiceStep(g, k, m) =>
      if ServesPhantom(w, step) {
        PhantomPays(w, step, v, q);
      } else {
        PacketPays(w, step, v, q);
      }
  }

  lemma KnowsItsTypes(w: Turns)
    requires Inv(w)
    ensures Known(w.inter) && Books(w.inter, w.queues.counts)
  {
  }

  lemma ArrivalPays(w: Turns, c: Conn, rsn: int, kind: Kind, v: Turns, q: QueueType)
    requires Inv(w) && Next(w, ConnectionTurns.AddStep(c, rsn, kind), v)
    ensures PaysForEach(w, ConnectionTurns.AddStep(c, rsn, kind), v, q)
  {
    hide Inv, Redealt, ConnectionTurns.AddsPacket;
    KnowsItsTypes(w);
    AddKeeps(w, c, rsn, kind, v);
    if w.inter.total == 0 {
      NoCreditsLeft(w.inter, w.queues.counts, q);
    }
  }

  lemma VainPays(w: Turns, g: Gates, v: Turns, q: QueueType)
    requires Inv(w) && IsVain(w, g, v) && Offered(w, g, q)
    ensures PaysForEach(w, ConnectionTurns.VainStep(g), v, q)
  {
    hide Inv, Offered, RoundStuck, Spent;
    var types := w.inter.rot.active;
    KnowsItsTypes(w);
    VainKeeps(w, g, v);
    OfferedIsNotPassed(w, g, q, |types|);
    assert types[..|types|] == types;
  }

  /** When a new round is dealt the type gets its share of it, one credit for every 64
      eligible packets, except the request type when it is a phantom's turn. */
  lemma DealSharesOut(w: Turns, step: ConnectionTurns.Step, v: Turns, q: QueueType)
    requires Inv(w) && Next(w, step, v) && Deals(w, step) && (q == RequestQ ==> !ServesPhantom(w, step))
    ensures Known(v.inter) && q in v.queues.counts && 0 <= v.queues.counts[q]
    ensures v.inter.credits[q] == Credit(v.queues.counts[q])
  {
    hide Inv;
    match step
    case AddStep(c, rsn, kind) => AddKeeps(w, c, rsn, kind, v);
    case VainStep(g) => VainKeeps(w, g, v);
    case ServiceStep(g, k, m) => ServiceDeals(w, step, v, q);
  }

  lemma ServiceDeals(w: Turns, step: ConnectionTurns.Step, v: Turns, q: QueueType)
    requires Inv(w) && Next(w, step, v) && Deals(w, step) && step.ServiceStep? && (q == RequestQ ==> !ServesPhantom(w, step))
    ensures Known(v.inter) && q in v.queues.counts && 0 <= v.queues.counts[q]
    ensures v.inter.credits[q] == Credit(v.queues.counts[q])
  {
    hide Inv, GoesOn, Stuck, Spent, RoundStuck, ConnectionTurns.PassedIntra, ConnectionTurns.Served, ConnectionTurns.Offers;
    hide Books, Picked;
    ServiceOutcome(w, step.g, step.k, step.m, v);
    FirstOnList(w, step.k);
    var types := w.inter.rot.active;
    assert types[..step.k + 1] == types[..step.k] + [types[step.k]];
  }

  /** While no new round is dealt, what a type has sent and what it has left make up
      what it had. */
  lemma {:induction false} RoundAddsUp(ws: seq<Turns>, steps: seq<ConnectionTurns.Step>, d: nat, j: nat, q: QueueType)
    requires IsRun(ws, steps) && d < j < |ws|
    requires forall i :: d < i < j ==> !Deals(ws[i], steps[i]) && Passes(ws[i], steps[i], q)
    ensures Known(ws[d + 1].inter) && Known(ws[j].inter)
    ensures ws[d + 1].inter.credits[q] ==
              SentCount(ws[j].queues.history, q) - SentCount(ws[d + 1].queues.history, q) + ws[j].inter.credits[q]
  {
    hide Inv, Next, Deals, Passes, SentCount;
    EveryRunKeepsInv(ws, steps, j);
    KnowsItsTypes(ws[j]);
    if d + 1 < j {
      RoundAddsUp(ws, steps, d, j - 1, q);
      EveryRunKeepsInv(ws, steps, j - 1);
      assert Next(ws[j - 1], steps[j - 1], ws[j - 1 + 1]);
      StepPays(ws[j - 1], steps[j - 1], ws[j], q);
    }
  }

  /** Between two deals a type with heads that pass the gates sends exactly as many
      packets as the first deal gave it credits, one for every 64 it had eligible.
      What else arrives, is sent or is blocked meanwhile makes no difference. */
  lemma RoundSharesExactly(ws: seq<Turns>, steps: seq<ConnectionTurns.Step>, d: nat, e: nat, q: QueueType)
    requires IsRun(ws, steps) && d < e < |steps| && Deals(ws[d], steps[d]) && Deals(ws[e], steps[e])
    requires forall i :: d < i < e ==> !Deals(ws[i], steps[i])
    requires forall i :: d < i <= e ==> Passes(ws[i], steps[i], q)
    requires q == RequestQ ==> !ServesPhantom(ws[d], steps[d])
    ensures q in ws[d + 1].queues.counts && 0 <= ws[d + 1].queues.counts[q]
    ensures SentCount(ws[e + 1].queues.history, q) - SentCount(ws[d + 1].queues.history, q)
              == Credit(ws[d + 1].queues.counts[q])
  {
    hide Inv, Next, Deals, Passes, SentCount, ServesPhantom;
    EveryRunKeepsInv(ws, steps, d);
    EveryRunKeepsInv(ws, steps, e);
    assert Next(ws[d], steps[d], ws[d + 1]) && Next(ws[e], steps[e], ws[e + 1]);
    DealSharesOut(ws[d], steps[d], ws[d + 1], q);
    RoundAddsUp(ws, steps, d, e, q);
    StepPays(ws[e], steps[e], ws[e + 1], q);
  }

  /** Each turn of a round costs at least one credit. */
  lemma TurnCosts(w: Turns, step: ConnectionTurns.Step, v: Turns)
    requires Inv(w) && Next(w, step, v) && !Deals(w, step)
    ensures v.inter.total + (if ConnectionTurns.IsTurn(step) then 1 else 0) <= w.inter.total
  {
    hide Inv;
    match step
    case ConnectStep(_, _) =>
    case AddStep(c, rsn, kind) => AddKeeps(w, c, rsn, kind, v);
    case ServiceStep(g, k, m) => ServiceCosts(w, step, v);
  }

  lemma ServiceCosts(w: Turns, step: ConnectionTurns.Step, v: Turns)
    requires Inv(w) && Next(w, step, v) && !Deals(w, step) && step.ServiceStep?
    ensures v.inter.total < w.inter.total
  {
    hide Inv, Stuck, Spent, RoundStuck, ConnectionTurns.PassedIntra, ConnectionTurns.Served, ConnectionTurns.Offers;
    hide Books, Picked, Redealt;
    ServiceOutcome(w, step.g, step.k, step.m, v);
    FirstOnList(w, step.k);
    var types := w.inter.rot.active;
    assert types[..step.k + 1] == types[..step.k] + [types[step.k]];
  }

  /** A round lasts at most as many turns as credits were dealt for it, so that the next
      deal is never far off. */
  lemma {:induction false} RoundsAreShort(ws: seq<Turns>, steps: seq<ConnectionTurns.Step>, d: nat, j: nat)
    requires IsRun(ws, steps) && d < j < |ws|
    requires forall i :: d < i < j ==> !Deals(ws[i], steps[i])
    ensures ConnectionTurns.TurnsIn(steps[d + 1..j]) + ws[j].inter.total <= ws[d + 1].inter.total
    ensures 0 <= ws[j].inter.total
  {
    hide Inv, Next, Deals, ConnectionTurns.IsTurn, ConnectionTurns.TurnsIn;
    EveryRunKeepsInv(ws, steps, j);
    TotalIsNotNegative(ws[j]);
    if d + 1 < j {
      RoundsAreShort(ws, steps, d, j - 1);
      EveryRunKeepsInv(ws, steps, j - 1);
      assert Next(ws[j - 1], steps[j - 1], ws[j - 1 + 1]);
      TurnCosts(ws[j - 1], steps[j - 1], ws[j]);
      ConnectionTurns.TurnsSoFar(steps, d + 1, j);
    } else {
      assert steps[d + 1..j] == [];
      NoTurns();
    }
  }

  lemma NoTurns()
    ensures ConnectionTurns.TurnsIn([]) == 0
  {
  }

  lemma TotalIsNotNegative(w: Turns)
    requires Inv(w)
    ensures 0 <= w.inter.total
  {
    hide SchedulerQueues.Inv, IntraInv;
    SumIsPositive(w.inter.credits, |AllTypes|);
  }
}
