/**
 The busy-poll connection scheduler: it picks a packet type, then a connection
 with packets of that type, and sends the head of that queue if the gates let it
 through. It keeps three things in agreement: the queues of `SchedulerQueues`,
 one rotation list of connections per packet type, and the packet type policy.
 */
module ConnectionScheduler {
  import opened Lists
  import opened SchedulerQueues
  import opened InterPacketPolicy

  type Intra = map<QueueType, Rotation<Conn>>

  /** A rotation list over `conns`: the active ones have packets queued, and
      everyone with an eligible packet is active. */
  ghost predicate ListInv(r: Rotation<Conn>, conns: set<Conn>, backlog: set<Conn>, eligible: set<(Conn, WorkId)>) {
    && Agrees(r) && Complete(r) && r.isActive.Keys == conns
    && (forall c :: c in r.active ==> c in backlog)
    && (forall e :: e in eligible ==> e.0 in r.active)
  }

  ghost function Backlog(s: Queues, q: QueueType): set<Conn> {
    set c | c in s.ordered && Queue(s, c, q) != []
  }

  ghost predicate TypeInv(s: Queues, r: Rotation<Conn>, q: QueueType) {
    ListInv(r, s.ordered.Keys, Backlog(s, q), EligibleEntries(s, q))
  }

  ghost predicate TypeOk(s: Queues, intra: Intra, q: QueueType) {
    q in intra && TypeInv(s, intra[q], q)
  }

  ghost predicate IntraInv(s: Queues, intra: Intra) {
    forall q: QueueType :: TypeOk(s, intra, q)
  }

  /** The packet types some connection is active for. */
  ghost function Busy(intra: Intra): set<QueueType> {
    set q | q in intra && intra[q].active != []
  }

  ghost predicate RoundRobinInv(i: Inter, busy: set<QueueType>) {
    && Known(i) && Agrees(i.rot) && Complete(i.rot)
    && (forall q :: q in i.rot.active <==> q in busy)
  }

  /** Round robin: a packet type is active iff one of its connections is.
      Weighted: the credit books balance against the packet counters. */
  ghost predicate InterInTurn(s: Queues, intra: Intra, i: Inter) {
    if i.weighted then Books(i, s.counts) else RoundRobinInv(i, Busy(intra))
  }

  /** What holds during a turn, and between turns. */
  ghost predicate TurnInv(s: Queues, intra: Intra, i: Inter) {
    Inv(s) && IntraInv(s, intra) && InterInTurn(s, intra, i)
  }

  ghost predicate SchedulerInv(s: Queues, intra: Intra, i: Inter) {
    TurnInv(s, intra, i) && (i.weighted ==> Settled(i, s.counts))
  }

  // ---------- One rotation list ----------

  lemma ListActivates(r: Rotation<Conn>, c: Conn, conns: set<Conn>, b: set<Conn>, e: set<(Conn, WorkId)>,
                      b': set<Conn>, e': set<(Conn, WorkId)>)
    requires ListInv(r, conns, b, e) && c in conns
    requires b <= b' && c in b'
    requires forall x :: x in e' ==> x in e || x.0 == c
    ensures ListInv(Activate(r, c), conns, b', e')
  {
    ActivateAgrees(r, c);
  }

  /** The connection leaves the list if its queue has run empty. */
  lemma ListDeactivates(r: Rotation<Conn>, c: Conn, conns: set<Conn>, b: set<Conn>, e: set<(Conn, WorkId)>,
                        b': set<Conn>, e': set<(Conn, WorkId)>)
    requires ListInv(r, conns, b, e) && c in conns
    requires b - {c} <= b' && e' <= e
    requires forall x :: x in e' && x.0 == c ==> c in b'
    ensures ListInv(if c in b' then r else Deactivate(r, c), conns, b', e')
  {
    DeactivateAgrees(r, c);
  }

  lemma ListJoins(r: Rotation<Conn>, c: Conn, conns: set<Conn>, b: set<Conn>, e: set<(Conn, WorkId)>)
    requires ListInv(r, conns, b, e) && c !in conns
    ensures ListInv(Join(r, c), conns + {c}, b, e) && Join(r, c).active == r.active
  {
    JoinAgrees(r, c);
  }

  // ---------- Selecting ----------

  lemma CountsAreGood(s: Queues)
    requires CountInv(s)
    ensures GoodCounts(s.counts)
  {
  }

  lemma CountedTypeHasConnection(s: Queues, r: Rotation<Conn>, q: QueueType)
    requires CountInv(s) && TypeInv(s, r, q) && s.counts[q] > 0
    ensures r.active != []
  {
    var e :| e in EligibleEntries(s, q);
    assert e.0 in r.active;
  }

  /** The packet type that is selected always has an active connection. */
  lemma SelectKeepsTurn(s: Queues, intra: Intra, i: Inter)
    requires TurnInv(s, intra, i)
    ensures Known(i)
    ensures TurnInv(s, intra, Select(i).1) && Select(i).1.weighted == i.weighted
    ensures Select(i).0.Some? ==> Select(i).0.value in Busy(intra)
    ensures Select(i).0.Some? && i.weighted ==> Select(i).1.credits[Select(i).0.value] < s.counts[Select(i).0.value]
  {
    if i.weighted {
      SelectKeepsBooks(i, s.counts);
      if Select(i).0.Some? {
        var q := Select(i).0.value;
        assert TypeOk(s, intra, q);
        CountedTypeHasConnection(s, intra[q], q);
      }
    } else if Select(i).0.Some? {
      RotateAgrees(i.rot);
    }
  }

  // ---------- Enqueueing ----------

  lemma AddGrowsBacklog(s: Queues, c: Conn, rsn: int, kind: Kind, t: Queues, q: QueueType)
    requires Added(s, c, rsn, kind, t)
    ensures Backlog(s, q) <= Backlog(t, q)
  {
    assert forall d :: |Queue(s, d, q)| <= |Queue(t, d, q)|;
  }

  lemma EligibleIsBacklog(s: Queues, q: QueueType, c: Conn, w: WorkId)
    requires (c, w) in EligibleEntries(s, q)
    ensures c in Backlog(s, q)
  {
  }

  lemma AddKeepsType(s: Queues, r: Rotation<Conn>, c: Conn, rsn: int, kind: Kind, t: Queues, q: QueueType)
    requires EnqueueInv(s) && EligibilityInv(s) && DataWaitsItsTurn(s.ordered, s.history) && Fifo(s, c, q)
    requires Enabled(s, AddStep(c, rsn, kind)) && Added(s, c, rsn, kind, t)
    requires TypeInv(s, r, q)
    ensures TypeInv(t, if q == Activated(s.ordered[c], kind) then Activate(r, c) else r, q)
  {
    var b, e, b', e' := Backlog(s, q), EligibleEntries(s, q), Backlog(t, q), EligibleEntries(t, q);
    var w := AddGainsOne(s, c, rsn, kind, t, q);
    AddGrowsBacklog(s, c, rsn, kind, t, q);
    if q == Activated(s.ordered[c], kind) {
      EligibleIsBacklog(t, q, c, w);
      ListActivates(r, c, s.ordered.Keys, b, e, b', e');
    } else {
      assert e' == e;
    }
  }

  lemma AddKeepsIntra(s: Queues, intra: Intra, c: Conn, rsn: int, kind: Kind, t: Queues, p: QueueType)
    requires Inv(s) && IntraInv(s, intra)
    requires Enabled(s, AddStep(c, rsn, kind)) && Added(s, c, rsn, kind, t) && p == Activated(s.ordered[c], kind)
    ensures p in intra && c in intra[p].isActive
    ensures IntraInv(t, intra[p := Activate(intra[p], c)])
  {
    assert TypeOk(s, intra, p);
    var after := intra[p := Activate(intra[p], c)];
    forall q: QueueType ensures TypeOk(t, after, q) {
      assert Fifo(s, c, q);
      assert TypeOk(s, intra, q);
      AddKeepsType(s, intra[q], c, rsn, kind, t, q);
    }
  }

  lemma RoundRobinActivates(i: Inter, busy: set<QueueType>, q: QueueType, after: set<QueueType>)
    requires RoundRobinInv(i, busy) && after == busy + {q}
    ensures RoundRobinInv(i.(rot := Activate(i.rot, q)), after)
  {
    ActivateAgrees(i.rot, q);
  }

  lemma RoundRobinDeactivates(i: Inter, busy: set<QueueType>, q: QueueType, after: set<QueueType>)
    requires RoundRobinInv(i, busy) && after == busy - {q}
    ensures RoundRobinInv(i.(rot := Deactivate(i.rot, q)), after)
  {
    DeactivateAgrees(i.rot, q);
  }

  /** Making a connection active makes its packet type busy. */
  lemma ActivateMakesBusy(intra: Intra, q: QueueType, c: Conn)
    requires q in intra && Agrees(intra[q]) && c in intra[q].isActive
    ensures Busy(intra[q := Activate(intra[q], c)]) == Busy(intra) + {q}
  {
    ActivateAgrees(intra[q], c);
  }

  lemma AddKeepsInter(s: Queues, i: Inter, q: QueueType, t: Queues, busy: set<QueueType>)
    requires if i.weighted then Settled(i, s.counts) else RoundRobinInv(i, busy)
    requires GoodCounts(t.counts)
    requires forall p: QueueType :: p in s.counts && s.counts[p] <= t.counts[p]
    ensures Known(i) && MarkActive(i, q, t.counts).weighted == i.weighted
    ensures if i.weighted then Settled(MarkActive(i, q, t.counts), t.counts)
            else RoundRobinInv(MarkActive(i, q, t.counts), busy + {q})
  {
    if i.weighted {
      MarkActiveSettles(i, q, s.counts, t.counts);
    } else {
      RoundRobinActivates(i, busy, q, busy + {q});
    }
  }

  lemma EnqueueKeepsInter(s: Queues, intra: Intra, i: Inter, c: Conn, t: Queues, q: QueueType)
    requires if i.weighted then Settled(i, s.counts) else RoundRobinInv(i, Busy(intra))
    requires GoodCounts(t.counts)
    requires forall p: QueueType :: p in s.counts && s.counts[p] <= t.counts[p]
    requires q in intra && Agrees(intra[q]) && c in intra[q].isActive
    ensures Known(i) && MarkActive(i, q, t.counts).weighted == i.weighted
    ensures if i.weighted then Settled(MarkActive(i, q, t.counts), t.counts)
            else RoundRobinInv(MarkActive(i, q, t.counts), Busy(intra[q := Activate(intra[q], c)]))
  {
    AddKeepsInter(s, i, q, t, Busy(intra));
    ActivateMakesBusy(intra, q, c);
  }

  lemma EnqueueFacts(s: Queues, intra: Intra, i: Inter, c: Conn, rsn: int, kind: Kind, t: Queues)
    requires IntraInv(s, intra) && InterInTurn(s, intra, i) && Enabled(s, AddStep(c, rsn, kind))
    requires Added(s, c, rsn, kind, t) && CountInv(s) && CountInv(t)
    ensures var q := Activated(s.ordered[c], kind); q in intra && Agrees(intra[q]) && c in intra[q].isActive
    ensures GoodCounts(s.counts) && GoodCounts(t.counts)
    ensures forall p: QueueType :: p in s.counts && s.counts[p] <= t.counts[p]
  {
    CountsAreGood(s);
    CountsAreGood(t);
    assert TypeOk(s, intra, Activated(s.ordered[c], kind));
  }

  /** Enqueueing a packet keeps the three in agreement. */
  lemma EnqueueKeepsInv(s: Queues, intra: Intra, i: Inter, c: Conn, rsn: int, kind: Kind, t: Queues)
    requires SchedulerInv(s, intra, i) && Enabled(s, AddStep(c, rsn, kind))
    requires Added(s, c, rsn, kind, t) && Inv(t)
    ensures var q := Activated(s.ordered[c], kind);
            && GoodCounts(t.counts) && Known(i) && q in intra && c in intra[q].isActive
            && SchedulerInv(t, intra[q := Activate(intra[q], c)], MarkActive(i, q, t.counts))
  {
    hide EnqueueInv, FifoInv, EligibilityInv, CountInv, DataWaitsItsTurn, IntraInv, RoundRobinInv, Settled, Added;
    var q := Activated(s.ordered[c], kind);
    EnqueueFacts(s, intra, i, c, rsn, kind, t);
    AddKeepsIntra(s, intra, c, rsn, kind, t, q);
    EnqueueKeepsInter(s, intra, i, c, t, q);
  }

  lemma AddKeepsSchedulerInv(s: Queues, intra: Intra, i: Inter, c: Conn, rsn: int, kind: Kind)
    requires SchedulerInv(s, intra, i) && Enabled(s, AddStep(c, rsn, kind))
    ensures var (t, q) := Add(s, c, rsn, kind);
            && GoodCounts(t.counts) && Known(i) && q in intra && c in intra[q].isActive
            && SchedulerInv(t, intra[q := Activate(intra[q], c)], MarkActive(i, q, t.counts))
  {
    AddAdds(s, c, rsn, kind);
    AddKeepsInv(s, c, rsn, kind);
    EnqueueKeepsInv(s, intra, i, c, rsn, kind, Add(s, c, rsn, kind).0);
  }

  lemma NewConnectionHasNothing(s: Queues, c: Conn, q: QueueType)
    requires Inv(s) && c !in s.ordered
    ensures Queue(s, c, q) == []
  {
    assert Fifo(s, c, q);
    UnknownConnectionIsQuiet(IsOrdered(s, c), s.history, c, q);
  }

  lemma ConnectKeepsType(s: Queues, r: Rotation<Conn>, c: Conn, mode: bool, q: QueueType)
    requires TypeInv(s, r, q) && c !in s.ordered && Queue(s, c, q) == []
    ensures TypeInv(s.(ordered := s.ordered[c := mode]), Join(r, c), q)
  {
    var t := s.(ordered := s.ordered[c := mode]);
    assert forall d :: Queue(t, d, q) == Queue(s, d, q);
    assert Backlog(t, q) == Backlog(s, q);
    assert EligibleEntries(t, q) == EligibleEntries(s, q);
    assert t.ordered.Keys == s.ordered.Keys + {c};
    ListJoins(r, c, s.ordered.Keys, Backlog(s, q), EligibleEntries(s, q));
  }

  lemma ConnectKeepsSchedulerInv(s: Queues, intra: Intra, i: Inter, c: Conn, mode: bool, after: Intra)
    requires SchedulerInv(s, intra, i) && c !in s.ordered
    requires forall q: QueueType :: q in intra && q in after && after[q] == Join(intra[q], c)
    ensures SchedulerInv(s.(ordered := s.ordered[c := mode]), after, i)
  {
    var t := s.(ordered := s.ordered[c := mode]);
    assert Inv(t) by {
      ConnectKeepsInv(s, c, mode);
    }
    forall q: QueueType ensures TypeOk(t, after, q) {
      assert TypeOk(s, intra, q);
      NewConnectionHasNothing(s, c, q);
      ConnectKeepsType(s, intra[q], c, mode, q);
    }
    assert Busy(after) == Busy(intra);
  }

  // ---------- Ending a turn with a packet ----------

  /** The policies after the head of queue `q` of `c` has left. */
  function IntraAfterSend(intra: Intra, t: Queues, c: Conn, q: QueueType): Intra
    requires q in intra && c in intra[q].isActive
  {
    if Queue(t, c, q) == [] then intra[q := Deactivate(intra[q], c)] else intra
  }

  function InterAfterSend(i: Inter, intra: Intra, t: Queues, c: Conn, q: QueueType): Inter
    requires Known(i) && GoodCounts(t.counts) && q in intra
  {
    var j := if Queue(t, c, q) == [] && intra[q].active == [] then MarkInactive(i, q) else i;
    Update(j, false, t.counts)
  }

  lemma PopKeepsType(s: Queues, t: Queues, c: Conn, q: QueueType, r: Rotation<Conn>)
    requires TypeInv(s, r, q) && Popped(s, t, c, q) && c in s.ordered
    requires EligibleEntries(t, q) <= EligibleEntries(s, q)
    ensures c in r.isActive
    ensures TypeInv(t, if Queue(t, c, q) == [] then Deactivate(r, c) else r, q)
  {
    forall e | e in EligibleEntries(t, q) && e.0 == c ensures c in Backlog(t, q) {
      EligibleIsBacklog(t, q, c, e.1);
    }
    assert Backlog(s, q) - {c} <= Backlog(t, q);
    ListDeactivates(r, c, s.ordered.Keys, Backlog(s, q), EligibleEntries(s, q), Backlog(t, q), EligibleEntries(t, q));
  }

  lemma OtherTypeKeeps(s: Queues, t: Queues, q: QueueType, r: Rotation<Conn>)
    requires TypeInv(s, r, q) && t.ordered == s.ordered
    requires forall d :: Queue(t, d, q) == Queue(s, d, q)
    requires EligibleEntries(t, q) == EligibleEntries(s, q)
    ensures TypeInv(t, r, q)
  {
    assert Backlog(t, q) == Backlog(s, q);
  }

  lemma OtherTypeGains(s: Queues, t: Queues, q: QueueType, r: Rotation<Conn>, c: Conn, w: WorkId)
    requires TypeInv(s, r, q) && t.ordered == s.ordered && c in s.ordered
    requires forall d :: Queue(t, d, q) == Queue(s, d, q)
    requires EligibleEntries(t, q) == EligibleEntries(s, q) + {(c, w)}
    ensures TypeInv(t, Activate(r, c), q)
  {
    assert Backlog(t, q) == Backlog(s, q);
    assert (c, w) in EligibleEntries(t, q);
    EligibleIsBacklog(t, q, c, w);
    ListActivates(r, c, s.ordered.Keys, Backlog(s, q), EligibleEntries(s, q), Backlog(t, q), EligibleEntries(t, q));
  }

  lemma SendKeepsIntra(s: Queues, intra: Intra, c: Conn, q: QueueType, t: Queues)
    requires IntraInv(s, intra) && Fifo(s, c, q) && c in s.ordered
    requires CanLeave(s, c, q) && Popped(s, t, c, q) && t.ineligible == s.ineligible
    ensures q in intra && c in intra[q].isActive && IntraInv(t, IntraAfterSend(intra, t, c, q))
  {
    assert TypeOk(s, intra, q);
    var after := IntraAfterSend(intra, t, c, q);
    forall p: QueueType ensures TypeOk(t, after, p) {
      assert TypeOk(s, intra, p);
      SendKeepsCount(s, c, q, t, p);
      if p == q {
        PopKeepsType(s, t, c, q, intra[q]);
      } else {
        OtherTypeKeeps(s, t, p, intra[p]);
      }
    }
  }

  lemma SendKeepsInter(s: Queues, intra: Intra, i: Inter, c: Conn, q: QueueType, t: Queues)
    requires q in intra && c in intra[q].isActive
    requires InterInTurn(s, intra, i)
    requires if i.weighted then i.credits[q] < s.counts[q] else q in Busy(intra)
    requires GoodCounts(t.counts) && forall p: QueueType :: p in s.counts && t.counts[p] == s.counts[p] + if p == q then -1 else 0
    ensures Known(i)
    ensures var after := IntraAfterSend(intra, t, c, q);
            var j := InterAfterSend(i, after, t, c, q);
            j.weighted == i.weighted && InterInTurn(t, after, j) && (j.weighted ==> Settled(j, t.counts))
  {
    hide Agrees, Settled;
    var after := IntraAfterSend(intra, t, c, q);
    if i.weighted {
      DepartureKeepsBooks(i, s.counts, q, t.counts);
      MarkInactiveKeepsBooks(i, q, t.counts);
      UpdateSettles(i, false, t.counts);
      UpdateSettles(MarkInactive(i, q), false, t.counts);
    } else if Queue(t, c, q) == [] && after[q].active == [] {
      assert Busy(after) == Busy(intra) - {q};
      RoundRobinDeactivates(i, Busy(intra), q, Busy(after));
    } else {
      assert Busy(after) == Busy(intra);
    }
  }

  /** Sending a packet and updating the policies keeps the three in agreement. */
  lemma SendKeepsSchedulerInv(s: Queues, intra: Intra, i: Inter, c: Conn, q: QueueType, t: Queues)
    requires TurnInv(s, intra, i) && CanLeave(s, c, q) && t == Send(s, c, q)
    requires if i.weighted then i.credits[q] < s.counts[q] else q in Busy(intra)
    ensures GoodCounts(t.counts) && Known(i) && q in intra && c in intra[q].isActive
    ensures var after := IntraAfterSend(intra, t, c, q);
            SchedulerInv(t, after, InterAfterSend(i, after, t, c, q))
  {
    QueuedConnectionIsKnown(s, c, q);
    SendPops(s, c, q);
    assert Fifo(s, c, q);
    SendKeepsIntra(s, intra, c, q, t);
    assert Inv(t) by {
      SendKeepsInv(s, c, q);
    }
    CountsAreGood(t);
    SendKeepsInter(s, intra, i, c, q, t);
  }

  // ---------- Ending a turn with a phantom ----------

  function IntraAfterPhantom(intra: Intra, t: Queues, c: Conn): Intra
    requires DataQ in intra && c in intra[DataQ].isActive && RequestQ in intra && c in intra[RequestQ].isActive
  {
    IntraAfterSend(intra[DataQ := Activate(intra[DataQ], c)], t, c, RequestQ)
  }

  /** The data type joins the packet types in front of the request type. */
  function InterAfterPhantom(i: Inter, intra: Intra, t: Queues): (j: Inter)
    requires Known(i) && GoodCounts(t.counts) && RequestQ in intra
  {
    KnownStays(i, DataQ, t.counts);
    var i1 := MarkActive(i, DataQ, t.counts);
    var i2 := MarkInactive(i1, RequestQ);
    KnownStays(i2, RequestQ, t.counts);
    if intra[RequestQ].active != [] then MarkActive(i2, RequestQ, t.counts) else i2
  }

  lemma {:induction false} ComputeFromKnown(i: Inter, counts: map<QueueType, int>, k: nat)
    requires Known(i) && GoodCounts(counts) && k <= |AllTypes|
    ensures Known(ComputeFrom(i, counts, k))
    decreases |AllTypes| - k
  {
    if k < |AllTypes| {
      ComputeFromKnown(ComputeOne(i, counts, AllTypes[k]), counts, k + 1);
    }
  }

  lemma KnownStays(i: Inter, q: QueueType, counts: map<QueueType, int>)
    requires Known(i) && GoodCounts(counts)
    ensures Known(MarkActive(i, q, counts)) && Known(MarkInactive(i, q))
  {
    ComputeFromKnown(i.(total := 0), counts, 0);
  }

  lemma ServeKeepsRequestType(s: Queues, c: Conn, t: Queues, r: Rotation<Conn>)
    requires EnqueueInv(s) && EligibilityInv(s) && Fifo(s, c, RequestQ) && IsOrdered(s, c)
    requires PhantomIsNext(s, c) && Popped(s, t, c, RequestQ)
    requires t.ineligible == s.ineligible - {(c, WorkId(Queue(s, c, RequestQ)[0].rsn, UnsolicitedData))}
    requires TypeInv(s, r, RequestQ)
    ensures c in r.isActive
    ensures TypeInv(t, if Queue(t, c, RequestQ) == [] then Deactivate(r, c) else r, RequestQ)
  {
    ServeKeepsRequestCount(s, c, t);
    PopKeepsType(s, t, c, RequestQ, r);
  }

  lemma ServeKeepsOtherType(s: Queues, c: Conn, t: Queues, q: QueueType, r: Rotation<Conn>)
    requires EnqueueInv(s) && Fifo(s, c, q) && IsOrdered(s, c) && q != RequestQ
    requires PhantomIsNext(s, c) && Popped(s, t, c, RequestQ)
    requires t.ineligible == s.ineligible - {(c, WorkId(Queue(s, c, RequestQ)[0].rsn, UnsolicitedData))}
    requires WorkId(Queue(s, c, RequestQ)[0].rsn, UnsolicitedData) in Queue(s, c, DataQ)
    requires (c, WorkId(Queue(s, c, RequestQ)[0].rsn, UnsolicitedData)) in s.ineligible
    requires TypeInv(s, r, q)
    ensures c in r.isActive
    ensures TypeInv(t, if q == DataQ then Activate(r, c) else r, q)
  {
    ServeKeepsOtherCount(s, c, t, q);
    if q == DataQ {
      OtherTypeGains(s, t, q, r, c, WorkId(Queue(s, c, RequestQ)[0].rsn, UnsolicitedData));
    } else {
      OtherTypeKeeps(s, t, q, r);
    }
  }

  lemma ServeKeepsIntra(s: Queues, intra: Intra, c: Conn, t: Queues)
    requires Inv(s) && IntraInv(s, intra) && PhantomIsNext(s, c) && Popped(s, t, c, RequestQ)
    requires t.ineligible == s.ineligible - {(c, WorkId(Queue(s, c, RequestQ)[0].rsn, UnsolicitedData))}
    ensures DataQ in intra && c in intra[DataQ].isActive && RequestQ in intra && c in intra[RequestQ].isActive
    ensures Agrees(intra[DataQ])
    ensures IntraInv(t, IntraAfterPhantom(intra, t, c))
  {
    hide EnqueueInv, EligibilityInv, CountInv, DataWaitsItsTurn;
    assert Fifo(s, c, RequestQ) && Fifo(s, c, DataQ);
    PhantomHoldsItsData(s, c, Queue(s, c, RequestQ)[0].rsn);
    assert TypeOk(s, intra, DataQ) && TypeOk(s, intra, RequestQ);
    var after := IntraAfterPhantom(intra, t, c);
    forall q: QueueType ensures TypeOk(t, after, q) {
      assert TypeOk(s, intra, q);
      assert Fifo(s, c, q);
      if q == RequestQ {
        ServeKeepsRequestType(s, c, t, intra[RequestQ]);
      } else {
        ServeKeepsOtherType(s, c, t, q, intra[q]);
      }
    }
  }

  lemma ServeKeepsBooks(s: Queues, i: Inter, intra: Intra, t: Queues)
    requires i.weighted && Books(i, s.counts) && i.credits[RequestQ] < s.counts[RequestQ]
    requires RequestQ in intra && GoodCounts(t.counts)
    requires forall p: QueueType :: p in s.counts && t.counts[p] == s.counts[p] + if p == RequestQ then -1 else if p == DataQ then 1 else 0
    ensures var j := InterAfterPhantom(i, intra, t);
            Known(j) && Settled(Update(j, false, t.counts), t.counts) && Update(j, false, t.counts).weighted
  {
    DepartureKeepsBooks(i, s.counts, RequestQ, t.counts);
    MarkActiveKeepsBooks(i, DataQ, t.counts);
    var i1 := MarkActive(i, DataQ, t.counts);
    MarkInactiveKeepsBooks(i1, RequestQ, t.counts);
    var i2 := MarkInactive(i1, RequestQ);
    MarkActiveKeepsBooks(i2, RequestQ, t.counts);
    UpdateSettles(InterAfterPhantom(i, intra, t), false, t.counts);
  }

  /** The packet types that are busy once a phantom has been served. */
  lemma PhantomMakesDataBusy(intra: Intra, t: Queues, c: Conn)
    requires DataQ in intra && Agrees(intra[DataQ]) && c in intra[DataQ].isActive
    requires RequestQ in intra && c in intra[RequestQ].isActive
    ensures var after := IntraAfterPhantom(intra, t, c);
            RequestQ in after &&
            Busy(after) == Busy(intra) + {DataQ} - {RequestQ} + if after[RequestQ].active != [] then {RequestQ} else {}
  {
    ActivateMakesBusy(intra, DataQ, c);
  }

  lemma ServeKeepsRoundRobin(i: Inter, busy: set<QueueType>, intra: Intra, t: Queues)
    requires !i.weighted && RoundRobinInv(i, busy) && GoodCounts(t.counts) && RequestQ in intra
    ensures var j := InterAfterPhantom(i, intra, t);
            Known(j) && !j.weighted &&
            RoundRobinInv(j, busy + {DataQ} - {RequestQ} + if intra[RequestQ].active != [] then {RequestQ} else {})
  {
    var one := busy + {DataQ};
    RoundRobinActivates(i, busy, DataQ, one);
    var i1 := MarkActive(i, DataQ, t.counts);
    var two := one - {RequestQ};
    RoundRobinDeactivates(i1, one, RequestQ, two);
    var i2 := MarkInactive(i1, RequestQ);
    assert RoundRobinInv(i2, two);
    if intra[RequestQ].active != [] {
      RoundRobinActivates(i2, two, RequestQ, two + {RequestQ});
    } else {
      assert two + {} == two;
    }
  }

  /** Under round robin the packet types are served in the order of the transactions:
      behind a phantom the data type is on the list, and the request type, if it still
      has connections, has gone to the end. */
  lemma PhantomPutsDataFirst(i: Inter, busy: set<QueueType>, intra: Intra, t: Queues)
    requires !i.weighted && RoundRobinInv(i, busy) && GoodCounts(t.counts) && RequestQ in intra
    ensures var j := InterAfterPhantom(i, intra, t);
            && DataQ in j.rot.active
            && (RequestQ in j.rot.active <==> intra[RequestQ].active != [])
            && (RequestQ in j.rot.active ==> j.rot.active[|j.rot.active| - 1] == RequestQ)
  {
    ServeKeepsRoundRobin(i, busy, intra, t);
    var i2 := MarkInactive(MarkActive(i, DataQ, t.counts), RequestQ);
    RoundRobinActivates(i, busy, DataQ, busy + {DataQ});
    RoundRobinDeactivates(MarkActive(i, DataQ, t.counts), busy + {DataQ}, RequestQ, busy + {DataQ} - {RequestQ});
    assert !i2.rot.isActive[RequestQ];
  }

  lemma MarkActiveKeepsBooks(i: Inter, q: QueueType, counts: map<QueueType, int>)
    requires Books(i, counts) && i.weighted
    ensures Books(MarkActive(i, q, counts), counts) && MarkActive(i, q, counts).weighted
  {
    if i.total == 0 {
      ComputeSettles(i, counts);
    }
  }

  /** Serving a phantom and updating the policies keeps the three in agreement. */
  lemma ServeKeepsSchedulerInv(s: Queues, intra: Intra, i: Inter, c: Conn, t: Queues)
    requires TurnInv(s, intra, i) && PhantomIsNext(s, c) && t == ServePhantom(s, c)
    requires i.weighted ==> i.credits[RequestQ] < s.counts[RequestQ]
    ensures GoodCounts(t.counts) && Known(i)
    ensures DataQ in intra && c in intra[DataQ].isActive && RequestQ in intra && c in intra[RequestQ].isActive
    ensures var after := IntraAfterPhantom(intra, t, c);
            var j := InterAfterPhantom(i, after, t);
            Known(j) && SchedulerInv(t, after, Update(j, false, t.counts))
  {
    ServePops(s, c);
    ServeKeepsIntra(s, intra, c, t);
    assert Inv(t) by {
      ServeKeepsInv(s, c);
    }
    CountsAreGood(t);
    var after := IntraAfterPhantom(intra, t, c);
    if i.weighted {
      ServeKeepsBooks(s, i, after, t);
    } else {
      PhantomMakesDataBusy(intra, t, c);
      ServeKeepsRoundRobin(i, Busy(intra), after, t);
    }
  }

  // ---------- What one turn does ----------

  /** The gates, fixed during one turn: the per-connection op rate, and
      congestion window, admission and out-of-window criteria per packet. */
  datatype Gates = Gates(opRate: Conn -> bool, admits: (Conn, WorkId) -> bool)

  /** The head of the queue may be sent now. */
  ghost predicate Sendable(s: Queues, g: Gates, c: Conn, q: QueueType) {
    CanLeave(s, c, q) && g.opRate(c) && g.admits(c, Queue(s, c, q)[0])
  }

  ghost predicate Stuck(s: Queues, g: Gates, c: Conn, q: QueueType) {
    && Queue(s, c, q) != []
    && Queue(s, c, q)[0].kind != Phantom
    && !Sendable(s, g, c, q)
  }

  /** Nothing of type `q` can be sent, by any connection active for it. */
  ghost predicate TypeStuck(s: Queues, g: Gates, r: Rotation<Conn>, q: QueueType) {
    forall c :: c in r.active ==> Stuck(s, g, c, q)
  }

  /** No head of any queue of any connection is a phantom or can be sent. */
  ghost predicate Idle(s: Queues, g: Gates) {
    forall c, q :: Queue(s, c, q) != [] ==> Stuck(s, g, c, q)
  }

  /** Some phantoms were served since `h`. */
  ghost predicate AfterPhantoms(h: History, k: History) {
    k == h || (k.Then? && k.event.PhantomServed? && AfterPhantoms(h, k.past))
  }

  /** Since `h`, after any phantoms, one packet was sent, and it passed the gates. */
  ghost predicate AfterSend(g: Gates, h: History, k: History) {
    && k.Then? && k.event.Sent? && AfterPhantoms(h, k.past)
    && g.opRate(k.event.conn) && g.admits(k.event.conn, k.event.work)
  }

  ghost function Phantoms(s: Queues): set<(Conn, WorkId)> {
    set c, w | c in s.ordered && w in Queue(s, c, RequestQ) && w.kind == Phantom :: (c, w)
  }

  lemma ServeConsumesPhantom(s: Queues, c: Conn, t: Queues)
    requires Popped(s, t, c, RequestQ) && Fifo(s, c, RequestQ) && c in s.ordered && PhantomIsNext(s, c)
    ensures Phantoms(t) < Phantoms(s)
  {
    forall d, w | (d, w) in Phantoms(t) ensures (d, w) in Phantoms(s) {
      HeadLeaves(s, c, RequestQ, w);
    }
    var head := Queue(s, c, RequestQ)[0];
    HeadLeaves(s, c, RequestQ, head);
    assert (c, head) in Phantoms(s) && (c, head) !in Phantoms(t);
  }

  lemma {:induction false} PhantomsCompose(h: History, k: History, l: History)
    requires AfterPhantoms(h, k) && AfterPhantoms(k, l)
    ensures AfterPhantoms(h, l)
  {
    if l != k {
      PhantomsCompose(h, k, l.past);
    }
  }

  ghost function Length(h: History): nat {
    match h case Start => 0 case Then(past, _) => 1 + Length(past)
  }

  lemma {:induction false} PhantomsAddUp(h: History, k: History)
    requires AfterPhantoms(h, k)
    ensures Length(h) <= Length(k) && (h != k ==> Length(h) < Length(k))
  {
    if k != h {
      PhantomsAddUp(h, k.past);
    }
  }

  lemma NewEventIsNew(h: History, k: History)
    requires k.Then? && k.past == h
    ensures k != h
  {
    assert Length(k) == 1 + Length(h);
  }

  /** A turn that goes on after phantoms is one longer turn. */
  lemma PhantomsLead(g: Gates, h: History, k: History, l: History)
    requires AfterPhantoms(h, k) && k != h
    requires k == l || AfterSend(g, k, l) || AfterPhantoms(k, l)
    ensures l != h
    ensures AfterPhantoms(k, l) ==> AfterPhantoms(h, l)
    ensures AfterSend(g, k, l) ==> AfterSend(g, h, l)
  {
    PhantomsAddUp(h, k);
    if AfterPhantoms(k, l) {
      PhantomsCompose(h, k, l);
      PhantomsAddUp(k, l);
    }
    if AfterSend(g, k, l) {
      PhantomsCompose(h, k, l.past);
      PhantomsAddUp(k, l.past);
    }
  }

  /** Whatever could be sent is on the lists, so a turn that found the lists of every
      busy type stuck has looked at everything. */
  lemma StuckListsMeanIdle(s: Queues, intra: Intra, g: Gates)
    requires IntraInv(s, intra) && Inv(s)
    requires forall q: QueueType :: EligibleEntries(s, q) != {} ==> q in intra && TypeStuck(s, g, intra[q], q)
    ensures Idle(s, g)
  {
    forall c, q | Queue(s, c, q) != [] ensures Stuck(s, g, c, q) {
      assert TypeOk(s, intra, q);
      var head := Queue(s, c, q)[0];
      QueuedConnectionIsKnown(s, c, q);
      if Eligible(s, c, head) {
        assert (c, head) in EligibleEntries(s, q);
        assert TypeStuck(s, g, intra[q], q);
      } else {
        assert (c, head) in s.ineligible <==> Barred(s, c, head);
      }
    }
  }

  /** In terms of packets: every one at the head of a queue still waits for its grant or
      for its phantom, or is held back by a gate, and no phantom is at the head. */
  lemma IdleMeansBlocked(s: Queues, g: Gates, c: Conn, q: QueueType)
    requires Inv(s) && Idle(s, g) && Queue(s, c, q) != []
    ensures var head := Queue(s, c, q)[0];
            && head.kind != Phantom
            && (Barred(s, c, head) || !g.opRate(c) || !g.admits(c, head))
  {
    assert Stuck(s, g, c, q);
    assert (c, Queue(s, c, q)[0]) in s.ineligible <==> Barred(s, c, Queue(s, c, q)[0]);
  }

  /** The first `k` of `types` were found stuck, given the lists `start`. */
  ghost predicate RoundStuck(s: Queues, g: Gates, start: Intra, types: seq<QueueType>, k: nat)
    requires k <= |types|
  {
    forall j :: 0 <= j < k ==> types[j] in start && TypeStuck(s, g, start[types[j]], types[j])
  }

  /** A round over a list that holds every type with eligible packets. */
  lemma FullRoundMeansIdle(s: Queues, g: Gates, start: Intra, types: seq<QueueType>)
    requires Inv(s) && IntraInv(s, start)
    requires forall q: QueueType :: s.counts[q] > 0 ==> q in types
    requires RoundStuck(s, g, start, types, |types|)
    ensures Idle(s, g)
  {
    forall q: QueueType | EligibleEntries(s, q) != {} ensures q in start && TypeStuck(s, g, start[q], q) {
      assert s.counts[q] == |EligibleEntries(s, q)| > 0;
      var j :| 0 <= j < |types| && types[j] == q;
    }
    StuckListsMeanIdle(s, start, g);
  }

  /** Under round robin the policy's list always holds every such type. */
  lemma RoundRobinListsEveryType(s: Queues, intra: Intra, i: Inter, q: QueueType)
    requires Inv(s) && IntraInv(s, intra) && RoundRobinInv(i, Busy(intra)) && s.counts[q] > 0
    ensures q in i.rot.active
  {
    assert TypeOk(s, intra, q);
    CountedTypeHasConnection(s, intra[q], q);
  }

  // ---------- The rotations of one turn ----------

  /** The lists with type `q` turned by `m` connections. */
  function TurnedIntra(intra: Intra, q: QueueType, m: nat): Intra
    requires q in intra && m <= |intra[q].active|
  {
    intra[q := intra[q].(active := Turned(intra[q].active, m))]
  }

  /** One selection turns the list by one, and a full round begins anew. */
  lemma SelectionTurns(intra: Intra, q: QueueType, m: nat)
    requires q in intra && intra[q].active != [] && m <= |intra[q].active|
    ensures var turned := TurnedIntra(intra, q, m);
            && turned[q].active != []
            && turned[q].active[0] == intra[q].active[if m < |intra[q].active| then m else 0]
            && turned[q := Rotate(turned[q])] == TurnedIntra(intra, q, if m < |intra[q].active| then m + 1 else 1)
  {
    var n := |intra[q].active|;
    assert Turned(intra[q].active, n) == Turned(intra[q].active, 0) == intra[q].active;
    TurnOnce(intra[q].active, if m < n then m else 0);
  }

  lemma TurnedListInv(r: Rotation<Conn>, m: nat, conns: set<Conn>, b: set<Conn>, e: set<(Conn, WorkId)>)
    requires ListInv(r, conns, b, e) && m <= |r.active|
    ensures ListInv(r.(active := Turned(r.active, m)), conns, b, e)
  {
    TurnedSpec(r.active, m);
  }

  lemma TurningKeepsTurn(s: Queues, intra: Intra, i: Inter, q: QueueType, m: nat)
    requires TurnInv(s, intra, i) && q in intra && m <= |intra[q].active|
    ensures TurnInv(s, TurnedIntra(intra, q, m), i) && Busy(TurnedIntra(intra, q, m)) == Busy(intra)
    ensures forall c :: c in TurnedIntra(intra, q, m)[q].active <==> c in intra[q].active
  {
    var after := TurnedIntra(intra, q, m);
    TurnedSpec(intra[q].active, m);
    forall p: QueueType ensures TypeOk(s, after, p) {
      assert TypeOk(s, intra, p);
      if p == q {
        TurnedListInv(intra[q], m, s.ordered.Keys, Backlog(s, q), EligibleEntries(s, q));
      }
    }
    assert Busy(after) == Busy(intra);
  }

  lemma ActiveHasPackets(s: Queues, intra: Intra, q: QueueType, c: Conn)
    requires IntraInv(s, intra) && q in intra && c in intra[q].active
    ensures Queue(s, c, q) != []
  {
    assert TypeOk(s, intra, q);
  }

  lemma StartOfRound(s: Queues, intra: Intra, q: QueueType)
    requires IntraInv(s, intra) && q in Busy(intra)
    ensures intra[q].active != [] && NoDuplicates(intra[q].active) && intra == TurnedIntra(intra, q, 0)
  {
    assert TypeOk(s, intra, q);
    assert Turned(intra[q].active, 0) == intra[q].active;
  }

  lemma NextCandidateIsReady(s: Queues, intra: Intra, i: Inter, q: QueueType, m: nat)
    requires TurnInv(s, intra, i) && q in Busy(intra) && m < |intra[q].active|
    ensures Queue(s, intra[q].active[m], q) != []
    ensures TurnInv(s, TurnedIntra(intra, q, m + 1), i) && q in Busy(TurnedIntra(intra, q, m + 1))
  {
    TurningKeepsTurn(s, intra, i, q, m + 1);
    ActiveHasPackets(s, intra, q, intra[q].active[m]);
  }

  /** The same connections are active, in whatever order. */
  ghost predicate SameMembers(intra: Intra, after: Intra) {
    && after.Keys == intra.Keys
    && forall q, c :: q in intra ==> (c in after[q].active <==> c in intra[q].active)
  }

  lemma TypePassed(s: Queues, g: Gates, start: Intra, before: Intra, i: Inter, q: QueueType)
    requires TurnInv(s, before, i) && SameMembers(start, before) && q in Busy(before)
    requires TypeStuck(s, g, before[q], q)
    ensures q in start && TypeStuck(s, g, start[q], q)
    ensures TurnInv(s, TurnedIntra(before, q, 1), i) && SameMembers(start, TurnedIntra(before, q, 1))
  {
    TurningKeepsTurn(s, before, i, q, 1);
  }

  /** A turn that found nothing ends with the books settled and, with weights, a
      new round in which every type with eligible packets has credits. */
  lemma BlockedTurnSettles(s: Queues, intra: Intra, i: Inter)
    requires TurnInv(s, intra, i)
    ensures Known(i) && GoodCounts(s.counts)
    ensures SchedulerInv(s, intra, Update(Select(i).1, true, s.counts))
    ensures i.weighted ==> forall q: QueueType :: s.counts[q] > 0 ==> q in Update(Select(i).1, true, s.counts).rot.active
  {
    SelectKeepsTurn(s, intra, i);
    CountsAreGood(s);
    if i.weighted {
      UpdateSettles(Select(i).1, true, s.counts);
    }
  }

  /** Phantoms are only ever in request queues. */
  lemma PhantomsWaitInRequestQueues(s: Queues, c: Conn, q: QueueType)
    requires Inv(s) && Queue(s, c, q) != [] && Queue(s, c, q)[0].kind == Phantom
    ensures q == RequestQ && c in s.ordered
  {
    var w := Queue(s, c, q)[0];
    QueuedConnectionIsKnown(s, c, q);
    assert Fifo(s, c, q);
    QueuedIff(s, c, q, w);
    EntersIff(IsOrdered(s, c), s.history, c, q, w);
  }

  /** The policy list after `k` selections, the types still to come untouched. */
  ghost predicate Picked(i0: Inter, i: Inter, k: nat)
    requires Known(i0) && Known(i)
  {
    && k <= |i0.rot.active|
    && i.weighted == i0.weighted
    && i.rot.active == Turned(i0.rot.active, k)
    && forall j :: k <= j < |i0.rot.active| ==> i.credits[i0.rot.active[j]] == i0.credits[i0.rot.active[j]]
  }

  lemma PickNext(i0: Inter, i: Inter, k: nat, counts: map<QueueType, int>)
    requires if i0.weighted then Settled(i0, counts) && Books(i, counts) else Known(i0) && Known(i) && Agrees(i0.rot)
    requires Picked(i0, i, k) && k < |i0.rot.active|
    ensures Select(i).0 == Some(i0.rot.active[k]) && Known(Select(i).1) && Picked(i0, Select(i).1, k + 1)
  {
    var q := i0.rot.active[k];
    TurnOnce(i0.rot.active, k);
    if i.weighted {
      var m := EveryTypeIsListed(q);
      SumIsPositive(i.credits, |AllTypes|);
      assert i0.rot.isActive[q];
    }
    forall j | k + 1 <= j < |i0.rot.active| ensures i0.rot.active[j] != q {
    }
  }

  /** A full round of selections leads back to the first type, or finds no credit. */
  lemma RoundEnds(i0: Inter, i: Inter)
    requires Known(i0) && Known(i) && Picked(i0, i, |i0.rot.active|)
    ensures Select(i).0.Some? ==> i0.rot.active != [] && Select(i).0 == Some(i0.rot.active[0])
  {
  }

  /** No eligible packet is forgotten: while one is queued anywhere the policy
      reports work. With weights it reports work only then. */
  lemma EligiblePacketsAreWork(s: Queues, intra: Intra, i: Inter, q: QueueType)
    requires SchedulerInv(s, intra, i)
    ensures EligibleEntries(s, q) != {} ==> InterPacketPolicy.HasWork(i)
    ensures i.weighted && InterPacketPolicy.HasWork(i) ==> exists p: QueueType :: EligibleEntries(s, p) != {}
  {
    assert q in s.counts && s.counts[q] == |EligibleEntries(s, q)|;
    if i.weighted {
      SumIsPositive(i.credits, |AllTypes|);
      if i.total > 0 && forall p: QueueType :: EligibleEntries(s, p) == {} {
        forall p: QueueType ensures i.credits[p] == 0 {
          assert EligibleEntries(s, p) == {};
          assert s.counts[p] == |EligibleEntries(s, p)|;
        }
        ZeroSum(i.credits, |AllTypes|);
      }
    } else if EligibleEntries(s, q) != {} {
      assert TypeOk(s, intra, q);
      var e :| e in EligibleEntries(s, q);
      assert e.0 in intra[q].active;
      assert q in Busy(intra);
    }
  }
}
