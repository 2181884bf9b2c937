/**
 The queues of the connection scheduler: per connection and packet type one FIFO
 of work items, the eligibility flags of data packets, and the per-type counters
 of eligible packets that the weighted policy lives on.

 On an ordered connection a push request is queued together with its solicited
 data, which waits for the grant, and unsolicited data is queued together with a
 phantom in the request queue, which keeps the data back until every earlier
 request has left. The state carries its history, and what left and entered is
 read off the history alone; the invariant `Inv` is proved for every run.
 */
module SchedulerQueues {
  import opened Lists

  /** Connection IDs are opaque names. */
  type Conn = int

  datatype QueueType = RequestQ | UnorderedRequestQ | DataQ | GrantQ | PullDataQ

  datatype Kind =
    | Phantom
    | PullRequest | PushRequest | PushGrant | PullData
    | SolicitedData | UnsolicitedData

  datatype WorkId = WorkId(rsn: int, kind: Kind)

  datatype Event =
    | Enqueued(conn: Conn, rsn: int, kind: Kind)
    | PhantomServed(conn: Conn, rsn: int)
    | Sent(conn: Conn, queue: QueueType, work: WorkId)

  datatype History = Start | Then(past: History, event: Event)

  datatype Queues = Queues(
    ordered: map<Conn, bool>,
    queues: map<(Conn, QueueType), seq<WorkId>>,
    ineligible: set<(Conn, WorkId)>,
    counts: map<QueueType, int>,
    history: History)

  const NoPackets: map<QueueType, int> :=
    map[RequestQ := 0, UnorderedRequestQ := 0, DataQ := 0, GrantQ := 0, PullDataQ := 0]

  function Initial(): Queues {
    Queues(map[], map[], {}, NoPackets, Start)
  }

  function Queue(s: Queues, c: Conn, q: QueueType): seq<WorkId> {
    if (c, q) in s.queues then s.queues[(c, q)] else []
  }

  predicate IsOrdered(s: Queues, c: Conn) {
    c in s.ordered && s.ordered[c]
  }

  predicate Eligible(s: Queues, c: Conn, w: WorkId) {
    (c, w) !in s.ineligible
  }

  /** The queue a packet joins, by its type and the connection's mode. */
  function QueueOf(ordered: bool, kind: Kind): QueueType {
    match kind
    case Phantom => RequestQ
    case PullRequest => RequestQ
    case PushRequest => if ordered then RequestQ else UnorderedRequestQ
    case PullData => PullDataQ
    case PushGrant => GrantQ
    case SolicitedData => DataQ
    case UnsolicitedData => DataQ
  }

  function Push(s: Queues, c: Conn, q: QueueType, w: WorkId): Queues {
    s.(queues := s.queues[(c, q) := Queue(s, c, q) + [w]])
  }

  function Pop(s: Queues, c: Conn, q: QueueType): Queues
    requires Queue(s, c, q) != []
  {
    s.(queues := s.queues[(c, q) := Queue(s, c, q)[1..]])
  }

  function Count(s: Queues, q: QueueType, change: int): Queues {
    s.(counts := s.counts[q := (if q in s.counts then s.counts[q] else 0) + change])
  }

  function Note(s: Queues, e: Event): Queues {
    s.(history := Then(s.history, e))
  }

  /** The packet type that gains an eligible entry when a packet is added. */
  function Activated(ordered: bool, kind: Kind): QueueType {
    if ordered && kind == UnsolicitedData then RequestQ else QueueOf(ordered, kind)
  }

  /** Queues a packet and says which packet type this activates. Ordered
      solicited data is already queued and merely becomes eligible. */
  function Add(s: Queues, c: Conn, rsn: int, kind: Kind): (Queues, QueueType) {
    var ordered := IsOrdered(s, c);
    var w := WorkId(rsn, kind);
    var t := Note(s, Enqueued(c, rsn, kind));
    var queued :=
      if ordered && kind == SolicitedData then
        t.(ineligible := t.ineligible - {(c, w)})
      else if ordered && kind == UnsolicitedData then
        Push(Push(t, c, DataQ, w), c, RequestQ, WorkId(rsn, Phantom))
          .(ineligible := t.ineligible + {(c, w)})
      else if ordered && kind == PushRequest then
        Push(Push(t, c, RequestQ, w), c, DataQ, WorkId(rsn, SolicitedData))
          .(ineligible := t.ineligible + {(c, WorkId(rsn, SolicitedData))})
      else
        Push(t, c, QueueOf(ordered, kind), w);
    (Count(queued, Activated(ordered, kind), 1), Activated(ordered, kind))
  }

  /** Serves the phantom at the head of a connection's request queue: its data
      becomes eligible. */
  function ServePhantom(s: Queues, c: Conn): Queues
    requires Queue(s, c, RequestQ) != []
  {
    var rsn := Queue(s, c, RequestQ)[0].rsn;
    var t := Note(s, PhantomServed(c, rsn));
    var u := Count(t.(ineligible := t.ineligible - {(c, WorkId(rsn, UnsolicitedData))}), DataQ, 1);
    Count(Pop(u, c, RequestQ), RequestQ, -1)
  }

  /** Hands the head of a queue to the network. */
  function Send(s: Queues, c: Conn, q: QueueType): Queues
    requires Queue(s, c, q) != []
  {
    Count(Pop(Note(s, Sent(c, q, Queue(s, c, q)[0])), c, q), q, -1)
  }

  // ---------- What a history says ----------

  ghost predicate WasEnqueued(h: History, c: Conn, rsn: int, kind: Kind) {
    match h
    case Start => false
    case Then(past, e) => e == Enqueued(c, rsn, kind) || WasEnqueued(past, c, rsn, kind)
  }

  /** What one enqueue puts into queue `q` of its connection. */
  ghost function Entry(ordered: bool, rsn: int, kind: Kind, q: QueueType): seq<WorkId> {
    if ordered && kind == SolicitedData then
      []
    else if ordered && kind == UnsolicitedData && q == RequestQ then
      [WorkId(rsn, Phantom)]
    else if ordered && kind == PushRequest && q == DataQ then
      [WorkId(rsn, SolicitedData)]
    else if q == QueueOf(ordered, kind) then
      [WorkId(rsn, kind)]
    else
      []
  }

  /** Everything that ever entered queue `q` of `c`, in transaction order. */
  ghost function Entered(ordered: bool, h: History, c: Conn, q: QueueType): seq<WorkId> {
    match h
    case Start => []
    case Then(past, e) =>
      Entered(ordered, past, c, q)
      + if e.Enqueued? && e.conn == c then Entry(ordered, e.rsn, e.kind, q) else []
  }

  /** Everything that has left it, in the order it left. */
  ghost function Left(h: History, c: Conn, q: QueueType): seq<WorkId> {
    match h
    case Start => []
    case Then(past, PhantomServed(d, rsn)) =>
      Left(past, c, q) + if d == c && q == RequestQ then [WorkId(rsn, Phantom)] else []
    case Then(past, Sent(d, p, w)) =>
      Left(past, c, q) + if d == c && p == q then [w] else []
    case Then(past, _) => Left(past, c, q)
  }

  /** On ordered connections unsolicited data is sent only after its phantom has
      been served, solicited data only after its grant has arrived. */
  ghost predicate DataWaitsItsTurn(ordered: map<Conn, bool>, h: History) {
    match h
    case Start => true
    case Then(past, e) =>
      && DataWaitsItsTurn(ordered, past)
      && (e.Sent? && e.conn in ordered && ordered[e.conn] ==>
            && (e.work.kind == UnsolicitedData ==> WorkId(e.work.rsn, Phantom) in Left(past, e.conn, RequestQ))
            && (e.work.kind == SolicitedData ==> WasEnqueued(past, e.conn, e.work.rsn, SolicitedData)))
  }

  // ---------- Runs ----------

  datatype Step =
    | Connect(conn: Conn, ordered: bool)
    | AddStep(conn: Conn, rsn: int, kind: Kind)
    | PhantomStep(conn: Conn)
    | SendStep(conn: Conn, queue: QueueType)

  /** A transaction packet is enqueued once, on a connection that exists, and a
      grant answers a push request. The scheduler serves phantoms and sends
      eligible packets from the head of a queue; which of them, and when, is
      left open, so the theorems hold whatever the gating does. */
  ghost predicate Enabled(s: Queues, step: Step) {
    match step
    case Connect(c, _) => c !in s.ordered
    case AddStep(c, rsn, kind) =>
      && c in s.ordered
      && kind != Phantom
      && !WasEnqueued(s.history, c, rsn, kind)
      && (s.ordered[c] && kind == SolicitedData ==> WasEnqueued(s.history, c, rsn, PushRequest))
    case PhantomStep(c) =>
      Queue(s, c, RequestQ) != [] && Queue(s, c, RequestQ)[0].kind == Phantom
    case SendStep(c, q) =>
      && Queue(s, c, q) != []
      && Queue(s, c, q)[0].kind != Phantom
      && Eligible(s, c, Queue(s, c, q)[0])
  }

  ghost function Do(s: Queues, step: Step): Queues
    requires Enabled(s, step)
  {
    match step
    case Connect(c, ordered) => s.(ordered := s.ordered[c := ordered])
    case AddStep(c, rsn, kind) => Add(s, c, rsn, kind).0
    case PhantomStep(c) => ServePhantom(s, c)
    case SendStep(c, q) => Send(s, c, q)
  }

  ghost predicate IsRun(ss: seq<Queues>, steps: seq<Step>) {
    && |ss| == |steps| + 1
    && ss[0] == Initial()
    && forall i :: 0 <= i < |steps| ==> Enabled(ss[i], steps[i]) && ss[i + 1] == Do(ss[i], steps[i])
  }

  // ---------- The invariant ----------

  /** Queues are FIFO: what left and what is queued is what entered, in order. */
  ghost predicate Fifo(s: Queues, c: Conn, q: QueueType) {
    && Entered(IsOrdered(s, c), s.history, c, q) == Left(s.history, c, q) + Queue(s, c, q)
    && NoDuplicates(Entered(IsOrdered(s, c), s.history, c, q))
  }

  ghost predicate FifoInv(s: Queues) {
    forall c, q :: Fifo(s, c, q)
  }

  /** Only data of ordered connections is ever ineligible: solicited data until
      its grant, unsolicited data until its phantom is served. */
  ghost predicate Barred(s: Queues, c: Conn, w: WorkId) {
    && IsOrdered(s, c)
    && match w.kind
       case SolicitedData =>
         WasEnqueued(s.history, c, w.rsn, PushRequest) && !WasEnqueued(s.history, c, w.rsn, SolicitedData)
       case UnsolicitedData =>
         WasEnqueued(s.history, c, w.rsn, UnsolicitedData) && WorkId(w.rsn, Phantom) !in Left(s.history, c, RequestQ)
       case _ => false
  }

  ghost predicate EligibilityInv(s: Queues) {
    forall c, w :: (c, w) in s.ineligible <==> Barred(s, c, w)
  }

  ghost function EligibleEntries(s: Queues, q: QueueType): set<(Conn, WorkId)> {
    set c, w | c in s.ordered && w in Queue(s, c, q) && Eligible(s, c, w) :: (c, w)
  }

  ghost predicate CountInv(s: Queues) {
    forall q: QueueType :: q in s.counts && s.counts[q] == |EligibleEntries(s, q)|
  }

  ghost predicate EnqueueInv(s: Queues) {
    && (forall c, rsn, kind :: WasEnqueued(s.history, c, rsn, kind) ==> c in s.ordered && kind != Phantom)
    && (forall c, rsn :: IsOrdered(s, c) && WasEnqueued(s.history, c, rsn, SolicitedData) ==>
          WasEnqueued(s.history, c, rsn, PushRequest))
  }

  ghost predicate Inv(s: Queues) {
    && EnqueueInv(s)
    && FifoInv(s)
    && EligibilityInv(s)
    && CountInv(s)
    && DataWaitsItsTurn(s.ordered, s.history)
  }

  // ---------- Reading histories ----------

  ghost predicate EntersBecause(ordered: bool, h: History, c: Conn, q: QueueType, w: WorkId) {
    match w.kind
    case Phantom => ordered && q == RequestQ && WasEnqueued(h, c, w.rsn, UnsolicitedData)
    case SolicitedData => q == DataQ && WasEnqueued(h, c, w.rsn, if ordered then PushRequest else SolicitedData)
    case _ => q == QueueOf(ordered, w.kind) && WasEnqueued(h, c, w.rsn, w.kind)
  }

  lemma {:induction false} EntersIff(ordered: bool, h: History, c: Conn, q: QueueType, w: WorkId)
    requires forall d, rsn :: !WasEnqueued(h, d, rsn, Phantom)
    ensures w in Entered(ordered, h, c, q) <==> EntersBecause(ordered, h, c, q, w)
  {
    match h
    case Start =>
    case Then(past, e) =>
      forall d, rsn ensures !WasEnqueued(past, d, rsn, Phantom) {
        assert !WasEnqueued(h, d, rsn, Phantom);
      }
      EntersIff(ordered, past, c, q, w);
      assert e.Enqueued? ==> e.kind != Phantom by {
        assert e.Enqueued? ==> WasEnqueued(h, e.conn, e.rsn, e.kind);
      }
  }

  lemma {:induction false} UnknownConnectionIsQuiet(ordered: bool, h: History, c: Conn, q: QueueType)
    requires forall rsn, kind :: !WasEnqueued(h, c, rsn, kind)
    ensures Entered(ordered, h, c, q) == []
  {
    match h
    case Start =>
    case Then(past, e) =>
      forall rsn, kind ensures !WasEnqueued(past, c, rsn, kind) {
        assert !WasEnqueued(h, c, rsn, kind);
      }
      UnknownConnectionIsQuiet(ordered, past, c, q);
      assert e.Enqueued? ==> WasEnqueued(h, e.conn, e.rsn, e.kind);
  }

  lemma {:induction false} SentDataHadItsTurn(ordered: map<Conn, bool>, h: History, c: Conn, q: QueueType, w: WorkId)
    requires DataWaitsItsTurn(ordered, h) && c in ordered && ordered[c]
    requires w in Left(h, c, q)
    ensures w.kind == UnsolicitedData ==> WorkId(w.rsn, Phantom) in Left(h, c, RequestQ)
    ensures w.kind == SolicitedData ==> WasEnqueued(h, c, w.rsn, SolicitedData)
  {
    match h
    case Start =>
    case Then(past, e) =>
      if w in Left(past, c, q) {
        SentDataHadItsTurn(ordered, past, c, q, w);
      }
  }

  lemma {:induction false} NewConnectionChangesNoTurn(ordered: map<Conn, bool>, c: Conn, mode: bool, h: History)
    requires c !in ordered && DataWaitsItsTurn(ordered, h)
    requires forall q :: Left(h, c, q) == []
    ensures DataWaitsItsTurn(ordered[c := mode], h)
  {
    match h
    case Start =>
    case Then(past, e) =>
      forall q ensures Left(past, c, q) == [] {
        assert Left(h, c, q) == [];
      }
      NewConnectionChangesNoTurn(ordered, c, mode, past);
      if e.Sent? {
        assert Left(h, c, e.queue) == [];
      }
  }

  /** With FIFO queues an item is queued iff it entered and has not left. */
  lemma QueuedIff(s: Queues, c: Conn, q: QueueType, w: WorkId)
    requires Fifo(s, c, q)
    ensures w in Queue(s, c, q) <==>
              w in Entered(IsOrdered(s, c), s.history, c, q) && w !in Left(s.history, c, q)
  {
    var all, l, k := Entered(IsOrdered(s, c), s.history, c, q), Left(s.history, c, q), Queue(s, c, q);
    if w in k {
      var j :| 0 <= j < |k| && k[j] == w;
      assert all[|l| + j] == w;
      assert forall i :: 0 <= i < |l| ==> all[i] == l[i];
    }
  }

  lemma HeadLeaves(s: Queues, c: Conn, q: QueueType, w: WorkId)
    requires Fifo(s, c, q) && Queue(s, c, q) != []
    ensures w in Queue(s, c, q)[1..] <==> w in Queue(s, c, q) && w != Queue(s, c, q)[0]
  {
    var all, l, k := Entered(IsOrdered(s, c), s.history, c, q), Left(s.history, c, q), Queue(s, c, q);
    forall j | 1 <= j < |k| ensures k[j] != k[0] {
      assert all[|l| + j] == k[j] && all[|l|] == k[0];
    }
  }

  /** Two states that differ, as far as eligible entries of `q` go, at most by
      `w` of connection `c`. */
  lemma EligibleGrows(s: Queues, t: Queues, c: Conn, q: QueueType, w: WorkId, grows: bool)
    requires t.ordered.Keys == s.ordered.Keys && c in s.ordered
    requires forall d :: d != c ==> Queue(t, d, q) == Queue(s, d, q)
    requires forall d, v :: d != c ==> (Eligible(t, d, v) <==> Eligible(s, d, v))
    requires forall v :: v in Queue(t, c, q) && Eligible(t, c, v) <==>
                         (v in Queue(s, c, q) && Eligible(s, c, v)) || (grows && v == w)
    ensures EligibleEntries(t, q) == EligibleEntries(s, q) + if grows then {(c, w)} else {}
  {
    forall d, v
      ensures (d, v) in EligibleEntries(t, q) <==> (d, v) in EligibleEntries(s, q) || (grows && (d, v) == (c, w))
    {
    }
  }

  lemma QueuedConnectionIsKnown(s: Queues, c: Conn, q: QueueType)
    requires Inv(s) && Queue(s, c, q) != []
    ensures c in s.ordered
  {
    var w := Queue(s, c, q)[0];
    assert Fifo(s, c, q);
    QueuedIff(s, c, q, w);
    EntersIff(IsOrdered(s, c), s.history, c, q, w);
  }

  lemma DataIsOnlyInItsQueue(s: Queues, c: Conn, q: QueueType, w: WorkId)
    requires EnqueueInv(s) && Fifo(s, c, q) && w in Queue(s, c, q)
    requires w.kind == UnsolicitedData || w.kind == SolicitedData
    ensures q == DataQ
  {
    QueuedIff(s, c, q, w);
    EntersIff(IsOrdered(s, c), s.history, c, q, w);
  }

  // ---------- Connecting ----------

  lemma ConnectKeepsInv(s: Queues, c: Conn, mode: bool)
    requires Inv(s) && c !in s.ordered
    ensures Inv(s.(ordered := s.ordered[c := mode]))
  {
    var t := s.(ordered := s.ordered[c := mode]);
    forall q ensures Queue(s, c, q) == [] && Left(s.history, c, q) == [] && Fifo(t, c, q) {
      assert Fifo(s, c, q);
      UnknownConnectionIsQuiet(false, s.history, c, q);
      UnknownConnectionIsQuiet(mode, s.history, c, q);
    }
    forall d, q ensures Fifo(t, d, q) {
      assert Fifo(s, d, q);
    }
    forall d, w ensures (d, w) in t.ineligible <==> Barred(t, d, w) {
      assert (d, w) in s.ineligible <==> Barred(s, d, w);
    }
    forall q: QueueType ensures EligibleEntries(t, q) == EligibleEntries(s, q) {
      assert Queue(s, c, q) == [];
      assert forall d :: Queue(t, d, q) == Queue(s, d, q);
    }
    NewConnectionChangesNoTurn(s.ordered, c, mode, s.history);
  }

  // ---------- Adding a packet ----------

  /** What adding a packet does, queue by queue and flag by flag. */
  ghost predicate Added(s: Queues, c: Conn, rsn: int, kind: Kind, t: Queues) {
    var o := IsOrdered(s, c);
    && t.ordered == s.ordered
    && t.history == Then(s.history, Enqueued(c, rsn, kind))
    && (forall d, q :: Queue(t, d, q) == Queue(s, d, q) + if d == c then Entry(o, rsn, kind, q) else [])
    && t.ineligible == (if o && kind == SolicitedData then s.ineligible - {(c, WorkId(rsn, kind))}
                        else if o && kind == UnsolicitedData then s.ineligible + {(c, WorkId(rsn, kind))}
                        else if o && kind == PushRequest then s.ineligible + {(c, WorkId(rsn, SolicitedData))}
                        else s.ineligible)
    && (forall q :: q in s.counts ==>
          q in t.counts && t.counts[q] == s.counts[q] + if q == Activated(o, kind) then 1 else 0)
  }

  lemma AddAdds(s: Queues, c: Conn, rsn: int, kind: Kind)
    requires forall q: QueueType :: q in s.counts
    ensures Added(s, c, rsn, kind, Add(s, c, rsn, kind).0)
  {
    if IsOrdered(s, c) {
      match kind
      case SolicitedData =>
      case UnsolicitedData =>
      case PushRequest =>
      case _ =>
    }
  }

  /** The entry a fresh packet makes was never in that queue before. */
  lemma FreshEntry(s: Queues, c: Conn, rsn: int, kind: Kind, q: QueueType)
    requires EnqueueInv(s) && Enabled(s, AddStep(c, rsn, kind))
    requires Entry(s.ordered[c], rsn, kind, q) != []
    ensures |Entry(s.ordered[c], rsn, kind, q)| == 1
    ensures Entry(s.ordered[c], rsn, kind, q)[0] !in Entered(s.ordered[c], s.history, c, q)
  {
    EntersIff(s.ordered[c], s.history, c, q, Entry(s.ordered[c], rsn, kind, q)[0]);
  }

  lemma AddKeepsFifo(s: Queues, c: Conn, rsn: int, kind: Kind, t: Queues, d: Conn, q: QueueType)
    requires EnqueueInv(s) && Enabled(s, AddStep(c, rsn, kind)) && Added(s, c, rsn, kind, t)
    requires Fifo(s, d, q)
    ensures Fifo(t, d, q)
  {
    var o := IsOrdered(s, d);
    var entry := if d == c then Entry(o, rsn, kind, q) else [];
    assert Entered(o, t.history, d, q) == Entered(o, s.history, d, q) + entry;
    assert Left(t.history, d, q) == Left(s.history, d, q);
    assert Entered(o, t.history, d, q) == Left(t.history, d, q) + Queue(t, d, q);
    if entry != [] {
      FreshEntry(s, c, rsn, kind, q);
      assert entry == [entry[0]];
      AppendKeepsDistinct(Entered(o, s.history, d, q), entry[0]);
    } else {
      assert Entered(o, t.history, d, q) == Entered(o, s.history, d, q);
    }
  }

  lemma AddKeepsEnqueueInv(s: Queues, c: Conn, rsn: int, kind: Kind, t: Queues)
    requires EnqueueInv(s) && Enabled(s, AddStep(c, rsn, kind)) && Added(s, c, rsn, kind, t)
    ensures EnqueueInv(t)
  {
    forall d, r | IsOrdered(t, d) && WasEnqueued(t.history, d, r, SolicitedData)
      ensures WasEnqueued(t.history, d, r, PushRequest)
    {
      assert IsOrdered(s, d);
      if WasEnqueued(s.history, d, r, SolicitedData) {
        assert WasEnqueued(s.history, d, r, PushRequest);
      }
    }
  }

  lemma AddKeepsEligibility(s: Queues, c: Conn, rsn: int, kind: Kind, t: Queues, d: Conn, w: WorkId)
    requires EnqueueInv(s) && Enabled(s, AddStep(c, rsn, kind)) && Added(s, c, rsn, kind, t)
    requires Fifo(s, c, RequestQ)
    requires (d, w) in s.ineligible <==> Barred(s, d, w)
    ensures (d, w) in t.ineligible <==> Barred(t, d, w)
  {
    if s.ordered[c] && kind == UnsolicitedData && d == c && w == WorkId(rsn, kind) {
      EntersIff(true, s.history, c, RequestQ, WorkId(rsn, Phantom));
      assert WorkId(rsn, Phantom) !in Entered(true, s.history, c, RequestQ);
    }
  }

  /** A grant makes one queued, so far ineligible entry eligible. */
  lemma GrantCounts(s: Queues, c: Conn, rsn: int, t: Queues, q: QueueType)
    requires EnqueueInv(s) && EligibilityInv(s) && DataWaitsItsTurn(s.ordered, s.history) && Fifo(s, c, q)
    requires Enabled(s, AddStep(c, rsn, SolicitedData)) && s.ordered[c] && Added(s, c, rsn, SolicitedData, t)
    ensures EligibleEntries(t, q) == EligibleEntries(s, q) + if q == DataQ then {(c, WorkId(rsn, SolicitedData))} else {}
    ensures q == DataQ ==> (c, WorkId(rsn, SolicitedData)) !in EligibleEntries(s, q)
  {
    var w := WorkId(rsn, SolicitedData);
    assert Barred(s, c, w);
    EntersIff(true, s.history, c, q, w);
    QueuedIff(s, c, q, w);
    if q == DataQ && w in Left(s.history, c, q) {
      SentDataHadItsTurn(s.ordered, s.history, c, q, w);
    }
    assert forall d :: Queue(t, d, q) == Queue(s, d, q);
  }

  /** Of the entries a packet makes, the one in the activated queue is eligible
      and the other is not. */
  lemma ActivatedEntryIsEligible(s: Queues, c: Conn, rsn: int, kind: Kind, t: Queues, q: QueueType, w: WorkId)
    requires EnqueueInv(s) && EligibilityInv(s) && Enabled(s, AddStep(c, rsn, kind)) && Added(s, c, rsn, kind, t)
    requires !(s.ordered[c] && kind == SolicitedData)
    requires Entry(s.ordered[c], rsn, kind, q) == [w]
    ensures Eligible(t, c, w) <==> q == Activated(s.ordered[c], kind)
  {
    assert (c, w) in s.ineligible <==> Barred(s, c, w);
  }

  /** Adding a packet gains the activated type, and no other, one eligible entry. */
  lemma AddGainsOne(s: Queues, c: Conn, rsn: int, kind: Kind, t: Queues, q: QueueType) returns (w: WorkId)
    requires EnqueueInv(s) && EligibilityInv(s) && DataWaitsItsTurn(s.ordered, s.history) && Fifo(s, c, q)
    requires Enabled(s, AddStep(c, rsn, kind)) && Added(s, c, rsn, kind, t)
    ensures EligibleEntries(t, q) ==
              EligibleEntries(s, q) + if q == Activated(s.ordered[c], kind) then {(c, w)} else {}
    ensures q == Activated(s.ordered[c], kind) ==> (c, w) !in EligibleEntries(s, q)
  {
    hide EligibilityInv, DataWaitsItsTurn, EnqueueInv, Fifo, Added;
    var o := s.ordered[c];
    w := WorkId(rsn, kind);
    if o && kind == SolicitedData {
      GrantCounts(s, c, rsn, t, q);
    } else if Entry(o, rsn, kind, q) == [] {
      AddedEntryCounts(s, c, rsn, kind, t, q, w);
    } else {
      FreshEntry(s, c, rsn, kind, q);
      w := Entry(o, rsn, kind, q)[0];
      assert Entry(o, rsn, kind, q) == [w];
      AddedEntryCounts(s, c, rsn, kind, t, q, w);
      ActivatedEntryIsEligible(s, c, rsn, kind, t, q, w);
      QueuedIff(s, c, q, w);
    }
  }

  lemma AddKeepsCount(s: Queues, c: Conn, rsn: int, kind: Kind, t: Queues, q: QueueType)
    requires EnqueueInv(s) && EligibilityInv(s) && DataWaitsItsTurn(s.ordered, s.history) && Fifo(s, c, q)
    requires q in s.counts && s.counts[q] == |EligibleEntries(s, q)|
    requires Enabled(s, AddStep(c, rsn, kind)) && Added(s, c, rsn, kind, t)
    ensures q in t.counts && t.counts[q] == |EligibleEntries(t, q)|
  {
    var w := AddGainsOne(s, c, rsn, kind, t, q);
  }

  /** The packet that is added changes no one else's eligibility. */
  lemma AddLeavesOthersAlone(s: Queues, c: Conn, rsn: int, kind: Kind, t: Queues, q: QueueType, v: WorkId)
    requires EnqueueInv(s) && Enabled(s, AddStep(c, rsn, kind)) && Added(s, c, rsn, kind, t)
    requires Fifo(s, c, q) && v in Queue(s, c, q)
    requires !(s.ordered[c] && kind == SolicitedData)
    ensures Eligible(t, c, v) <==> Eligible(s, c, v)
  {
    EntersIff(s.ordered[c], s.history, c, q, v);
    QueuedIff(s, c, q, v);
  }

  lemma AddedEntryCounts(s: Queues, c: Conn, rsn: int, kind: Kind, t: Queues, q: QueueType, w: WorkId)
    requires EnqueueInv(s) && Enabled(s, AddStep(c, rsn, kind)) && Added(s, c, rsn, kind, t)
    requires Fifo(s, c, q)
    requires !(s.ordered[c] && kind == SolicitedData)
    requires Entry(s.ordered[c], rsn, kind, q) in {[], [w]}
    ensures EligibleEntries(t, q) == EligibleEntries(s, q) +
              if Entry(s.ordered[c], rsn, kind, q) == [w] && Eligible(t, c, w) then {(c, w)} else {}
  {
    var grows := Entry(s.ordered[c], rsn, kind, q) == [w] && Eligible(t, c, w);
    forall v
      ensures v in Queue(t, c, q) && Eligible(t, c, v) <==>
                (v in Queue(s, c, q) && Eligible(s, c, v)) || (grows && v == w)
    {
      if v in Queue(s, c, q) {
        AddLeavesOthersAlone(s, c, rsn, kind, t, q, v);
      }
    }
    EligibleGrows(s, t, c, q, w, grows);
  }

  lemma AddKeepsInv(s: Queues, c: Conn, rsn: int, kind: Kind)
    requires Inv(s) && Enabled(s, AddStep(c, rsn, kind))
    ensures Inv(Add(s, c, rsn, kind).0)
  {
    var t := Add(s, c, rsn, kind).0;
    AddAdds(s, c, rsn, kind);
    AddKeepsEnqueueInv(s, c, rsn, kind, t);
    forall d, q ensures Fifo(t, d, q) {
      assert Fifo(s, d, q);
      AddKeepsFifo(s, c, rsn, kind, t, d, q);
    }
    forall d, w ensures (d, w) in t.ineligible <==> Barred(t, d, w) {
      assert Fifo(s, c, RequestQ);
      assert (d, w) in s.ineligible <==> Barred(s, d, w);
      AddKeepsEligibility(s, c, rsn, kind, t, d, w);
    }
    forall q: QueueType ensures q in t.counts && t.counts[q] == |EligibleEntries(t, q)| {
      assert Fifo(s, c, q);
      AddKeepsCount(s, c, rsn, kind, t, q);
    }
  }

  // ---------- Serving a phantom ----------

  /** Popping the head of a FIFO queue moves it from queued to left. */
  lemma PopKeepsFifo(s: Queues, t: Queues, c: Conn, q: QueueType)
    requires Fifo(s, c, q) && Queue(s, c, q) != []
    requires t.ordered == s.ordered && Queue(t, c, q) == Queue(s, c, q)[1..]
    requires Entered(IsOrdered(s, c), t.history, c, q) == Entered(IsOrdered(s, c), s.history, c, q)
    requires Left(t.history, c, q) == Left(s.history, c, q) + [Queue(s, c, q)[0]]
    ensures Fifo(t, c, q)
  {
    assert Queue(s, c, q) == [Queue(s, c, q)[0]] + Queue(t, c, q);
  }

  ghost predicate PhantomIsNext(s: Queues, c: Conn) {
    Queue(s, c, RequestQ) != [] && Queue(s, c, RequestQ)[0].kind == Phantom
  }

  /** The data behind a queued phantom is itself queued and still barred. */
  lemma PhantomHoldsItsData(s: Queues, c: Conn, rsn: int)
    requires EnqueueInv(s) && EligibilityInv(s) && DataWaitsItsTurn(s.ordered, s.history)
    requires Fifo(s, c, RequestQ) && Fifo(s, c, DataQ)
    requires WorkId(rsn, Phantom) in Queue(s, c, RequestQ)
    ensures IsOrdered(s, c)
    ensures WorkId(rsn, UnsolicitedData) in Queue(s, c, DataQ)
    ensures (c, WorkId(rsn, UnsolicitedData)) in s.ineligible
  {
    var o := IsOrdered(s, c);
    QueuedIff(s, c, RequestQ, WorkId(rsn, Phantom));
    EntersIff(o, s.history, c, RequestQ, WorkId(rsn, Phantom));
    var w := WorkId(rsn, UnsolicitedData);
    EntersIff(o, s.history, c, DataQ, w);
    QueuedIff(s, c, DataQ, w);
    assert Barred(s, c, w);
    if w in Left(s.history, c, DataQ) {
      SentDataHadItsTurn(s.ordered, s.history, c, DataQ, w);
    }
  }

  lemma ServeKeepsFifo(s: Queues, c: Conn, t: Queues, d: Conn, q: QueueType)
    requires PhantomIsNext(s, c) && t == ServePhantom(s, c) && Fifo(s, d, q)
    ensures Fifo(t, d, q)
  {
    if d == c && q == RequestQ {
      PopKeepsFifo(s, t, c, q);
    }
  }

  lemma ServeKeepsEligibility(s: Queues, c: Conn, t: Queues, d: Conn, w: WorkId)
    requires PhantomIsNext(s, c) && t == ServePhantom(s, c)
    requires (d, w) in s.ineligible <==> Barred(s, d, w)
    ensures (d, w) in t.ineligible <==> Barred(t, d, w)
  {
  }

  /** The head of queue `q` of `c` is gone, all other queues are as before. */
  ghost predicate Popped(s: Queues, t: Queues, c: Conn, q: QueueType) {
    && t.ordered == s.ordered
    && Queue(s, c, q) != []
    && forall d, p :: Queue(t, d, p) == if d == c && p == q then Queue(s, c, q)[1..] else Queue(s, d, p)
  }

  lemma PopLosesHead(s: Queues, t: Queues, c: Conn, q: QueueType)
    requires Popped(s, t, c, q) && Fifo(s, c, q) && c in s.ordered
    requires Eligible(s, c, Queue(s, c, q)[0])
    requires forall d, v :: v in Queue(t, d, q) ==> (Eligible(t, d, v) <==> Eligible(s, d, v))
    ensures EligibleEntries(t, q) == EligibleEntries(s, q) - {(c, Queue(s, c, q)[0])}
    ensures (c, Queue(s, c, q)[0]) in EligibleEntries(s, q)
  {
    hide Entered, Left;
    var head := Queue(s, c, q)[0];
    forall d, v
      ensures (d, v) in EligibleEntries(t, q) <==> (d, v) in EligibleEntries(s, q) && (d, v) != (c, head)
    {
      HeadLeaves(s, c, q, v);
    }
  }

  lemma ServePops(s: Queues, c: Conn)
    requires PhantomIsNext(s, c) && forall p: QueueType :: p in s.counts
    ensures Popped(s, ServePhantom(s, c), c, RequestQ)
    ensures forall p: QueueType :: p in ServePhantom(s, c).counts
    ensures forall p: QueueType :: ServePhantom(s, c).counts[p] ==
              s.counts[p] + if p == RequestQ then -1 else if p == DataQ then 1 else 0
  {
  }

  lemma ServeKeepsRequestCount(s: Queues, c: Conn, t: Queues)
    requires EnqueueInv(s) && EligibilityInv(s) && Fifo(s, c, RequestQ)
    requires PhantomIsNext(s, c) && IsOrdered(s, c)
    requires Popped(s, t, c, RequestQ)
    requires t.ineligible == s.ineligible - {(c, WorkId(Queue(s, c, RequestQ)[0].rsn, UnsolicitedData))}
    ensures |EligibleEntries(t, RequestQ)| == |EligibleEntries(s, RequestQ)| - 1
    ensures EligibleEntries(t, RequestQ) <= EligibleEntries(s, RequestQ)
  {
    var head := Queue(s, c, RequestQ)[0];
    var data := WorkId(head.rsn, UnsolicitedData);
    assert !Barred(s, c, head);
    if data in Queue(s, c, RequestQ) {
      DataIsOnlyInItsQueue(s, c, RequestQ, data);
    }
    PopLosesHead(s, t, c, RequestQ);
  }

  lemma ServeKeepsOtherCount(s: Queues, c: Conn, t: Queues, q: QueueType)
    requires EnqueueInv(s) && Fifo(s, c, q) && q != RequestQ
    requires PhantomIsNext(s, c) && IsOrdered(s, c)
    requires Popped(s, t, c, RequestQ)
    requires t.ineligible == s.ineligible - {(c, WorkId(Queue(s, c, RequestQ)[0].rsn, UnsolicitedData))}
    requires WorkId(Queue(s, c, RequestQ)[0].rsn, UnsolicitedData) in Queue(s, c, DataQ)
    requires (c, WorkId(Queue(s, c, RequestQ)[0].rsn, UnsolicitedData)) in s.ineligible
    ensures |EligibleEntries(t, q)| == |EligibleEntries(s, q)| + if q == DataQ then 1 else 0
    ensures EligibleEntries(t, q) == EligibleEntries(s, q) +
              if q == DataQ then {(c, WorkId(Queue(s, c, RequestQ)[0].rsn, UnsolicitedData))} else {}
  {
    var data := WorkId(Queue(s, c, RequestQ)[0].rsn, UnsolicitedData);
    if q != DataQ && data in Queue(s, c, q) {
      DataIsOnlyInItsQueue(s, c, q, data);
    }
    EligibleGrows(s, t, c, q, data, q == DataQ);
  }

  lemma ServeKeepsCount(s: Queues, c: Conn, t: Queues, q: QueueType)
    requires EnqueueInv(s) && EligibilityInv(s) && DataWaitsItsTurn(s.ordered, s.history)
    requires Fifo(s, c, RequestQ) && Fifo(s, c, DataQ) && Fifo(s, c, q)
    requires forall p: QueueType :: p in s.counts
    requires s.counts[q] == |EligibleEntries(s, q)|
    requires PhantomIsNext(s, c) && t == ServePhantom(s, c)
    ensures q in t.counts && t.counts[q] == |EligibleEntries(t, q)|
  {
    PhantomHoldsItsData(s, c, Queue(s, c, RequestQ)[0].rsn);
    ServePops(s, c);
    if q == RequestQ {
      ServeKeepsRequestCount(s, c, t);
    } else {
      ServeKeepsOtherCount(s, c, t, q);
    }
  }

  /** Steps that enqueue nothing keep what is known about enqueues. */
  lemma DeparturesKeepEnqueueInv(s: Queues, t: Queues, e: Event)
    requires EnqueueInv(s) && t.ordered == s.ordered && t.history == Then(s.history, e) && !e.Enqueued?
    ensures EnqueueInv(t)
  {
    forall d, rsn | IsOrdered(t, d) && WasEnqueued(t.history, d, rsn, SolicitedData)
      ensures WasEnqueued(t.history, d, rsn, PushRequest)
    {
      assert IsOrdered(s, d) && WasEnqueued(s.history, d, rsn, SolicitedData);
    }
  }

  lemma ServeKeepsInv(s: Queues, c: Conn)
    requires Inv(s) && PhantomIsNext(s, c)
    ensures Inv(ServePhantom(s, c))
  {
    var t := ServePhantom(s, c);
    forall d, q ensures Fifo(t, d, q) {
      assert Fifo(s, d, q);
      ServeKeepsFifo(s, c, t, d, q);
    }
    forall d, w ensures (d, w) in t.ineligible <==> Barred(t, d, w) {
      assert (d, w) in s.ineligible <==> Barred(s, d, w);
      ServeKeepsEligibility(s, c, t, d, w);
    }
    forall q: QueueType ensures q in t.counts && t.counts[q] == |EligibleEntries(t, q)| {
      assert Fifo(s, c, RequestQ) && Fifo(s, c, DataQ) && Fifo(s, c, q);
      ServeKeepsCount(s, c, t, q);
    }
    DeparturesKeepEnqueueInv(s, t, PhantomServed(c, Queue(s, c, RequestQ)[0].rsn));
  }

  // ---------- Sending a packet ----------

  ghost predicate CanLeave(s: Queues, c: Conn, q: QueueType) {
    && Queue(s, c, q) != []
    && Queue(s, c, q)[0].kind != Phantom
    && Eligible(s, c, Queue(s, c, q)[0])
  }

  lemma SendKeepsFifo(s: Queues, c: Conn, q: QueueType, t: Queues, d: Conn, p: QueueType)
    requires CanLeave(s, c, q) && t == Send(s, c, q) && Fifo(s, d, p)
    ensures Fifo(t, d, p)
  {
    if d == c && p == q {
      PopKeepsFifo(s, t, c, q);
    }
  }

  lemma SendKeepsEligibility(s: Queues, c: Conn, q: QueueType, t: Queues, d: Conn, w: WorkId)
    requires CanLeave(s, c, q) && t == Send(s, c, q)
    requires (d, w) in s.ineligible <==> Barred(s, d, w)
    ensures (d, w) in t.ineligible <==> Barred(t, d, w)
  {
  }

  lemma SendPops(s: Queues, c: Conn, q: QueueType)
    requires CanLeave(s, c, q) && forall p: QueueType :: p in s.counts
    ensures Popped(s, Send(s, c, q), c, q)
    ensures forall p: QueueType :: p in Send(s, c, q).counts
    ensures forall p: QueueType :: Send(s, c, q).counts[p] == s.counts[p] + if p == q then -1 else 0
  {
  }

  lemma SendKeepsCount(s: Queues, c: Conn, q: QueueType, t: Queues, p: QueueType)
    requires CanLeave(s, c, q) && Popped(s, t, c, q) && t.ineligible == s.ineligible
    requires Fifo(s, c, q) && c in s.ordered
    ensures |EligibleEntries(t, p)| == |EligibleEntries(s, p)| + if p == q then -1 else 0
    ensures EligibleEntries(t, p) <= EligibleEntries(s, p) && (p != q ==> EligibleEntries(t, p) == EligibleEntries(s, p))
  {
    if p == q {
      PopLosesHead(s, t, c, q);
    } else {
      EligibleGrows(s, t, c, p, Queue(s, c, q)[0], false);
    }
  }

  lemma SendHadItsTurn(s: Queues, c: Conn, q: QueueType)
    requires Inv(s) && CanLeave(s, c, q)
    ensures DataWaitsItsTurn(s.ordered, Send(s, c, q).history)
  {
    var w := Queue(s, c, q)[0];
    assert Fifo(s, c, q);
    QueuedIff(s, c, q, w);
    EntersIff(IsOrdered(s, c), s.history, c, q, w);
    assert !Barred(s, c, w);
  }

  lemma SendKeepsInv(s: Queues, c: Conn, q: QueueType)
    requires Inv(s) && CanLeave(s, c, q)
    ensures Inv(Send(s, c, q))
  {
    var t := Send(s, c, q);
    QueuedConnectionIsKnown(s, c, q);
    forall d, p ensures Fifo(t, d, p) {
      assert Fifo(s, d, p);
      SendKeepsFifo(s, c, q, t, d, p);
    }
    forall d, w ensures (d, w) in t.ineligible <==> Barred(t, d, w) {
      assert (d, w) in s.ineligible <==> Barred(s, d, w);
      SendKeepsEligibility(s, c, q, t, d, w);
    }
    forall p: QueueType ensures p in t.counts && t.counts[p] == |EligibleEntries(t, p)| {
      assert Fifo(s, c, q);
      SendPops(s, c, q);
      SendKeepsCount(s, c, q, t, p);
    }
    SendHadItsTurn(s, c, q);
    DeparturesKeepEnqueueInv(s, t, Sent(c, q, Queue(s, c, q)[0]));
  }

  // ---------- What every run guarantees ----------

  lemma StepKeepsInv(s: Queues, step: Step)
    requires Inv(s) && Enabled(s, step)
    ensures Inv(Do(s, step))
  {
    match step
    case Connect(c, mode) => ConnectKeepsInv(s, c, mode);
    case AddStep(c, rsn, kind) => AddKeepsInv(s, c, rsn, kind);
    case PhantomStep(c) => ServeKeepsInv(s, c);
    case SendStep(c, q) => SendKeepsInv(s, c, q);
  }

  lemma InitialInv()
    ensures Inv(Initial())
  {
    var s := Initial();
    forall q: QueueType ensures q in s.counts && s.counts[q] == |EligibleEntries(s, q)| {
      assert q.RequestQ? || q.UnorderedRequestQ? || q.DataQ? || q.GrantQ? || q.PullDataQ?;
      assert EligibleEntries(s, q) == {};
    }
  }

  lemma {:induction false} EveryRunKeepsInv(ss: seq<Queues>, steps: seq<Step>, i: nat)
    requires IsRun(ss, steps) && i < |ss|
    ensures Inv(ss[i])
  {
    if i == 0 {
      InitialInv();
    } else {
      EveryRunKeepsInv(ss, steps, i - 1);
      StepKeepsInv(ss[i - 1], steps[i - 1]);
    }
  }

  /** Whatever has left a queue is the beginning of what entered it, in order:
      in particular solicited and unsolicited data of an ordered connection leave
      in transaction order. */
  lemma PacketsLeaveInOrder(ss: seq<Queues>, steps: seq<Step>, i: nat, c: Conn, q: QueueType)
    requires IsRun(ss, steps) && i < |ss|
    ensures Left(ss[i].history, c, q) <= Entered(IsOrdered(ss[i], c), ss[i].history, c, q)
  {
    EveryRunKeepsInv(ss, steps, i);
    assert Fifo(ss[i], c, q);
  }

  /** Unsolicited data of an ordered connection leaves only after every request
      that was queued before its phantom has left. */
  lemma DataFollowsEarlierRequests(ss: seq<Queues>, steps: seq<Step>, i: nat, c: Conn, rsn: int, k: nat)
    requires IsRun(ss, steps) && i < |ss| && IsOrdered(ss[i], c)
    requires WorkId(rsn, UnsolicitedData) in Left(ss[i].history, c, DataQ)
    requires k < |Entered(true, ss[i].history, c, RequestQ)|
    requires exists j :: k <= j < |Entered(true, ss[i].history, c, RequestQ)|
                         && Entered(true, ss[i].history, c, RequestQ)[j] == WorkId(rsn, Phantom)
    ensures Entered(true, ss[i].history, c, RequestQ)[k] in Left(ss[i].history, c, RequestQ)
  {
    var s := ss[i];
    EveryRunKeepsInv(ss, steps, i);
    SentDataHadItsTurn(s.ordered, s.history, c, DataQ, WorkId(rsn, UnsolicitedData));
    assert Fifo(s, c, RequestQ);
    var all, l := Entered(true, s.history, c, RequestQ), Left(s.history, c, RequestQ);
    var j :| k <= j < |all| && all[j] == WorkId(rsn, Phantom);
    var m :| 0 <= m < |l| && l[m] == WorkId(rsn, Phantom);
    assert all[m] == l[m];
    assert m == j;
    assert all[k] == l[k];
  }

  /** Each queue holds only packets of its own: grants, pull data, push requests of
      unordered connections, requests in transaction order, and push data. */
  lemma QueuesHoldTheirKinds(ss: seq<Queues>, steps: seq<Step>, i: nat, c: Conn, q: QueueType, w: WorkId)
    requires IsRun(ss, steps) && i < |ss| && w in Queue(ss[i], c, q)
    ensures match q
            case GrantQ => w.kind == PushGrant
            case PullDataQ => w.kind == PullData
            case UnorderedRequestQ => w.kind == PushRequest && !IsOrdered(ss[i], c)
            case RequestQ => w.kind == PullRequest || ((w.kind == PushRequest || w.kind == Phantom) && IsOrdered(ss[i], c))
            case DataQ => w.kind == SolicitedData || w.kind == UnsolicitedData
  {
    var s := ss[i];
    EveryRunKeepsInv(ss, steps, i);
    assert Fifo(s, c, q);
    QueuedIff(s, c, q, w);
    EntersIff(IsOrdered(s, c), s.history, c, q, w);
  }

  /** What a new packet adds to queue `q` of its connection: each type has one queue.
      On an ordered connection a push request brings its data along, unsolicited data
      its phantom, and solicited data is queued already. */
  ghost function Joins(ordered: bool, rsn: int, kind: Kind, q: QueueType): seq<WorkId> {
    match q
    case GrantQ => if kind == PushGrant then [WorkId(rsn, PushGrant)] else []
    case PullDataQ => if kind == PullData then [WorkId(rsn, PullData)] else []
    case UnorderedRequestQ => if kind == PushRequest && !ordered then [WorkId(rsn, PushRequest)] else []
    case RequestQ =>
      if kind == PullRequest then [WorkId(rsn, PullRequest)]
      else if kind == PushRequest && ordered then [WorkId(rsn, PushRequest)]
      else if kind == UnsolicitedData && ordered then [WorkId(rsn, Phantom)]
      else []
    case DataQ =>
      if kind == UnsolicitedData then [WorkId(rsn, UnsolicitedData)]
      else if kind == PushRequest && ordered then [WorkId(rsn, SolicitedData)]
      else if kind == SolicitedData && !ordered then [WorkId(rsn, SolicitedData)]
      else []
  }

  /** A new packet goes to the tail of its own queue and to no other. */
  lemma NewPacketGoesToTheTail(s: Queues, c: Conn, rsn: int, kind: Kind, d: Conn, q: QueueType)
    requires Inv(s) && Enabled(s, AddStep(c, rsn, kind))
    ensures Queue(Add(s, c, rsn, kind).0, d, q) ==
              Queue(s, d, q) + if d == c then Joins(s.ordered[c], rsn, kind, q) else []
  {
    hide EnqueueInv, FifoInv, EligibilityInv, DataWaitsItsTurn, Queue, Add;
    AddAdds(s, c, rsn, kind);
    assert Entry(s.ordered[c], rsn, kind, q) == Joins(s.ordered[c], rsn, kind, q);
  }

  /** The counter of a packet type is the number of eligible entries queued in it
      over all connections. */
  lemma CountersCountEligiblePackets(ss: seq<Queues>, steps: seq<Step>, i: nat, q: QueueType)
    requires IsRun(ss, steps) && i < |ss|
    ensures q in ss[i].counts && ss[i].counts[q] == |EligibleEntries(ss[i], q)|
  {
    EveryRunKeepsInv(ss, steps, i);
  }
}
