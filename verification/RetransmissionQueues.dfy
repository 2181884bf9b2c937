/**
 What the retransmission scheduler works on: per connection two sets of packets
 ordered by sequence number, a rotation list of connections with work and, for each
 connection, a rotation list of its two queues.
 */
module RetransmissionQueues {
  import opened Lists
  import opened SerialNumbers

  type Conn = nat
  datatype WindowType = RequestWindow | DataWindow

  function WindowOf(kind: Kind): WindowType {
    if kind.PullRequest? || kind.PushRequest? then RequestWindow else DataWindow
  }

  datatype State = State(
    queues: map<(Conn, WindowType), WorkSet>,
    inter: Rotation<Conn>,
    intra: map<Conn, Rotation<WindowType>>)

  function Initial(): State {
    State(map[], Rotation(map[], [], []), map[])
  }

  function Queue(s: State, c: Conn, q: WindowType): WorkSet {
    if (c, q) in s.queues then s.queues[(c, q)] else []
  }

  function ActiveQueues(s: State, c: Conn): seq<WindowType> {
    if c in s.intra then s.intra[c].active else []
  }

  // ---------- Operations ----------

  const NewQueues: Rotation<WindowType> :=
    Rotation(map[RequestWindow := false, DataWindow := false], [], [RequestWindow, DataWindow])

  function Connect(s: State, c: Conn): State {
    State(s.queues[(c, RequestWindow) := []][(c, DataWindow) := []], Join(s.inter, c), s.intra[c := NewQueues])
  }

  predicate Connected(s: State, c: Conn) {
    && c in s.inter.isActive && c in s.intra
    && RequestWindow in s.intra[c].isActive && DataWindow in s.intra[c].isActive
  }

  /** Rejects a packet whose earlier retransmission is still queued. */
  function Enqueue(s: State, c: Conn, w: WorkId): State
    requires Connected(s, c)
  {
    var q := WindowOf(w.kind);
    if Has(Queue(s, c, q), w.psn) then s
    else State(s.queues[(c, q) := Insert(Queue(s, c, q), w)], Activate(s.inter, c),
               s.intra[c := Activate(s.intra[c], q)])
  }

  /** Removes a packet, and takes the queue and the connection out of the rotation
      when they have run empty. */
  function Dequeue(s: State, c: Conn, w: WorkId): State
    requires Connected(s, c)
  {
    var q := WindowOf(w.kind);
    Remaining(s, c, q, Erase(Queue(s, c, q), w))
  }

  function Remaining(s: State, c: Conn, q: WindowType, rest: WorkSet): State
    requires Connected(s, c)
  {
    assert q.RequestWindow? || q.DataWindow?;
    var lists := if rest == [] then Deactivate(s.intra[c], q) else s.intra[c];
    State(s.queues[(c, q) := rest],
          if rest == [] && lists.active == [] then Deactivate(s.inter, c) else s.inter,
          s.intra[c := lists])
  }

  /** The op rate and the congestion control gates, fixed during one turn. */
  datatype Gates = Gates(opRate: Conn -> bool, admits: (Conn, WorkId) -> bool)

  predicate Ready(s: State, g: Gates, c: Conn, q: WindowType) {
    Queue(s, c, q) != [] && g.opRate(c) && g.admits(c, Queue(s, c, q)[0])
  }

  /** The first active queue of a connection, from the `j`-th on, whose head can be
      sent. */
  function FirstQueue(s: State, g: Gates, c: Conn, j: nat): (r: nat)
    requires j <= |ActiveQueues(s, c)|
    ensures j <= r <= |ActiveQueues(s, c)|
    ensures forall i :: j <= i < r ==> !Ready(s, g, c, ActiveQueues(s, c)[i])
    ensures r < |ActiveQueues(s, c)| ==> Ready(s, g, c, ActiveQueues(s, c)[r])
    decreases |ActiveQueues(s, c)| - j
  {
    if j == |ActiveQueues(s, c)| || Ready(s, g, c, ActiveQueues(s, c)[j]) then j else FirstQueue(s, g, c, j + 1)
  }

  predicate HasReadyQueue(s: State, g: Gates, c: Conn) {
    FirstQueue(s, g, c, 0) < |ActiveQueues(s, c)|
  }

  function FirstConnection(s: State, g: Gates, i: nat): (r: nat)
    requires i <= |s.inter.active|
    ensures i <= r <= |s.inter.active|
    ensures forall k {:trigger HasReadyQueue(s, g, s.inter.active[k])} ::
              i <= k < r ==> !HasReadyQueue(s, g, s.inter.active[k])
    ensures r < |s.inter.active| ==> HasReadyQueue(s, g, s.inter.active[r])
    decreases |s.inter.active| - i
  {
    if i == |s.inter.active| || HasReadyQueue(s, g, s.inter.active[i]) then i else FirstConnection(s, g, i + 1)
  }

  /** The connection's queue list after `j` selections, counting around. */
  function TurnedQueues(s: State, c: Conn, j: nat): map<Conn, Rotation<WindowType>>
    requires c in s.intra && j <= |s.intra[c].active|
  {
    s.intra[c := s.intra[c].(active := Turned(s.intra[c].active, j))]
  }

  /** The rotation lists after the first `i` connections were tried in vain: each
      has had its queue list turned once around and one further. */
  function Passed(s: State, i: nat): State
    requires i <= |s.inter.active|
  {
    s.(inter := s.inter.(active := Turned(s.inter.active, i)),
       intra := map c | c in s.intra ::
                  if c in s.inter.active[..i] && s.intra[c].active != [] then Rotate(s.intra[c]) else s.intra[c])
  }

  /** One turn: what is sent, if anything, and the state afterwards. */
  function Sends(s: State, g: Gates): Option<(Conn, WorkId)> {
    var i := FirstConnection(s, g, 0);
    if i == |s.inter.active| then None
    else
      var c := s.inter.active[i];
      var q := ActiveQueues(s, c)[FirstQueue(s, g, c, 0)];
      Some((c, Queue(s, c, q)[0]))
  }

  /** A round in vain ends one selection after everyone has been tried. */
  function AfterRound(s: State): State {
    var t := Passed(s, |s.inter.active|);
    if s.inter.active == [] then t else t.(inter := s.inter.(active := Turned(s.inter.active, 1)))
  }

  /** The rotation lists when the `j`-th queue of the `i`-th connection is tried. */
  function Picked(s: State, i: nat, j: nat): State
    requires i < |s.inter.active| && s.inter.active[i] in s.intra && j < |ActiveQueues(s, s.inter.active[i])|
    ensures forall c :: Connected(s, c) ==> Connected(Picked(s, i, j), c)
  {
    var c := s.inter.active[i];
    var t := Passed(s, i);
    t.(inter := s.inter.(active := Turned(s.inter.active, i + 1)),
       intra := t.intra[c := s.intra[c].(active := Turned(s.intra[c].active, j + 1))])
  }

  // ---------- Agreement of lists and queues ----------

  /** The queue is on the active list iff it holds a packet, and holds packets of
      its kind, oldest first. */
  ghost predicate QueueOk(lists: Rotation<WindowType>, q: WindowType, queue: WorkSet) {
    && (q in lists.active <==> queue != [])
    && Ordered(queue)
    && (forall i :: 0 <= i < |queue| ==> WindowOf(queue[i].kind) == q)
  }

  /** The lists of one connection against its queues, and whether the connection is
      on the active list. */
  ghost predicate ListsOk(lists: Rotation<WindowType>, requests: WorkSet, data: WorkSet, active: bool) {
    && Agrees(lists) && Complete(lists)
    && lists.isActive.Keys == {RequestWindow, DataWindow}
    && QueueOk(lists, RequestWindow, requests) && QueueOk(lists, DataWindow, data)
    && (active <==> lists.active != [])
  }

  ghost predicate ConnOk(s: State, c: Conn) {
    && c in s.intra
    && ListsOk(s.intra[c], Queue(s, c, RequestWindow), Queue(s, c, DataWindow), c in s.inter.active)
  }

  ghost predicate Inv(s: State) {
    && Agrees(s.inter) && Complete(s.inter)
    && (forall c :: c in s.inter.isActive ==> ConnOk(s, c))
  }

  lemma QueueOkOf(s: State, c: Conn, q: WindowType)
    requires ConnOk(s, c)
    ensures QueueOk(s.intra[c], q, Queue(s, c, q)) && Agrees(s.intra[c]) && q in s.intra[c].isActive
    ensures c in s.inter.isActive ==> Connected(s, c)
  {
    assert q.RequestWindow? || q.DataWindow?;
  }

  ghost predicate Same(s: State, t: State, d: Conn) {
    && d in s.inter.isActive && d in s.intra
    && d in t.intra && t.intra[d] == s.intra[d]
    && Queue(t, d, RequestWindow) == Queue(s, d, RequestWindow)
    && Queue(t, d, DataWindow) == Queue(s, d, DataWindow)
    && (d in t.inter.active <==> d in s.inter.active)
  }

  /** The other connections keep their agreement when only `c` is changed. */
  lemma OthersStay(s: State, t: State, c: Conn)
    requires Inv(s) && Agrees(t.inter) && Complete(t.inter) && ConnOk(t, c)
    requires forall d :: d in t.inter.isActive && d != c ==> Same(s, t, d)
    ensures Inv(t)
  {
    forall d | d in t.inter.isActive ensures ConnOk(t, d) {
      if d != c {
        assert ConnOk(s, d) && Same(s, t, d);
      }
    }
  }

  lemma NewListsAgree()
    ensures ListsOk(NewQueues, [], [], false)
  {
  }

  lemma ConnectSparesOthers(s: State, c: Conn, d: Conn)
    requires d != c && d in s.inter.isActive && d in s.intra
    ensures Same(s, Connect(s, c), d)
  {
  }

  lemma ConnectServes(s: State, c: Conn)
    requires c !in s.inter.active
    ensures ConnOk(Connect(s, c), c)
  {
    NewListsAgree();
    var t := Connect(s, c);
    assert t.intra[c] == NewQueues && Queue(t, c, RequestWindow) == [] && Queue(t, c, DataWindow) == [];
  }

  lemma ConnectKeepsInv(s: State, c: Conn)
    requires Inv(s) && c !in s.inter.isActive
    ensures Inv(Connect(s, c))
  {
    JoinAgrees(s.inter, c);
    ConnectServes(s, c);
    var t := Connect(s, c);
    forall d | d in t.inter.isActive && d != c ensures Same(s, t, d) {
      assert ConnOk(s, d);
      ConnectSparesOthers(s, c, d);
    }
    OthersStay(s, t, c);
  }

  lemma InsertedKinds(s: WorkSet, w: WorkId)
    requires forall i :: 0 <= i < |s| ==> WindowOf(s[i].kind) == WindowOf(w.kind)
    ensures forall i :: 0 <= i < |Insert(s, w)| ==> WindowOf(Insert(s, w)[i].kind) == WindowOf(w.kind)
  {
  }

  lemma QueueGrows(lists: Rotation<WindowType>, q: WindowType, queue: WorkSet, w: WorkId)
    requires QueueOk(lists, q, queue) && WindowOf(w.kind) == q && Fits(queue, w.psn)
    requires Agrees(lists) && q in lists.isActive
    ensures QueueOk(Activate(lists, q), q, Insert(queue, w))
  {
    InsertSpec(queue, w);
    InsertedKinds(queue, w);
    ActivateAgrees(lists, q);
  }

  function Put(queue: WorkSet, q: WindowType, w: WorkId): WorkSet {
    if WindowOf(w.kind) == q then Insert(queue, w) else queue
  }

  lemma ListsGrow(lists: Rotation<WindowType>, requests: WorkSet, data: WorkSet, active: bool, w: WorkId)
    requires ListsOk(lists, requests, data, active)
    requires Fits(if WindowOf(w.kind).RequestWindow? then requests else data, w.psn)
    ensures ListsOk(Activate(lists, WindowOf(w.kind)), Put(requests, RequestWindow, w), Put(data, DataWindow, w), true)
  {
    var q := WindowOf(w.kind);
    QueueGrows(lists, q, if q.RequestWindow? then requests else data, w);
    ActivateAgrees(lists, q);
    assert q in Activate(lists, q).active;
  }

  lemma EnqueueSparesOthers(s: State, c: Conn, w: WorkId, d: Conn)
    requires Connected(s, c) && d != c && d in s.inter.isActive && d in s.intra
    ensures Same(s, Enqueue(s, c, w), d)
  {
  }

  lemma EnqueueServes(s: State, c: Conn, w: WorkId)
    requires Connected(s, c) && ConnOk(s, c) && Agrees(s.inter)
    requires Fits(Queue(s, c, WindowOf(w.kind)), w.psn) && !Has(Queue(s, c, WindowOf(w.kind)), w.psn)
    ensures ConnOk(Enqueue(s, c, w), c)
  {
    var t := Enqueue(s, c, w);
    ListsGrow(s.intra[c], Queue(s, c, RequestWindow), Queue(s, c, DataWindow), c in s.inter.active, w);
    assert c in t.inter.active;
    assert Queue(t, c, RequestWindow) == Put(Queue(s, c, RequestWindow), RequestWindow, w);
    assert Queue(t, c, DataWindow) == Put(Queue(s, c, DataWindow), DataWindow, w);
  }

  lemma EnqueueKeepsInv(s: State, c: Conn, w: WorkId)
    requires Inv(s) && Connected(s, c) && Fits(Queue(s, c, WindowOf(w.kind)), w.psn)
    ensures Inv(Enqueue(s, c, w))
  {
    var t := Enqueue(s, c, w);
    if !Has(Queue(s, c, WindowOf(w.kind)), w.psn) {
      ActivateAgrees(s.inter, c);
      EnqueueServes(s, c, w);
      forall d | d in t.inter.isActive && d != c ensures Same(s, t, d) {
        assert ConnOk(s, d);
        EnqueueSparesOthers(s, c, w, d);
      }
      OthersStay(s, t, c);
    }
  }

  lemma QueueShrinks(lists: Rotation<WindowType>, q: WindowType, queue: WorkSet, rest: WorkSet)
    requires QueueOk(lists, q, queue) && Agrees(lists) && q in lists.isActive
    requires Ordered(rest) && forall x :: x in rest ==> x in queue
    ensures QueueOk(if rest == [] then Deactivate(lists, q) else lists, q, rest)
  {
    DeactivateAgrees(lists, q);
    forall i | 0 <= i < |rest| ensures WindowOf(rest[i].kind) == q {
      assert rest[i] in queue;
    }
    if rest != [] {
      assert rest[0] in queue;
    }
  }

  lemma ListsShrink(lists: Rotation<WindowType>, requests: WorkSet, data: WorkSet, active: bool, q: WindowType, rest: WorkSet)
    requires ListsOk(lists, requests, data, active) && Ordered(rest)
    requires forall x :: x in rest ==> x in (if q.RequestWindow? then requests else data)
    ensures q in lists.isActive
    ensures var after := if rest == [] then Deactivate(lists, q) else lists;
            ListsOk(after, if q.RequestWindow? then rest else requests, if q.DataWindow? then rest else data, after.active != [])
  {
    assert q.RequestWindow? || q.DataWindow?;
    QueueShrinks(lists, q, if q.RequestWindow? then requests else data, rest);
    DeactivateAgrees(lists, q);
  }

  lemma RemainingSparesOthers(s: State, c: Conn, q: WindowType, rest: WorkSet, d: Conn)
    requires Connected(s, c) && d != c && d in s.inter.isActive && d in s.intra
    ensures Same(s, Remaining(s, c, q, rest), d)
  {
    RemoveSpec(s.inter.active, c);
  }

  lemma RemainingServes(s: State, c: Conn, q: WindowType, rest: WorkSet)
    requires Connected(s, c) && ConnOk(s, c) && Agrees(s.inter)
    requires Ordered(rest) && forall x :: x in rest ==> x in Queue(s, c, q)
    ensures ConnOk(Remaining(s, c, q, rest), c)
  {
    var t := Remaining(s, c, q, rest);
    ListsShrink(s.intra[c], Queue(s, c, RequestWindow), Queue(s, c, DataWindow), c in s.inter.active, q, rest);
    DeactivateAgrees(s.inter, c);
    assert c in t.inter.active <==> t.intra[c].active != [];
  }

  /** Shrinking one queue and updating the lists keeps everything in agreement. */
  lemma RemainingKeepsInv(s: State, c: Conn, q: WindowType, rest: WorkSet)
    requires Inv(s) && Connected(s, c)
    requires Ordered(rest) && forall x :: x in rest ==> x in Queue(s, c, q)
    ensures Inv(Remaining(s, c, q, rest))
  {
    var t := Remaining(s, c, q, rest);
    DeactivateAgrees(s.inter, c);
    RemainingServes(s, c, q, rest);
    forall d | d in t.inter.isActive && d != c ensures Same(s, t, d) {
      assert ConnOk(s, d);
      RemainingSparesOthers(s, c, q, rest, d);
    }
    OthersStay(s, t, c);
  }

  lemma DequeueKeepsInv(s: State, c: Conn, w: WorkId)
    requires Inv(s) && Connected(s, c) && Fits(Queue(s, c, WindowOf(w.kind)), w.psn)
    ensures Inv(Dequeue(s, c, w))
  {
    assert ConnOk(s, c);
    var q := WindowOf(w.kind);
    QueueOkOf(s, c, q);
    var rest := Erase(Queue(s, c, q), w);
    forall x | x in rest ensures x in Queue(s, c, q) {
      EraseSpec(Queue(s, c, q), w, x);
    }
    EraseSpec(Queue(s, c, q), w, w);
    RemainingKeepsInv(s, c, q, rest);
  }

  ghost predicate IsTurned<T>(a: Rotation<T>, b: Rotation<T>) {
    exists i :: 0 <= i <= |a.active| && b == a.(active := Turned(a.active, i))
  }

  lemma TurnedAgrees<T(!new)>(a: Rotation<T>, b: Rotation<T>)
    requires IsTurned(a, b) && Agrees(a)
    ensures Agrees(b) && (Complete(a) ==> Complete(b))
    ensures b.isActive == a.isActive && (forall x :: x in b.active <==> x in a.active)
    ensures b.active == [] <==> a.active == []
  {
    var i :| 0 <= i <= |a.active| && b == a.(active := Turned(a.active, i));
    TurnedSpec(a.active, i);
  }

  /** Turning lists around changes nobody's membership. */
  lemma TurningKeepsInv(s: State, t: State)
    requires Inv(s) && t.queues == s.queues && IsTurned(s.inter, t.inter)
    requires t.intra.Keys == s.intra.Keys
    requires forall c :: c in s.intra ==> IsTurned(s.intra[c], t.intra[c])
    ensures Inv(t)
  {
    TurnedAgrees(s.inter, t.inter);
    forall c | c in t.inter.isActive ensures ConnOk(t, c) {
      assert ConnOk(s, c);
      TurnedAgrees(s.intra[c], t.intra[c]);
    }
  }

  /** What a pass over the queues of a connection relies on. */
  ghost predicate PassCanStart(s: State, c: Conn) {
    && Connected(s, c) && s.intra[c].active != [] && NoDuplicates(s.intra[c].active)
    && forall i :: 0 <= i < |s.intra[c].active| ==> Queue(s, c, s.intra[c].active[i]) != []
  }

  lemma ActiveCanStart(s: State, c: Conn)
    requires Inv(s) && c in s.inter.active
    ensures PassCanStart(s, c)
  {
    assert ConnOk(s, c);
    forall i | 0 <= i < |s.intra[c].active| ensures Queue(s, c, s.intra[c].active[i]) != [] {
      QueueOkOf(s, c, s.intra[c].active[i]);
    }
  }

  /** What a turn relies on. */
  ghost predicate TurnCanStart(s: State) {
    && NoDuplicates(s.inter.active)
    && forall i {:trigger PassCanStart(s, s.inter.active[i])} ::
         0 <= i < |s.inter.active| ==> PassCanStart(s, s.inter.active[i])
  }

  lemma AgreementLetsTurnsStart(s: State)
    requires Inv(s)
    ensures TurnCanStart(s)
  {
    forall i | 0 <= i < |s.inter.active| ensures PassCanStart(s, s.inter.active[i]) {
      ActiveCanStart(s, s.inter.active[i]);
    }
  }

  lemma PassedTurns(s: State, i: nat)
    requires i <= |s.inter.active|
    ensures IsTurned(s.inter, Passed(s, i).inter)
    ensures forall c :: c in s.intra ==> IsTurned(s.intra[c], Passed(s, i).intra[c])
  {
    forall c | c in s.intra ensures IsTurned(s.intra[c], Passed(s, i).intra[c]) {
      var a := s.intra[c].active;
      assert Turned(a, 0) == a;
      if a != [] {
        assert Rotate(s.intra[c]).active == Turned(a, 1);
      }
    }
  }

  lemma PickedKeepsInv(s: State, i: nat, j: nat)
    requires Inv(s) && i < |s.inter.active|
    requires s.inter.active[i] in s.intra && j < |ActiveQueues(s, s.inter.active[i])|
    ensures Inv(Picked(s, i, j))
  {
    PassedTurns(s, i);
    TurningKeepsInv(s, Picked(s, i, j));
  }

  /** One turn: the first connection with a queue whose head can be sent sends the
      head of its first such queue. */
  ghost function Turn(s: State, g: Gates): State
    requires TurnCanStart(s)
  {
    var i := FirstConnection(s, g, 0);
    if i == |s.inter.active| then AfterRound(s)
    else
      var c := s.inter.active[i];
      assert PassCanStart(s, c);
      var j := FirstQueue(s, g, c, 0);
      var q := ActiveQueues(s, c)[j];
      Remaining(Picked(s, i, j), c, q, Queue(s, c, q)[1..])
  }

  lemma RoundKeepsInv(s: State)
    requires Inv(s)
    ensures Inv(AfterRound(s))
  {
    PassedTurns(s, |s.inter.active|);
    TurningKeepsInv(s, AfterRound(s));
  }

  lemma TurnKeepsInv(s: State, g: Gates)
    requires Inv(s)
    ensures TurnCanStart(s) && Inv(Turn(s, g))
  {
    AgreementLetsTurnsStart(s);
    var i := FirstConnection(s, g, 0);
    if i == |s.inter.active| {
      RoundKeepsInv(s);
    } else {
      var c := s.inter.active[i];
      var j := FirstQueue(s, g, c, 0);
      PickedKeepsInv(s, i, j);
      var q := ActiveQueues(s, c)[j];
      assert ConnOk(s, c);
      QueueOkOf(s, c, q);
      OrderedTail(Queue(s, c, q));
      RemainingKeepsInv(Picked(s, i, j), c, q, Queue(s, c, q)[1..]);
    }
  }

  lemma SentIsReady(s: State, g: Gates)
    requires Inv(s) && Sends(s, g) != None
    ensures var (c, w) := Sends(s, g).value;
              && c in s.inter.active && g.opRate(c) && g.admits(c, w)
              && Queue(s, c, WindowOf(w.kind)) != [] && Queue(s, c, WindowOf(w.kind))[0] == w
  {
    var i := FirstConnection(s, g, 0);
    var c := s.inter.active[i];
    assert ConnOk(s, c) && HasReadyQueue(s, g, c);
    var q := ActiveQueues(s, c)[FirstQueue(s, g, c, 0)];
    QueueOkOf(s, c, q);
    assert WindowOf(Queue(s, c, q)[0].kind) == q;
  }

  /** What a turn sends is the oldest packet of its queue, wherever the sequence
      numbers wrap around; `oldest` is a lower end of the window they lie in. */
  lemma SentIsOldest(s: State, g: Gates, oldest: nat, other: WorkId)
    requires Inv(s) && Sends(s, g) != None
    requires var (c, w) := Sends(s, g).value;
             Spans(oldest % MODULUS, Queue(s, c, WindowOf(w.kind))) && other in Queue(s, c, WindowOf(w.kind))
    ensures var w := Sends(s, g).value.1;
            other == w || Unwrap(oldest, w.psn) < Unwrap(oldest, other.psn)
  {
    SentIsReady(s, g);
    var (c, w) := Sends(s, g).value;
    var queue := Queue(s, c, WindowOf(w.kind));
    assert ConnOk(s, c);
    QueueOkOf(s, c, WindowOf(w.kind));
    var i :| 0 <= i < |queue| && queue[i] == other;
    if i > 0 {
      IterationIsOldestFirst(oldest, queue, 0, i);
    }
  }

  lemma ReadyIsFound(s: State, g: Gates, c: Conn, q: WindowType)
    requires Inv(s) && c in s.inter.isActive && Ready(s, g, c, q)
    ensures c in s.inter.active && HasReadyQueue(s, g, c) && Sends(s, g) != None
  {
    assert ConnOk(s, c);
    QueueOkOf(s, c, q);
    var j :| 0 <= j < |ActiveQueues(s, c)| && ActiveQueues(s, c)[j] == q;
    assert HasReadyQueue(s, g, c);
    var k :| 0 <= k < |s.inter.active| && s.inter.active[k] == c;
  }

  /** A turn comes to nothing only when no queued packet at the head of any queue of
      any connection can be sent; then it leaves all queues alone. */
  lemma NothingSentIffNothingReady(s: State, g: Gates)
    requires Inv(s)
    ensures Sends(s, g) == None <==>
              forall c, q :: c in s.inter.isActive && Queue(s, c, q) != [] ==>
                               !g.opRate(c) || !g.admits(c, Queue(s, c, q)[0])
    ensures TurnCanStart(s) && (Sends(s, g) == None ==> Turn(s, g).queues == s.queues)
  {
    AgreementLetsTurnsStart(s);
    if Sends(s, g) == None {
      forall c, q | c in s.inter.isActive && Queue(s, c, q) != []
        ensures !g.opRate(c) || !g.admits(c, Queue(s, c, q)[0])
      {
        if Ready(s, g, c, q) { ReadyIsFound(s, g, c, q); }
      }
    } else {
      SentIsReady(s, g);
      var (c, w) := Sends(s, g).value;
      assert c in s.inter.isActive && Queue(s, c, WindowOf(w.kind)) != [];
    }
  }

  // ---------- Runs ----------

  datatype Step =
    | ConnectStep(c: Conn)
    | EnqueueStep(c: Conn, w: WorkId)
    | DequeueStep(c: Conn, w: WorkId)
    | TurnStep(g: Gates)

  /** The sliding windows keep the numbers queued at a time close together, and the
      arbiter asks for a turn only when there is work. */
  ghost predicate Enabled(s: State, step: Step) {
    match step
    case ConnectStep(c) => c !in s.inter.isActive
    case EnqueueStep(c, w) => Connected(s, c) && Fits(Queue(s, c, WindowOf(w.kind)), w.psn)
    case DequeueStep(c, w) => Connected(s, c) && Fits(Queue(s, c, WindowOf(w.kind)), w.psn)
    case TurnStep(_) => s.inter.active != []
  }

  ghost function Do(s: State, step: Step): State
    requires Inv(s) && Enabled(s, step)
  {
    match step
    case ConnectStep(c) => Connect(s, c)
    case EnqueueStep(c, w) => Enqueue(s, c, w)
    case DequeueStep(c, w) => Dequeue(s, c, w)
    case TurnStep(g) => AgreementLetsTurnsStart(s); Turn(s, g)
  }

  lemma DoKeepsInv(s: State, step: Step)
    requires Inv(s) && Enabled(s, step)
    ensures Inv(Do(s, step))
  {
    match step
    case ConnectStep(c) => ConnectKeepsInv(s, c);
    case EnqueueStep(c, w) => EnqueueKeepsInv(s, c, w);
    case DequeueStep(c, w) => DequeueKeepsInv(s, c, w);
    case TurnStep(g) => TurnKeepsInv(s, g);
  }

  ghost predicate IsRun(states: seq<State>, steps: seq<Step>) {
    && |states| == |steps| + 1 && states[0] == Initial()
    && forall i :: 0 <= i < |steps| ==> Follows(states, steps, i)
  }

  ghost predicate Follows(states: seq<State>, steps: seq<Step>, i: nat)
    requires |states| == |steps| + 1 && i < |steps|
  {
    Enabled(states[i], steps[i]) && (Inv(states[i]) ==> states[i + 1] == Do(states[i], steps[i]))
  }

  /** In every reachable state the rotation lists agree with the queues: a
      connection is active iff one of its queues is, and a queue iff it holds a
      packet; so a turn never peeks into an empty one. */
  lemma {:induction false} EveryRunKeepsInv(states: seq<State>, steps: seq<Step>, i: nat)
    requires IsRun(states, steps) && i < |states|
    ensures Inv(states[i])
  {
    if i > 0 {
      EveryRunKeepsInv(states, steps, i - 1);
      assert Follows(states, steps, i - 1);
      DoKeepsInv(states[i - 1], steps[i - 1]);
    }
  }

  // ---------- Which packets are where ----------

  /** Requests are kept in the one queue, all other packets in the other. */
  predicate BelongsTo(k: Kind, q: WindowType) {
    match k
    case PullRequest => q == RequestWindow
    case PushRequest => q == RequestWindow
    case PullData => q == DataWindow
    case PushGrant => q == DataWindow
    case PushSolicitedData => q == DataWindow
    case PushUnsolicitedData => q == DataWindow
  }

  lemma QueuesHoldTheirKinds(states: seq<State>, steps: seq<Step>, i: nat, c: Conn, q: WindowType, w: WorkId)
    requires IsRun(states, steps) && i < |states| && c in states[i].inter.isActive && w in Queue(states[i], c, q)
    ensures BelongsTo(w.kind, q)
  {
    EveryRunKeepsInv(states, steps, i);
    assert ConnOk(states[i], c);
    QueueOkOf(states[i], c, q);
  }

  lemma EnqueueInserts(s: State, c: Conn, w: WorkId, d: Conn, q: WindowType)
    requires Connected(s, c)
    ensures Queue(Enqueue(s, c, w), d, q) ==
              if d == c && BelongsTo(w.kind, q) then Insert(Queue(s, c, q), w) else Queue(s, d, q)
  {
    hide Activate, LowerBound;
  }

  lemma DequeueErases(s: State, c: Conn, w: WorkId, d: Conn, q: WindowType)
    requires Connected(s, c)
    ensures Queue(Dequeue(s, c, w), d, q) ==
              if d == c && BelongsTo(w.kind, q) then Erase(Queue(s, c, q), w) else Queue(s, d, q)
  {
    hide Deactivate, Erase;
  }

  lemma QueueIsOrdered(s: State, c: Conn, q: WindowType)
    requires Inv(s) && c in s.inter.isActive
    ensures Ordered(Queue(s, c, q))
  {
    assert ConnOk(s, c);
    QueueOkOf(s, c, q);
  }

  /** Enqueueing adds the packet to its own queue, unless one with its number is there
      already, and touches no other. */
  lemma EnqueueAddsPacket(s: State, c: Conn, w: WorkId, d: Conn, q: WindowType)
    requires Inv(s) && Connected(s, c) && (BelongsTo(w.kind, q) ==> Fits(Queue(s, c, q), w.psn))
    ensures var before, after := Queue(s, d, q), Queue(Enqueue(s, c, w), d, q);
            if d == c && BelongsTo(w.kind, q) && forall i :: 0 <= i < |before| ==> before[i].psn != w.psn
            then multiset(after) == multiset(before) + multiset{w}
            else after == before
  {
    hide Inv, Ordered, Fits, Insert, Enqueue, BelongsTo;
    EnqueueInserts(s, c, w, d, q);
    if d == c && BelongsTo(w.kind, q) {
      QueueIsOrdered(s, c, q);
      InsertSpec(Queue(s, c, q), w);
    }
  }

  /** Dequeueing removes the packet with that number from its own queue, and no other. */
  lemma DequeueRemovesPacket(s: State, c: Conn, w: WorkId, d: Conn, q: WindowType, x: WorkId)
    requires Inv(s) && Connected(s, c) && (BelongsTo(w.kind, q) ==> Fits(Queue(s, c, q), w.psn))
    ensures x in Queue(Dequeue(s, c, w), d, q) <==>
              x in Queue(s, d, q) && !(d == c && BelongsTo(w.kind, q) && x.psn == w.psn)
  {
    hide Inv, Ordered, Fits, Erase, Dequeue, BelongsTo;
    DequeueErases(s, c, w, d, q);
    if d == c && BelongsTo(w.kind, q) {
      QueueIsOrdered(s, c, q);
      EraseSpec(Queue(s, c, q), w, x);
    }
  }

  // ---------- Nobody waits forever ----------

  ghost predicate WaitsAt(s: State, c: Conn, p: nat) {
    p < |s.inter.active| && s.inter.active[p] == c
  }

  lemma RemainingMovesForward(s: State, d: Conn, w: WindowType, rest: WorkSet, c: Conn, p: nat) returns (q: nat)
    requires Connected(s, d) && WaitsAt(s, c, p) && c != d
    ensures q <= p && WaitsAt(Remaining(s, d, w, rest), c, q)
  {
    q := p;
    if Remaining(s, d, w, rest).inter != s.inter {
      q := DeactivateMovesForward(s.inter, d, p);
    }
  }

  lemma PickedMovesForward(s: State, i: nat, j: nat, c: Conn, p: nat)
    requires WaitsAt(s, c, p) && i < p
    requires s.inter.active[i] in s.intra && j < |ActiveQueues(s, s.inter.active[i])|
    ensures WaitsAt(Picked(s, i, j), c, p - i - 1)
  {
  }

  /** A connection with something to send that is not served in a turn moves up. */
  lemma WaitShrinks(s: State, g: Gates, c: Conn, p: nat) returns (q: nat)
    requires TurnCanStart(s) && WaitsAt(s, c, p) && HasReadyQueue(s, g, c)
    ensures Sends(s, g) != None
    ensures Sends(s, g).value.0 == c || (q < p && WaitsAt(Turn(s, g), c, q))
  {
    var i := FirstConnection(s, g, 0);
    assert i <= p;
    q := 0;
    if i < p {
      var d := s.inter.active[i];
      assert d != c && PassCanStart(s, d);
      var j := FirstQueue(s, g, d, 0);
      PickedMovesForward(s, i, j, c, p);
      var w := ActiveQueues(s, d)[j];
      q := RemainingMovesForward(Picked(s, i, j), d, w, Queue(s, d, w)[1..], c, p - i - 1);
    }
  }

  /** No other operation moves a waiting connection back. */
  lemma WaitStays(s: State, step: Step, c: Conn, p: nat) returns (q: nat)
    requires Inv(s) && Enabled(s, step) && WaitsAt(s, c, p) && !step.TurnStep?
    requires c in Do(s, step).inter.active
    ensures q <= p && WaitsAt(Do(s, step), c, q)
  {
    q := p;
    if step.DequeueStep? && Do(s, step).inter != s.inter {
      DeactivateAgrees(s.inter, step.c);
      q := DeactivateMovesForward(s.inter, step.c, p);
    }
  }

  function Turns(steps: seq<Step>): nat {
    if steps == [] then 0
    else Turns(steps[..|steps| - 1]) + (if steps[|steps| - 1].TurnStep? then 1 else 0)
  }

  ghost predicate Serves(s: State, step: Step, c: Conn) {
    step.TurnStep? && Sends(s, step.g) != None && Sends(s, step.g).value.0 == c
  }

  /** The connection has work, may send in the turns, and is not served. */
  ghost predicate WaitsAlong(states: seq<State>, steps: seq<Step>, c: Conn, from: nat, to: nat)
    requires |states| == |steps| + 1 && from <= to < |states|
  {
    && (forall k :: from <= k <= to ==> c in states[k].inter.active)
    && (forall k :: from <= k < to ==> PassedOver(states[k], steps[k], c))
  }

  ghost predicate PassedOver(s: State, step: Step, c: Conn) {
    step.TurnStep? ==> HasReadyQueue(s, step.g, c) && !Serves(s, step, c)
  }

  lemma WaitGoesOn(s: State, step: Step, c: Conn, p: nat) returns (q: nat)
    requires Inv(s) && Enabled(s, step) && WaitsAt(s, c, p)
    requires PassedOver(s, step, c) && c in Do(s, step).inter.active
    ensures WaitsAt(Do(s, step), c, q) && q + (if step.TurnStep? then 1 else 0) <= p
  {
    if step.TurnStep? {
      AgreementLetsTurnsStart(s);
      q := WaitShrinks(s, step.g, c, p);
    } else {
      q := WaitStays(s, step, c, p);
    }
  }

  lemma TurnsSoFar(steps: seq<Step>, from: nat, to: nat)
    requires from < to <= |steps|
    ensures Turns(steps[from..to]) == Turns(steps[from..to - 1]) + if steps[to - 1].TurnStep? then 1 else 0
  {
    var part := steps[from..to];
    assert part[..|part| - 1] == steps[from..to - 1];
  }

  lemma WaitGoesOnInRun(states: seq<State>, steps: seq<Step>, c: Conn, i: nat, p: nat) returns (q: nat)
    requires IsRun(states, steps) && i < |steps| && WaitsAt(states[i], c, p)
    requires PassedOver(states[i], steps[i], c) && c in states[i + 1].inter.active
    ensures WaitsAt(states[i + 1], c, q) && q + (if steps[i].TurnStep? then 1 else 0) <= p
  {
    EveryRunKeepsInv(states, steps, i);
    assert Follows(states, steps, i);
    q := WaitGoesOn(states[i], steps[i], c, p);
  }

  /** Bounded waiting: while a connection keeps work and its head packets may be
      sent, no more turns go by without serving it than there were connections
      ahead of it, whatever is enqueued and dequeued meanwhile. */
  lemma {:induction false} BoundedWait(states: seq<State>, steps: seq<Step>, c: Conn, from: nat, to: nat, p: nat)
    returns (q: nat)
    requires IsRun(states, steps) && from <= to < |states|
    requires WaitsAt(states[from], c, p) && WaitsAlong(states, steps, c, from, to)
    ensures WaitsAt(states[to], c, q) && Turns(steps[from..to]) + q <= p
  {
    if from == to {
      q := p;
    } else {
      var before := BoundedWait(states, steps, c, from, to - 1, p);
      TurnsSoFar(steps, from, to);
      q := WaitGoesOnInRun(states, steps, c, to - 1, before);
    }
  }

  // ---------- The loops of a turn ----------

  /** A connection was just selected after `i` others were tried in vain. */
  function Selected(s: State, i: nat): State
    requires i < |s.inter.active|
  {
    Passed(s, i).(inter := s.inter.(active := Turned(s.inter.active, i + 1)))
  }

  function AfterVainPass(s: State, c: Conn): State
    requires ActiveQueues(s, c) != []
  {
    s.(intra := s.intra[c := Rotate(s.intra[c])])
  }

  function AfterGoodPass(s: State, c: Conn, j: nat): State
    requires Connected(s, c) && j < |ActiveQueues(s, c)| && Queue(s, c, ActiveQueues(s, c)[j]) != []
  {
    var q := ActiveQueues(s, c)[j];
    Remaining(s.(intra := TurnedQueues(s, c, j + 1)), c, q, Queue(s, c, q)[1..])
  }

  lemma EnqueueFindsDuplicates(s: State, c: Conn, w: WorkId)
    requires Inv(s) && Enabled(s, EnqueueStep(c, w))
    ensures Has(Queue(s, c, WindowOf(w.kind)), w.psn) <==>
              exists x :: x in Queue(s, c, WindowOf(w.kind)) && x.psn == w.psn
  {
    var q := WindowOf(w.kind);
    assert ConnOk(s, c);
    QueueOkOf(s, c, q);
    HasSpec(Queue(s, c, q), w.psn);
  }

  lemma SelectQueueTurns(s: State, c: Conn, j: nat)
    requires c in s.intra && s.intra[c].active != [] && NoDuplicates(s.intra[c].active)
    requires j <= |s.intra[c].active|
    ensures var a := s.intra[c].active;
            && Turned(a, j) != []
            && (j < |a| ==> Turned(a, j)[0] == a[j] && (j > 0 ==> a[j] != a[0])
                            && Rotate(TurnedQueues(s, c, j)[c]) == TurnedQueues(s, c, j + 1)[c])
            && (j == |a| ==> Turned(a, j)[0] == a[0]
                             && Rotate(TurnedQueues(s, c, j)[c]) == Rotate(s.intra[c]))
  {
    var a := s.intra[c].active;
    if j < |a| {
      TurnOnce(a, j);
    } else {
      assert Turned(a, j) == a;
    }
  }

  lemma NoSelectionYet(s: State, c: Conn)
    requires c in s.intra
    ensures s.(intra := TurnedQueues(s, c, 0)) == s
  {
    assert Turned(s.intra[c].active, 0) == s.intra[c].active;
  }

  /** Selections turn the list around and change nothing else. */
  lemma SelectionOnlyTurns(s: State, c: Conn, j: nat, g: Gates)
    requires PassCanStart(s, c) && j < |s.intra[c].active|
    ensures var t := s.(intra := TurnedQueues(s, c, j + 1));
            && Connected(t, c)
            && forall q :: Queue(t, c, q) == Queue(s, c, q) && (Ready(t, g, c, q) <==> Ready(s, g, c, q))
  {
  }

  lemma SelectConnectionTurns(s: State, i: nat)
    requires NoDuplicates(s.inter.active) && s.inter.active != [] && i <= |s.inter.active|
    ensures var a := s.inter.active;
            && Turned(a, i) != []
            && (i < |a| ==> Turned(a, i)[0] == a[i] && (i > 0 ==> a[i] != a[0])
                            && Rotate(Passed(s, i).inter) == Selected(s, i).inter)
            && (i == |a| ==> Turned(a, i)[0] == a[0]
                             && Rotate(Passed(s, i).inter) == AfterRound(s).inter)
  {
    var a := s.inter.active;
    if i < |a| {
      TurnOnce(a, i);
    } else {
      assert Turned(a, i) == a;
      assert Rotate(Passed(s, i).inter).active == Turned(a, 1);
    }
  }

  lemma PassedNone(s: State)
    ensures Passed(s, 0) == s
  {
    assert Turned(s.inter.active, 0) == s.inter.active;
    assert Passed(s, 0).intra == s.intra;
  }

  lemma NotPassedYet(s: State, i: nat)
    requires NoDuplicates(s.inter.active) && i < |s.inter.active| && s.inter.active[i] in s.intra
    ensures Selected(s, i).intra[s.inter.active[i]] == s.intra[s.inter.active[i]]
    ensures s.inter.active[i] in Selected(s, i).inter.active
  {
    TurnedSpec(s.inter.active, i + 1);
  }

  lemma {:induction false} SameFirstQueue(s: State, t: State, g: Gates, c: Conn, j: nat)
    requires s.queues == t.queues && ActiveQueues(s, c) == ActiveQueues(t, c) && j <= |ActiveQueues(s, c)|
    ensures FirstQueue(s, g, c, j) == FirstQueue(t, g, c, j)
    decreases |ActiveQueues(s, c)| - j
  {
    if j < |ActiveQueues(s, c)| {
      SameFirstQueue(s, t, g, c, j + 1);
    }
  }

  /** The connection just selected stands as it did at the start of the turn. */
  lemma CandidateIsUntouched(s: State, g: Gates, i: nat)
    requires TurnCanStart(s) && i < |s.inter.active|
    ensures PassCanStart(Selected(s, i), s.inter.active[i])
    ensures var c := s.inter.active[i];
            && FirstQueue(Selected(s, i), g, c, 0) == FirstQueue(s, g, c, 0)
            && ActiveQueues(Selected(s, i), c) == ActiveQueues(s, c) != []
  {
    var c := s.inter.active[i];
    assert PassCanStart(s, c);
    NotPassedYet(s, i);
    forall q ensures Queue(Selected(s, i), c, q) == Queue(s, c, q) {
    }
    SameFirstQueue(s, Selected(s, i), g, c, 0);
  }

  lemma NextPassed(s: State, i: nat)
    requires NoDuplicates(s.inter.active) && i < |s.inter.active|
    requires ActiveQueues(Selected(s, i), s.inter.active[i]) == ActiveQueues(s, s.inter.active[i]) != []
    ensures AfterVainPass(Selected(s, i), s.inter.active[i]) == Passed(s, i + 1)
  {
    var c := s.inter.active[i];
    var t := AfterVainPass(Selected(s, i), c);
    NotPassedYet(s, i);
    forall d | d in s.intra ensures t.intra[d] == Passed(s, i + 1).intra[d] {
      assert d in s.inter.active[..i + 1] <==> d in s.inter.active[..i] || d == c;
    }
    assert t.intra.Keys == Passed(s, i + 1).intra.Keys;
  }

  lemma GoodPassIsPick(s: State, i: nat, j: nat)
    requires NoDuplicates(s.inter.active) && i < |s.inter.active| && Connected(s, s.inter.active[i])
    requires j < |ActiveQueues(s, s.inter.active[i])|
    requires Queue(s, s.inter.active[i], ActiveQueues(s, s.inter.active[i])[j]) != []
    ensures var c := s.inter.active[i];
            var q := ActiveQueues(s, c)[j];
            && Connected(Selected(s, i), c)
            && ActiveQueues(Selected(s, i), c) == ActiveQueues(s, c)
            && AfterGoodPass(Selected(s, i), c, j) == Remaining(Picked(s, i, j), c, q, Queue(s, c, q)[1..])
  {
    NotPassedYet(s, i);
    var c := s.inter.active[i];
    assert Selected(s, i).(intra := TurnedQueues(Selected(s, i), c, j + 1)) == Picked(s, i, j);
  }

  ghost predicate VainSoFar(s: State, g: Gates, i: nat)
    requires i <= |s.inter.active|
  {
    forall k {:trigger HasReadyQueue(s, g, s.inter.active[k])} ::
      0 <= k < i ==> !HasReadyQueue(s, g, s.inter.active[k])
  }

  lemma VainRoundEndsTurn(s: State, g: Gates)
    requires TurnCanStart(s) && VainSoFar(s, g, |s.inter.active|)
    ensures Sends(s, g) == None && Turn(s, g) == AfterRound(s)
  {
  }

  lemma GoodPassEndsTurn(s: State, g: Gates, i: nat)
    requires TurnCanStart(s) && i < |s.inter.active| && HasReadyQueue(s, g, s.inter.active[i])
    requires VainSoFar(s, g, i)
    ensures var c := s.inter.active[i];
            var j := FirstQueue(s, g, c, 0);
            && Connected(Selected(s, i), c) && ActiveQueues(Selected(s, i), c) == ActiveQueues(s, c)
            && AfterGoodPass(Selected(s, i), c, j) == Turn(s, g)
            && Sends(s, g) == Some((c, Queue(s, c, ActiveQueues(s, c)[j])[0]))
  {
    assert FirstConnection(s, g, 0) == i;
    assert PassCanStart(s, s.inter.active[i]);
    GoodPassIsPick(s, i, FirstQueue(s, g, s.inter.active[i], 0));
  }
}
