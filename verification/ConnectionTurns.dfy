/**
 Round robin over packet types and connections seen from one waiting packet: how
 long can the rest of the connection scheduler be served before it is its turn?

 One service sends a packet or serves a phantom. Its choice, and where it leaves the
 rotation lists, is written out here as a function of the state; the scheduler's
 loops are proved to take exactly these services.
 */
module ConnectionTurns {
  import opened Lists
  import opened SchedulerQueues
  import opened InterPacketPolicy
  import opened ConnectionScheduler

  datatype Turns = Turns(queues: Queues, intra: Intra, inter: Inter)

  ghost predicate Inv(w: Turns) {
    SchedulerInv(w.queues, w.intra, w.inter) && !w.inter.weighted
  }

  /** The head of the queue is a phantom, or may be sent now. */
  ghost predicate Offers(s: Queues, g: Gates, c: Conn, q: QueueType) {
    Queue(s, c, q) != [] && !Stuck(s, g, c, q)
  }

  /** Phantoms are always offered; a packet is when it no longer waits for its grant or
      phantom and the gates let it through. */
  lemma OfferedIff(s: Queues, g: Gates, c: Conn, q: QueueType)
    requires SchedulerQueues.Inv(s)
    ensures Offers(s, g, c, q) <==>
              && Queue(s, c, q) != []
              && var head := Queue(s, c, q)[0];
                 head.kind == Phantom || (!Barred(s, c, head) && g.opRate(c) && g.admits(c, head))
  {
    if Queue(s, c, q) != [] {
      assert (c, Queue(s, c, q)[0]) in s.ineligible <==> Barred(s, c, Queue(s, c, q)[0]);
    }
  }

  /** The lists after a vain pass over each of the first `k` types. */
  function PassedIntra(start: Intra, types: seq<QueueType>, k: nat): (r: Intra)
    requires k <= |types|
    ensures r.Keys == start.Keys
  {
    if k == 0 then start
    else
      var before := PassedIntra(start, types, k - 1);
      var q := types[k - 1];
      if q in before && before[q].active != [] then TurnedIntra(before, q, 1) else before
  }

  /** The policy after `k` selections. */
  function InterAt(i: Inter, k: nat): Inter
    requires k <= |i.rot.active|
  {
    i.(rot := i.rot.(active := Turned(i.rot.active, k)))
  }

  /** The first connection of the first type, in rotation order, that offers
      something. */
  ghost predicate Chosen(w: Turns, g: Gates, k: nat, m: nat) {
    var types := w.inter.rot.active;
    && k < |types| && types[k] in w.intra && m < |w.intra[types[k]].active|
    && RoundStuck(w.queues, g, w.intra, types, k)
    && var conns := w.intra[types[k]].active;
       && (forall j :: 0 <= j < m ==> Stuck(w.queues, g, conns[j], types[k]))
       && Offers(w.queues, g, conns[m], types[k])
  }

  /** The lists when the chosen head is looked at. */
  ghost function PickedIntra(w: Turns, k: nat, m: nat): Intra
    requires k < |w.inter.rot.active|
  {
    var q := w.inter.rot.active[k];
    var passed := PassedIntra(w.intra, w.inter.rot.active, k);
    if q in passed && m < |passed[q].active| then TurnedIntra(passed, q, m + 1) else passed
  }

  lemma {:induction false} PassedOthers(start: Intra, types: seq<QueueType>, k: nat, q: QueueType)
    requires k <= |types| && q in start && q !in types[..k]
    ensures PassedIntra(start, types, k)[q] == start[q]
  {
    if k > 0 {
      assert types[..k] == types[..k - 1] + [types[k - 1]];
      PassedOthers(start, types, k - 1, q);
    }
  }

  lemma {:induction false} PassingKeepsTurn(s: Queues, start: Intra, i: Inter, types: seq<QueueType>, k: nat)
    requires TurnInv(s, start, i) && k <= |types|
    ensures TurnInv(s, PassedIntra(start, types, k), i) && Busy(PassedIntra(start, types, k)) == Busy(start)
  {
    hide TurnInv, Busy;
    if k > 0 {
      PassingKeepsTurn(s, start, i, types, k - 1);
      var before := PassedIntra(start, types, k - 1);
      var q := types[k - 1];
      if q in before && before[q].active != [] {
        TurningKeepsTurn(s, before, i, q, 1);
      }
    }
  }

  lemma SelectionsKeepTurn(s: Queues, intra: Intra, i: Inter, k: nat)
    requires TurnInv(s, intra, i) && !i.weighted && k <= |i.rot.active|
    ensures TurnInv(s, intra, InterAt(i, k)) && Known(InterAt(i, k))
  {
    hide SchedulerQueues.Inv, IntraInv;
    TurnedSpec(i.rot.active, k);
  }

  lemma TypesAreDistinct(w: Turns, k: nat)
    requires Inv(w) && k < |w.inter.rot.active|
    ensures w.inter.rot.active[k] !in w.inter.rot.active[..k]
  {
    hide SchedulerQueues.Inv, IntraInv;
  }

  /** The state in which the chosen head is looked at: in order, with that head still
      the head of its queue. */
  lemma PickedKeepsTurn(w: Turns, g: Gates, k: nat, m: nat)
    requires Inv(w) && Chosen(w, g, k, m)
    ensures var q := w.inter.rot.active[k];
            && PassedIntra(w.intra, w.inter.rot.active, k)[q] == w.intra[q]
            && PickedIntra(w, k, m) == TurnedIntra(PassedIntra(w.intra, w.inter.rot.active, k), q, m + 1)
            && TurnInv(w.queues, PickedIntra(w, k, m), InterAt(w.inter, k + 1))
            && q in Busy(PickedIntra(w, k, m))
  {
    var q := w.inter.rot.active[k];
    TypesAreDistinct(w, k);
    PassedOthers(w.intra, w.inter.rot.active, k, q);
    PassingKeepsTurn(w.queues, w.intra, w.inter, w.inter.rot.active, k);
    TurningKeepsTurn(w.queues, PassedIntra(w.intra, w.inter.rot.active, k), w.inter, q, m + 1);
    SelectionsKeepTurn(w.queues, PickedIntra(w, k, m), w.inter, k + 1);
  }

  lemma ChosenPhantom(w: Turns, g: Gates, k: nat, m: nat)
    requires Inv(w) && Chosen(w, g, k, m)
    requires Queue(w.queues, w.intra[w.inter.rot.active[k]].active[m], w.inter.rot.active[k])[0].kind == Phantom
    ensures w.inter.rot.active[k] == RequestQ && PhantomIsNext(w.queues, w.intra[RequestQ].active[m])
    ensures var c := w.intra[RequestQ].active[m];
            var t, x, y := ServePhantom(w.queues, c), PickedIntra(w, k, m), InterAt(w.inter, k + 1);
            && GoodCounts(t.counts) && Known(y)
            && DataQ in x && c in x[DataQ].isActive && RequestQ in x && c in x[RequestQ].isActive
            && var after := IntraAfterPhantom(x, t, c);
               SchedulerInv(t, after, InterAfterPhantom(y, after, t))
  {
    var q := w.inter.rot.active[k];
    var c := w.intra[q].active[m];
    PhantomsWaitInRequestQueues(w.queues, c, q);
    PickedKeepsTurn(w, g, k, m);
    ServeKeepsSchedulerInv(w.queues, PickedIntra(w, k, m), InterAt(w.inter, k + 1), c, ServePhantom(w.queues, c));
  }

  lemma ChosenPacket(w: Turns, g: Gates, k: nat, m: nat)
    requires Inv(w) && Chosen(w, g, k, m)
    requires Queue(w.queues, w.intra[w.inter.rot.active[k]].active[m], w.inter.rot.active[k])[0].kind != Phantom
    ensures var q := w.inter.rot.active[k];
            var c := w.intra[q].active[m];
            var t, x, y := Send(w.queues, c, q), PickedIntra(w, k, m), InterAt(w.inter, k + 1);
            && CanLeave(w.queues, c, q) && GoodCounts(t.counts) && Known(y) && q in x && c in x[q].isActive
            && var after := IntraAfterSend(x, t, c, q);
               SchedulerInv(t, after, InterAfterSend(y, after, t, c, q))
  {
    var q := w.inter.rot.active[k];
    var c := w.intra[q].active[m];
    PickedKeepsTurn(w, g, k, m);
    SendKeepsSchedulerInv(w.queues, PickedIntra(w, k, m), InterAt(w.inter, k + 1), c, q, Send(w.queues, c, q));
  }

  /** One service of what was chosen. */
  ghost function Serve(w: Turns, g: Gates, k: nat, m: nat): Turns
    requires Inv(w) && Chosen(w, g, k, m)
  {
    var q := w.inter.rot.active[k];
    var c := w.intra[q].active[m];
    if Queue(w.queues, c, q)[0].kind == Phantom then
      ChosenPhantom(w, g, k, m);
      var t := ServePhantom(w.queues, c);
      var after := IntraAfterPhantom(PickedIntra(w, k, m), t, c);
      Turns(t, after, InterAfterPhantom(InterAt(w.inter, k + 1), after, t))
    else
      ChosenPacket(w, g, k, m);
      var t := Send(w.queues, c, q);
      var after := IntraAfterSend(PickedIntra(w, k, m), t, c, q);
      Turns(t, after, InterAfterSend(InterAt(w.inter, k + 1), after, t, c, q))
  }

  /** What the policies and queues look like after the head of `c`'s queue was served
      in the middle of a turn, whichever policy is in use. */
  ghost predicate Served(s: Queues, x: Intra, y: Inter, c: Conn, q: QueueType, v: Turns) {
    && Queue(s, c, q) != [] && Known(y) && GoodCounts(v.queues.counts)
    && if Queue(s, c, q)[0].kind == Phantom then
         && q == RequestQ && v.queues == ServePhantom(s, c)
         && DataQ in x && c in x[DataQ].isActive && RequestQ in x && c in x[RequestQ].isActive
         && v.intra == IntraAfterPhantom(x, v.queues, c)
         && var j := InterAfterPhantom(y, v.intra, v.queues);
            Known(j) && v.inter == Update(j, false, v.queues.counts)
       else
         && q in x && c in x[q].isActive && v.queues == Send(s, c, q)
         && v.intra == IntraAfterSend(x, v.queues, c, q)
         && v.inter == InterAfterSend(y, v.intra, v.queues, c, q)
  }

  lemma ServedPhantomIsServe(w: Turns, g: Gates, k: nat, m: nat, v: Turns)
    requires Inv(w) && Chosen(w, g, k, m)
    requires Queue(w.queues, w.intra[w.inter.rot.active[k]].active[m], w.inter.rot.active[k])[0].kind == Phantom
    requires var q := w.inter.rot.active[k];
             Served(w.queues, PickedIntra(w, k, m), InterAt(w.inter, k + 1), w.intra[q].active[m], q, v)
    ensures v == Serve(w, g, k, m)
  {
    ChosenPhantom(w, g, k, m);
    hide SchedulerInv, PickedIntra, ServePhantom;
    assert !InterAfterPhantom(InterAt(w.inter, k + 1), v.intra, v.queues).weighted;
  }

  lemma ServedPacketIsServe(w: Turns, g: Gates, k: nat, m: nat, v: Turns)
    requires Inv(w) && Chosen(w, g, k, m)
    requires Queue(w.queues, w.intra[w.inter.rot.active[k]].active[m], w.inter.rot.active[k])[0].kind != Phantom
    requires var q := w.inter.rot.active[k];
             Served(w.queues, PickedIntra(w, k, m), InterAt(w.inter, k + 1), w.intra[q].active[m], q, v)
    ensures v == Serve(w, g, k, m)
  {
    ChosenPacket(w, g, k, m);
    hide SchedulerInv, PickedIntra, InterAfterSend, IntraAfterSend;
  }

  lemma ServedIsServe(w: Turns, g: Gates, k: nat, m: nat, v: Turns)
    requires Inv(w) && Chosen(w, g, k, m)
    requires var q := w.inter.rot.active[k];
             Served(w.queues, PickedIntra(w, k, m), InterAt(w.inter, k + 1), w.intra[q].active[m], q, v)
    ensures v == Serve(w, g, k, m)
  {
    var q := w.inter.rot.active[k];
    var phantom := Queue(w.queues, w.intra[q].active[m], q)[0].kind == Phantom;
    hide Inv, Serve, Served;
    if phantom {
      ServedPhantomIsServe(w, g, k, m, v);
    } else {
      ServedPacketIsServe(w, g, k, m, v);
    }
  }

  /** Serving the `m`-th connection of the `k`-th type after the earlier types were
      passed is serving what is chosen. */
  lemma TurnServes(w: Turns, g: Gates, k: nat, m: nat, v: Turns)
    requires Inv(w) && k < |w.inter.rot.active| && RoundStuck(w.queues, g, w.intra, w.inter.rot.active, k)
    requires var q := w.inter.rot.active[k];
             var before := PassedIntra(w.intra, w.inter.rot.active, k);
             && q in before && m < |before[q].active|
             && Offers(w.queues, g, before[q].active[m], q)
             && (forall j :: 0 <= j < m ==> Stuck(w.queues, g, before[q].active[j], q))
             && Served(w.queues, TurnedIntra(before, q, m + 1), InterAt(w.inter, k + 1), before[q].active[m], q, v)
    ensures Chosen(w, g, k, m) && v == Serve(w, g, k, m)
  {
    var q := w.inter.rot.active[k];
    TypesAreDistinct(w, k);
    PassedOthers(w.intra, w.inter.rot.active, k, q);
    ServedIsServe(w, g, k, m, v);
  }

  /** The step from one type to the next, and from the last type to the end. */
  lemma SelectAdvances(i: Inter, k: nat)
    requires Known(i) && !i.weighted && k <= |i.rot.active|
    ensures var j := InterAt(i, k);
            && Known(j)
            && (k < |i.rot.active| ==> Select(j).1 == InterAt(i, k + 1))
            && (k == |i.rot.active| ==> Select(j).1 == if i.rot.active == [] then i else InterAt(i, 1))
  {
    if k < |i.rot.active| {
      TurnOnce(i.rot.active, k);
    } else {
      assert Turned(i.rot.active, k) == i.rot.active == Turned(i.rot.active, 0);
    }
  }

  lemma PhantomKeepsInv(w: Turns, g: Gates, k: nat, m: nat)
    requires Inv(w) && Chosen(w, g, k, m)
    requires Queue(w.queues, w.intra[w.inter.rot.active[k]].active[m], w.inter.rot.active[k])[0].kind == Phantom
    ensures Inv(Serve(w, g, k, m))
  {
    ChosenPhantom(w, g, k, m);
    hide SchedulerInv, TurnInv, Chosen;
    var v := Serve(w, g, k, m);
    assert !v.inter.weighted;
  }

  lemma PacketKeepsInv(w: Turns, g: Gates, k: nat, m: nat)
    requires Inv(w) && Chosen(w, g, k, m)
    requires Queue(w.queues, w.intra[w.inter.rot.active[k]].active[m], w.inter.rot.active[k])[0].kind != Phantom
    ensures Inv(Serve(w, g, k, m))
  {
    ChosenPacket(w, g, k, m);
    hide SchedulerInv, TurnInv, Chosen;
    var v := Serve(w, g, k, m);
    assert !v.inter.weighted;
  }

  lemma ServeKeepsInv(w: Turns, g: Gates, k: nat, m: nat)
    requires Inv(w) && Chosen(w, g, k, m)
    ensures Inv(Serve(w, g, k, m))
  {
    var q := w.inter.rot.active[k];
    var phantom := Queue(w.queues, w.intra[q].active[m], q)[0].kind == Phantom;
    hide Inv, Serve;
    if phantom {
      PhantomKeepsInv(w, g, k, m);
    } else {
      PacketKeepsInv(w, g, k, m);
    }
  }

  // ---------- Where a packet waits ----------

  /** Connection `c` is the `p`-th of packet type `q`, which is the `u`-th type. */
  ghost predicate WaitsAt(w: Turns, c: Conn, q: QueueType, u: nat, p: nat) {
    InTypes(w.inter, q, u) && InList(w.intra, c, q, p)
  }

  ghost predicate InTypes(i: Inter, q: QueueType, u: nat) {
    u < |i.rot.active| && i.rot.active[u] == q
  }

  ghost predicate InList(intra: Intra, c: Conn, q: QueueType, p: nat) {
    q in intra && p < |intra[q].active| && intra[q].active[p] == c
  }

  lemma ActivationKeepsPlace<T>(r: Rotation<T>, x: T, p: nat)
    requires p < |r.active| && x in r.isActive
    ensures p < |Activate(r, x).active| && Activate(r, x).active[p] == r.active[p]
  {
  }

  lemma AfterSendMovesForward(x: Intra, t: Queues, d: Conn, e: QueueType, c: Conn, q: QueueType, p: nat) returns (r: nat)
    requires e in x && d in x[e].isActive && InList(x, c, q, p) && !(d == c && e == q)
    ensures r <= p && InList(IntraAfterSend(x, t, d, e), c, q, r)
  {
    r := p;
    if e == q && Queue(t, d, e) == [] {
      r := DeactivateMovesForward(x[q], d, p);
    }
  }

  lemma AfterPhantomMovesForward(x: Intra, t: Queues, d: Conn, c: Conn, q: QueueType, p: nat) returns (r: nat)
    requires DataQ in x && d in x[DataQ].isActive && RequestQ in x && d in x[RequestQ].isActive
    requires InList(x, c, q, p) && !(d == c && q == RequestQ)
    ensures r <= p && InList(IntraAfterPhantom(x, t, d), c, q, r)
  {
    var y := x[DataQ := Activate(x[DataQ], d)];
    if q == DataQ {
      ActivationKeepsPlace(x[DataQ], d, p);
    }
    r := AfterSendMovesForward(y, t, d, RequestQ, c, q, p);
  }

  /** The policy takes a type off its list only when no connection waits for it. */
  lemma TypesAfterSend(y: Inter, after: Intra, t: Queues, d: Conn, e: QueueType, c: Conn, q: QueueType, p: nat, u: nat)
    returns (v: nat)
    requires Known(y) && GoodCounts(t.counts) && !y.weighted && e in after
    requires InList(after, c, q, p) && InTypes(y, q, u)
    ensures v <= u && InTypes(InterAfterSend(y, after, t, d, e), q, v)
  {
    v := u;
    if Queue(t, d, e) == [] && after[e].active == [] && y.rot.isActive[e] {
      v := DeactivateMovesForward(y.rot, e, u);
    }
  }

  /** Serving a phantom puts the request type at the back and no other type. */
  lemma TypesAfterPhantom(y: Inter, after: Intra, t: Queues, c: Conn, q: QueueType, p: nat, u: nat) returns (v: nat)
    requires Known(y) && GoodCounts(t.counts) && !y.weighted && Agrees(y.rot) && RequestQ in after
    requires InList(after, c, q, p) && InTypes(y, q, u)
    ensures InTypes(InterAfterPhantom(y, after, t), q, v) && (q != RequestQ ==> v <= u)
  {
    ActivationKeepsPlace(y.rot, DataQ, u);
    ActivateAgrees(y.rot, DataQ);
    var r1 := Activate(y.rot, DataQ);
    var r2 := Deactivate(r1, RequestQ);
    DeactivateAgrees(r1, RequestQ);
    if q == RequestQ {
      v := |r2.active|;
      assert !r2.isActive[RequestQ];
    } else {
      v := DeactivateMovesForward(r1, RequestQ, u);
      if after[RequestQ].active != [] {
        ActivationKeepsPlace(r2, RequestQ, v);
      }
    }
  }

  /** The place once the chosen head is looked at: further up, in the list of its type
      if that type was chosen, and among the types if not. */
  lemma PickedPlace(w: Turns, g: Gates, k: nat, m: nat, c: Conn, q: QueueType, u: nat, p: nat) returns (v: nat, r: nat)
    requires Inv(w) && Chosen(w, g, k, m) && WaitsAt(w, c, q, u, p) && Offers(w.queues, g, c, q)
    requires !(q == w.inter.rot.active[k] && c == w.intra[q].active[m])
    ensures InTypes(InterAt(w.inter, k + 1), q, v) && InList(PickedIntra(w, k, m), c, q, r)
    ensures if q == w.inter.rot.active[k] then r < p else r == p && v < u
  {
    hide SchedulerInv, TurnInv, Stuck;
    var types := w.inter.rot.active;
    PickedKeepsTurn(w, g, k, m);
    if q == types[k] {
      assert m < p;
      v, r := |types| - 1, p - m - 1;
      TypesAreDistinct(w, if u < k then k else u);
    } else {
      assert k < u;
      v, r := u - k - 1, p;
      TypesAreDistinct(w, u);
      assert q !in types[..k];
      PassedOthers(w.intra, types, k, q);
    }
  }

  lemma {:induction false} DistinctElements<T>(s: seq<T>)
    requires NoDuplicates(s)
    ensures |set x | x in s| == |s|
  {
    if s != [] {
      var init := s[..|s| - 1];
      DistinctElements(init);
      assert (set x | x in s) == (set x | x in init) + {s[|s| - 1]};
    }
  }

  lemma {:induction false} SubsetIsSmaller<T>(a: set<T>, b: set<T>)
    requires a <= b
    ensures |a| <= |b|
  {
    if a != {} {
      var x :| x in a;
      SubsetIsSmaller(a - {x}, b - {x});
    }
  }

  lemma FiveTypes(types: seq<QueueType>)
    requires NoDuplicates(types)
    ensures |types| <= 5
  {
    DistinctElements(types);
    var all := {RequestQ, UnorderedRequestQ, DataQ, GrantQ, PullDataQ};
    forall q | q in types ensures q in all {
      assert q.RequestQ? || q.UnorderedRequestQ? || q.DataQ? || q.GrantQ? || q.PullDataQ?;
    }
    SubsetIsSmaller((set q | q in types), all);
  }

  /** Services still to come before the packet's own, at most: one of each of five
      packet types for each connection ahead on its list. */
  function Ahead(u: nat, p: nat): nat {
    5 * p + u
  }

  ghost predicate IsFor(w: Turns, k: nat, m: nat, c: Conn, q: QueueType) {
    InTypes(w.inter, q, k) && InList(w.intra, c, q, m)
  }

  lemma PlaceAfterPhantom(w: Turns, g: Gates, k: nat, m: nat, c: Conn, q: QueueType, v0: nat, r0: nat)
    returns (v: nat, r: nat)
    requires Inv(w) && Chosen(w, g, k, m) && !IsFor(w, k, m, c, q)
    requires Queue(w.queues, w.intra[w.inter.rot.active[k]].active[m], w.inter.rot.active[k])[0].kind == Phantom
    requires InTypes(InterAt(w.inter, k + 1), q, v0) && InList(PickedIntra(w, k, m), c, q, r0)
    ensures WaitsAt(Serve(w, g, k, m), c, q, v, r) && r <= r0 && (q != w.inter.rot.active[k] ==> v <= v0)
  {
    hide SchedulerQueues.Inv, IntraInv, RoundStuck, Stuck;
    var d := w.intra[w.inter.rot.active[k]].active[m];
    ChosenPhantom(w, g, k, m);
    var x, y, t := PickedIntra(w, k, m), InterAt(w.inter, k + 1), ServePhantom(w.queues, d);
    PickedKeepsTurn(w, g, k, m);
    r := AfterPhantomMovesForward(x, t, d, c, q, r0);
    v := TypesAfterPhantom(y, IntraAfterPhantom(x, t, d), t, c, q, r, v0);
  }

  lemma PlaceAfterPacket(w: Turns, g: Gates, k: nat, m: nat, c: Conn, q: QueueType, v0: nat, r0: nat)
    returns (v: nat, r: nat)
    requires Inv(w) && Chosen(w, g, k, m) && !IsFor(w, k, m, c, q)
    requires Queue(w.queues, w.intra[w.inter.rot.active[k]].active[m], w.inter.rot.active[k])[0].kind != Phantom
    requires InTypes(InterAt(w.inter, k + 1), q, v0) && InList(PickedIntra(w, k, m), c, q, r0)
    ensures WaitsAt(Serve(w, g, k, m), c, q, v, r) && r <= r0 && v <= v0
  {
    hide SchedulerQueues.Inv, IntraInv, RoundStuck, Stuck;
    var e := w.inter.rot.active[k];
    var d := w.intra[e].active[m];
    var x, y, t := PickedIntra(w, k, m), InterAt(w.inter, k + 1), Send(w.queues, d, e);
    ChosenPacket(w, g, k, m);
    r := AfterSendMovesForward(x, t, d, e, c, q, r0);
    v := TypesAfterSend(y, IntraAfterSend(x, t, d, e), t, d, e, c, q, r, v0);
  }

  lemma PlaceAfterService(w: Turns, g: Gates, k: nat, m: nat, c: Conn, q: QueueType, u: nat, p: nat)
    returns (v: nat, r: nat)
    requires Inv(w) && Chosen(w, g, k, m)
    requires WaitsAt(w, c, q, u, p) && Offers(w.queues, g, c, q) && !IsFor(w, k, m, c, q)
    ensures WaitsAt(Serve(w, g, k, m), c, q, v, r)
    ensures if q == w.inter.rot.active[k] then r < p else r <= p && v < u
  {
    var e := w.inter.rot.active[k];
    var phantom := Queue(w.queues, w.intra[e].active[m], e)[0].kind == Phantom;
    var v0, r0 := PickedPlace(w, g, k, m, c, q, u, p);
    hide Inv, Serve, Stuck, RoundStuck;
    if phantom {
      v, r := PlaceAfterPhantom(w, g, k, m, c, q, v0, r0);
    } else {
      v, r := PlaceAfterPacket(w, g, k, m, c, q, v0, r0);
    }
  }

  /** A service that goes to another brings the packet closer. */
  lemma ServiceMovesUp(w: Turns, g: Gates, k: nat, m: nat, c: Conn, q: QueueType, u: nat, p: nat)
    returns (v: nat, r: nat)
    requires Inv(w) && Chosen(w, g, k, m)
    requires WaitsAt(w, c, q, u, p) && Offers(w.queues, g, c, q) && !IsFor(w, k, m, c, q)
    ensures WaitsAt(Serve(w, g, k, m), c, q, v, r) && Ahead(v, r) < Ahead(u, p)
  {
    v, r := PlaceAfterService(w, g, k, m, c, q, u, p);
    ServeKeepsInv(w, g, k, m);
    FiveTypes(Serve(w, g, k, m).inter.rot.active);
  }

  // ---------- Runs ----------

  datatype Step =
    | ConnectStep(c: Conn, ordered: bool)
    | AddStep(c: Conn, rsn: int, kind: Kind)
    | ServiceStep(g: Gates, k: nat, m: nat)
    | VainStep(g: Gates)                     // a turn that found nothing

  ghost predicate Vain(w: Turns, g: Gates) {
    RoundStuck(w.queues, g, w.intra, w.inter.rot.active, |w.inter.rot.active|)
  }

  /** A vain turn has tried every type once and selected once more. */
  function AfterVain(w: Turns): Turns {
    var types := w.inter.rot.active;
    w.(intra := PassedIntra(w.intra, types, |types|), inter := if types == [] then w.inter else InterAt(w.inter, 1))
  }

  function AfterConnect(w: Turns, c: Conn, ordered: bool): Turns {
    w.(queues := w.queues.(ordered := w.queues.ordered[c := ordered]),
       intra := map q | q in w.intra :: Join(w.intra[q], c))
  }

  ghost predicate AddsPacket(w: Turns, c: Conn, rsn: int, kind: Kind, v: Turns) {
    var (t, q) := Add(w.queues, c, rsn, kind);
    && GoodCounts(t.counts) && Known(w.inter) && q in w.intra && c in w.intra[q].isActive
    && v == Turns(t, w.intra[q := Activate(w.intra[q], c)], MarkActive(w.inter, q, t.counts))
  }

  ghost predicate Enabled(w: Turns, step: Step) {
    match step
    case ConnectStep(c, _) => c !in w.queues.ordered
    case AddStep(c, rsn, kind) => SchedulerQueues.Enabled(w.queues, SchedulerQueues.AddStep(c, rsn, kind))
    case ServiceStep(g, k, m) => Chosen(w, g, k, m)
    case VainStep(g) => Vain(w, g)
  }

  ghost function Do(w: Turns, step: Step): Turns
    requires Inv(w) && Enabled(w, step)
  {
    match step
    case ConnectStep(c, ordered) => AfterConnect(w, c, ordered)
    case AddStep(c, rsn, kind) =>
      AddKeepsSchedulerInv(w.queues, w.intra, w.inter, c, rsn, kind);
      var (t, q) := Add(w.queues, c, rsn, kind);
      Turns(t, w.intra[q := Activate(w.intra[q], c)], MarkActive(w.inter, q, t.counts))
    case ServiceStep(g, k, m) => Serve(w, g, k, m)
    case VainStep(_) => AfterVain(w)
  }

  /** The step that the scheduler's `EnqueuePacket` takes. */
  lemma AddsPacketIsDo(w: Turns, c: Conn, rsn: int, kind: Kind, v: Turns)
    requires Inv(w) && Enabled(w, Step.AddStep(c, rsn, kind)) && AddsPacket(w, c, rsn, kind, v)
    ensures v == Do(w, Step.AddStep(c, rsn, kind))
  {
  }

  lemma ConnectKeeps(w: Turns, c: Conn, ordered: bool)
    requires Inv(w) && c !in w.queues.ordered
    ensures Inv(AfterConnect(w, c, ordered))
  {
    var after := AfterConnect(w, c, ordered);
    forall q: QueueType ensures q in w.intra && q in after.intra && after.intra[q] == Join(w.intra[q], c) {
      assert TypeOk(w.queues, w.intra, q);
    }
    ConnectKeepsSchedulerInv(w.queues, w.intra, w.inter, c, ordered, after.intra);
  }

  lemma VainKeeps(w: Turns, g: Gates)
    requires Inv(w) && Vain(w, g)
    ensures Inv(AfterVain(w))
  {
    var types := w.inter.rot.active;
    PassingKeepsTurn(w.queues, w.intra, w.inter, types, |types|);
    if types != [] {
      SelectionsKeepTurn(w.queues, PassedIntra(w.intra, types, |types|), w.inter, 1);
    }
  }

  lemma DoKeepsInv(w: Turns, step: Step)
    requires Inv(w) && Enabled(w, step)
    ensures Inv(Do(w, step))
  {
    match step
    case ConnectStep(c, ordered) => ConnectKeeps(w, c, ordered);
    case AddStep(c, rsn, kind) => AddKeepsSchedulerInv(w.queues, w.intra, w.inter, c, rsn, kind);
    case ServiceStep(g, k, m) => ServeKeepsInv(w, g, k, m);
    case VainStep(g) => VainKeeps(w, g);
  }

  /** No connections, and every packet type inactive. */
  ghost predicate IsInitial(w: Turns) {
    && w.queues == SchedulerQueues.Initial()
    && (forall q: QueueType :: q in w.intra && w.intra[q] == Rotation(map[], [], []))
    && Known(w.inter) && !w.inter.weighted && w.inter.rot.active == [] && w.inter.rot.inactive == AllTypes
    && (forall q: QueueType :: !w.inter.rot.isActive[q])
  }

  ghost predicate Follows(ws: seq<Turns>, steps: seq<Step>, i: nat)
    requires |ws| == |steps| + 1 && i < |steps|
  {
    Enabled(ws[i], steps[i]) && (Inv(ws[i]) ==> ws[i + 1] == Do(ws[i], steps[i]))
  }

  ghost predicate IsRun(ws: seq<Turns>, steps: seq<Step>) {
    && |ws| == |steps| + 1 && IsInitial(ws[0])
    && forall i :: 0 <= i < |steps| ==> Follows(ws, steps, i)
  }

  lemma {:induction false} EveryRunKeepsInv(ws: seq<Turns>, steps: seq<Step>, i: nat)
    requires IsRun(ws, steps) && i < |ws|
    ensures Inv(ws[i])
  {
    hide Enabled, Inv;
    if i > 0 {
      EveryRunKeepsInv(ws, steps, i - 1);
      assert Follows(ws, steps, i - 1);
      DoKeepsInv(ws[i - 1], steps[i - 1]);
    } else {
      InitialKeeps(ws[0]);
    }
  }

  lemma InitialKeeps(w: Turns)
    requires IsInitial(w)
    ensures Inv(w)
  {
    InitialInv();
    forall q: QueueType ensures TypeOk(w.queues, w.intra, q) {
      assert Backlog(w.queues, q) == {} && EligibleEntries(w.queues, q) == {};
    }
    assert Busy(w.intra) == {};
    forall q: QueueType ensures q in w.inter.rot.inactive {
      var k := EveryTypeIsListed(q);
    }
  }

  // ---------- Bounded waiting ----------

  predicate IsTurn(step: Step) {
    step.ServiceStep? || step.VainStep?
  }

  /** The packet offers itself in this turn and is passed over. */
  ghost predicate PassedOver(w: Turns, step: Step, c: Conn, q: QueueType) {
    match step
    case ServiceStep(g, k, m) => Offers(w.queues, g, c, q) && !IsFor(w, k, m, c, q)
    case VainStep(g) => Offers(w.queues, g, c, q)
    case _ => true
  }

  function TurnsIn(steps: seq<Step>): nat {
    if steps == [] then 0
    else TurnsIn(steps[..|steps| - 1]) + (if IsTurn(steps[|steps| - 1]) then 1 else 0)
  }

  lemma TurnsSoFar(steps: seq<Step>, from: nat, end: nat)
    requires from < end <= |steps|
    ensures TurnsIn(steps[from..end]) == TurnsIn(steps[from..end - 1]) + if IsTurn(steps[end - 1]) then 1 else 0
  {
    var part := steps[from..end];
    assert part[..|part| - 1] == steps[from..end - 1];
  }

  lemma AddKeepsPlace(w: Turns, step: Step, c: Conn, q: QueueType, u: nat, p: nat)
    requires Inv(w) && Enabled(w, step) && step.AddStep? && WaitsAt(w, c, q, u, p)
    ensures WaitsAt(Do(w, step), c, q, u, p)
  {
    AddKeepsSchedulerInv(w.queues, w.intra, w.inter, step.c, step.rsn, step.kind);
    var (t, e) := Add(w.queues, step.c, step.rsn, step.kind);
    ActivationKeepsPlace(w.inter.rot, e, u);
    if e == q {
      ActivationKeepsPlace(w.intra[q], step.c, p);
    }
  }

  lemma VainTurnsRefuse(w: Turns, g: Gates, c: Conn, q: QueueType, u: nat, p: nat)
    requires Vain(w, g) && WaitsAt(w, c, q, u, p)
    ensures !Offers(w.queues, g, c, q)
  {
    assert TypeStuck(w.queues, g, w.intra[w.inter.rot.active[u]], w.inter.rot.active[u]);
    assert c in w.intra[q].active;
  }

  /** Whatever happens, the packet is brought closer by each turn that passes it over
      and is never set back. */
  lemma WaitGoesOn(w: Turns, step: Step, c: Conn, q: QueueType, u: nat, p: nat) returns (v: nat, r: nat)
    requires Inv(w) && Enabled(w, step) && WaitsAt(w, c, q, u, p) && PassedOver(w, step, c, q)
    ensures WaitsAt(Do(w, step), c, q, v, r)
    ensures Ahead(v, r) + (if IsTurn(step) then 1 else 0) <= Ahead(u, p)
  {
    v, r := u, p;
    match step
    case ServiceStep(g, k, m) =>
      v, r := ServiceMovesUp(w, g, k, m, c, q, u, p);
    case AddStep(_, _, _) =>
      AddKeepsPlace(w, step, c, q, u, p);
    case ConnectStep(_, _) =>
    case VainStep(g) =>
      VainTurnsRefuse(w, g, c, q, u, p);
      assert false;
  }

  lemma WaitGoesOnInRun(ws: seq<Turns>, steps: seq<Step>, i: nat, c: Conn, q: QueueType, u: nat, p: nat)
    returns (v: nat, r: nat)
    requires IsRun(ws, steps) && i < |steps| && WaitsAt(ws[i], c, q, u, p) && PassedOver(ws[i], steps[i], c, q)
    ensures WaitsAt(ws[i + 1], c, q, v, r)
    ensures Ahead(v, r) + (if IsTurn(steps[i]) then 1 else 0) <= Ahead(u, p)
  {
    hide Enabled, Inv, WaitsAt, PassedOver;
    EveryRunKeepsInv(ws, steps, i);
    assert Follows(ws, steps, i);
    v, r := WaitGoesOn(ws[i], steps[i], c, q, u, p);
  }

  /** Bounded waiting: over any stretch of a run in which a waiting head may be served
      and is passed over, no more turns go by than five for each connection ahead of
      its own plus one for each packet type ahead of its own, whatever connects, is
      enqueued and is served meanwhile. */
  lemma {:induction false} BoundedWait(ws: seq<Turns>, steps: seq<Step>, from: nat, end: nat,
                                       c: Conn, q: QueueType, u: nat, p: nat)
    returns (v: nat, r: nat)
    requires IsRun(ws, steps) && from <= end < |ws| && WaitsAt(ws[from], c, q, u, p)
    requires forall i :: from <= i < end ==> PassedOver(ws[i], steps[i], c, q)
    ensures WaitsAt(ws[end], c, q, v, r) && TurnsIn(steps[from..end]) + Ahead(v, r) <= Ahead(u, p)
  {
    hide WaitsAt, PassedOver, Follows;
    if from == end {
      assert steps[from..end] == [];
      v, r := u, p;
    } else {
      var v0, r0 := BoundedWait(ws, steps, from, end - 1, c, q, u, p);
      TurnsSoFar(steps, from, end);
      v, r := WaitGoesOnInRun(ws, steps, end - 1, c, q, v0, r0);
    }
  }

  lemma OfferIsListed(w: Turns, g: Gates, c: Conn, q: QueueType)
    requires Inv(w) && Offers(w.queues, g, c, q)
    ensures q in w.intra && c in w.intra[q].active && q in w.inter.rot.active
  {
    assert TypeOk(w.queues, w.intra, q);
    var head := Queue(w.queues, c, q)[0];
    QueuedConnectionIsKnown(w.queues, c, q);
    assert (c, head) in w.queues.ineligible <==> Barred(w.queues, c, head);
    assert (c, head) in EligibleEntries(w.queues, q);
    assert q in Busy(w.intra);
  }

  lemma ListsAreShort(w: Turns, q: QueueType)
    requires Inv(w)
    ensures |w.inter.rot.active| <= 5
    ensures q in w.intra && |w.intra[q].active| <= |w.queues.ordered|
  {
    FiveTypes(w.inter.rot.active);
    assert TypeOk(w.queues, w.intra, q);
    var active := w.intra[q].active;
    DistinctElements(active);
    SubsetIsSmaller((set c | c in active), w.queues.ordered.Keys);
  }

  /** Whoever has something to offer has a place on the lists. */
  lemma OfferHasPlace(w: Turns, g: Gates, c: Conn, q: QueueType) returns (u: nat, p: nat)
    requires Inv(w) && Offers(w.queues, g, c, q)
    ensures WaitsAt(w, c, q, u, p) && Ahead(u, p) < 5 * |w.queues.ordered|
  {
    hide Inv;
    OfferIsListed(w, g, c, q);
    ListsAreShort(w, q);
    u :| u < |w.inter.rot.active| && w.inter.rot.active[u] == q;
    p :| p < |w.intra[q].active| && w.intra[q].active[p] == c;
  }

  /** Nobody starves: from when a queue head may be served until it is, as long as it
      may be, fewer than five turns per connection known by then go by. */
  lemma WaitIsShort(ws: seq<Turns>, steps: seq<Step>, from: nat, end: nat, g: Gates, c: Conn, q: QueueType)
    requires IsRun(ws, steps) && from <= end < |ws| && Offers(ws[from].queues, g, c, q)
    requires forall i :: from <= i < end ==> PassedOver(ws[i], steps[i], c, q)
    ensures TurnsIn(steps[from..end]) < 5 * |ws[from].queues.ordered|
  {
    hide Inv, WaitsAt, PassedOver, Follows, Offers;
    EveryRunKeepsInv(ws, steps, from);
    var u, p := OfferHasPlace(ws[from], g, c, q);
    var v, r := BoundedWait(ws, steps, from, end, c, q, u, p);
  }
}
