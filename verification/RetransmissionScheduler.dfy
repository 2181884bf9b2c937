/**
 The retransmission scheduler and its two policies as objects, with the nested
 rotation loops of one turn.
 */
module RetransmissionScheduler {
  import opened Lists
  import opened SerialNumbers
  import opened RetransmissionQueues

  /** Round robin among connections. */
  class InterConnectionRoundRobinPolicy {
    var isActive: map<Conn, bool>
    var activeConnections: seq<Conn>
    var inactiveConnections: seq<Conn>

    ghost function View(): Rotation<Conn>
      reads this
    {
      Rotation(isActive, activeConnections, inactiveConnections)
    }

    constructor ()
      ensures View() == Rotation(map[], [], [])
    {
      isActive, activeConnections, inactiveConnections := map[], [], [];
    }

    method InitConnection(c: Conn) returns (ok: bool)
      modifies this
      ensures ok <==> c !in old(isActive)
      ensures View() == if ok then Join(old(View()), c) else old(View())
    {
      if c in isActive {
        return false;
      }
      inactiveConnections := inactiveConnections + [c];
      isActive := isActive[c := false];
      return true;
    }

    method SelectConnection() returns (r: Option<Conn>)
      modifies this
      ensures old(activeConnections) == [] ==> r == None && View() == old(View())
      ensures old(activeConnections) != [] ==>
                r == Some(old(activeConnections)[0]) && View() == Rotate(old(View()))
    {
      if activeConnections == [] {
        return None;
      }
      var c := activeConnections[0];
      activeConnections := activeConnections[1..];
      activeConnections := activeConnections + [c];
      return Some(c);
    }

    method MarkConnectionActive(c: Conn)
      requires c in isActive
      modifies this
      ensures View() == Activate(old(View()), c)
    {
      if isActive[c] {
        return;
      }
      isActive := isActive[c := true];
      inactiveConnections := Remove(inactiveConnections, c);
      activeConnections := activeConnections + [c];
    }

    method MarkConnectionInactive(c: Conn)
      requires c in isActive
      modifies this
      ensures View() == Deactivate(old(View()), c)
    {
      if !isActive[c] {
        return;
      }
      isActive := isActive[c := false];
      activeConnections := Remove(activeConnections, c);
      inactiveConnections := inactiveConnections + [c];
    }
  }

  /** Round robin among the queues of each connection. */
  class IntraConnectionRoundRobinPolicy {
    var policyState: map<Conn, Rotation<WindowType>>

    constructor ()
      ensures policyState == map[]
    {
      policyState := map[];
    }

    method InitConnection(c: Conn)
      modifies this
      ensures policyState == old(policyState)[c := NewQueues]
    {
      var queueTypes := [RequestWindow, DataWindow];
      var state: Rotation<WindowType> := Rotation(map[], [], []);
      for k := 0 to |queueTypes|
        invariant state == if k == 0 then Rotation(map[], [], [])
                           else if k == 1 then Rotation(map[RequestWindow := false], [], [RequestWindow])
                           else NewQueues
      {
        state := state.(isActive := state.isActive[queueTypes[k] := false],
                        inactive := state.inactive + [queueTypes[k]]);
      }
      policyState := policyState[c := state];
    }

    method SelectQueue(c: Conn) returns (r: Option<WindowType>)
      requires c in policyState
      modifies this
      ensures old(policyState)[c].active == [] ==> r == None && policyState == old(policyState)
      ensures old(policyState)[c].active != [] ==>
                && r == Some(old(policyState)[c].active[0])
                && policyState == old(policyState)[c := Rotate(old(policyState)[c])]
    {
      var state := policyState[c];
      if state.active == [] {
        return None;
      }
      var q := state.active[0];
      policyState := policyState[c := state.(active := state.active[1..] + [q])];
      return Some(q);
    }

    method MarkQueueActive(c: Conn, q: WindowType)
      requires c in policyState && q in policyState[c].isActive
      modifies this
      ensures policyState == old(policyState)[c := Activate(old(policyState)[c], q)]
    {
      var state := policyState[c];
      if !state.isActive[q] {
        state := Rotation(state.isActive[q := true], state.active + [q], Remove(state.inactive, q));
      }
      policyState := policyState[c := state];
    }

    method MarkQueueInactive(c: Conn, q: WindowType)
      requires c in policyState && q in policyState[c].isActive
      modifies this
      ensures policyState == old(policyState)[c := Deactivate(old(policyState)[c], q)]
    {
      var state := policyState[c];
      if state.isActive[q] {
        state := Rotation(state.isActive[q := false], Remove(state.active, q), state.inactive + [q]);
      }
      policyState := policyState[c := state];
    }

    method HasWork(c: Conn) returns (b: bool)
      requires c in policyState
      ensures b <==> policyState[c].active != []
    {
      b := policyState[c].active != [];
    }
  }

  class ProtocolRetransmissionScheduler {
    var connectionQueues: map<(Conn, WindowType), WorkSet>
    const inter: InterConnectionRoundRobinPolicy
    const intra: IntraConnectionRoundRobinPolicy

    ghost function View(): State
      reads this, inter, intra
    {
      State(connectionQueues, inter.View(), intra.policyState)
    }

    constructor ()
      ensures View() == Initial() && fresh(inter) && fresh(intra)
    {
      connectionQueues := map[];
      inter := new InterConnectionRoundRobinPolicy();
      intra := new IntraConnectionRoundRobinPolicy();
    }

    method InitConnectionSchedulerQueues(c: Conn) returns (ok: bool)
      requires Inv(View())
      modifies this, inter, intra
      ensures Inv(View())
      ensures ok <==> c !in old(inter.isActive)
      ensures View() == if ok then Connect(old(View()), c) else old(View())
    {
      if c in inter.isActive {
        return false;
      }
      ConnectKeepsInv(View(), c);
      connectionQueues := connectionQueues[(c, RequestWindow) := []][(c, DataWindow) := []];
      ok := inter.InitConnection(c);
      intra.InitConnection(c);
    }

    method EnqueuePacket(c: Conn, w: WorkId) returns (inserted: bool)
      requires Inv(View()) && Enabled(View(), EnqueueStep(c, w))
      modifies this, inter, intra
      ensures Inv(View()) && View() == Enqueue(old(View()), c, w)
      ensures inserted <==> !exists x :: x in Queue(old(View()), c, WindowOf(w.kind)) && x.psn == w.psn
    {
      ghost var s := View();
      var q := if w.kind.PullRequest? || w.kind.PushRequest? then RequestWindow else DataWindow;
      EnqueueKeepsInv(s, c, w);
      EnqueueFindsDuplicates(s, c, w);
      var queue := if (c, q) in connectionQueues then connectionQueues[(c, q)] else [];
      if Has(queue, w.psn) {
        return false;
      }
      connectionQueues := connectionQueues[(c, q) := Insert(queue, w)];
      inter.MarkConnectionActive(c);
      intra.MarkQueueActive(c, q);
      return true;
    }

    /** Stores what is left of a queue and updates the policies. */
    method Shrink(c: Conn, q: WindowType, rest: WorkSet)
      requires Connected(View(), c)
      modifies this, inter, intra
      ensures View() == Remaining(old(View()), c, q, rest)
    {
      assert q.RequestWindow? || q.DataWindow?;
      connectionQueues := connectionQueues[(c, q) := rest];
      if rest == [] {
        intra.MarkQueueInactive(c, q);
        var hasWork := intra.HasWork(c);
        if !hasWork {
          inter.MarkConnectionInactive(c);
        }
      }
    }

    method DequeuePacket(c: Conn, w: WorkId)
      requires Inv(View()) && Enabled(View(), DequeueStep(c, w))
      modifies this, inter, intra
      ensures Inv(View()) && View() == Dequeue(old(View()), c, w)
    {
      DequeueKeepsInv(View(), c, w);
      var q := if w.kind.PullRequest? || w.kind.PushRequest? then RequestWindow else DataWindow;
      var queue := if (c, q) in connectionQueues then connectionQueues[(c, q)] else [];
      Shrink(c, q, Erase(queue, w));
    }

    /** Sends the head of a queue if the gates let it through. */
    method AttemptQueue(c: Conn, q: WindowType, g: Gates) returns (sent: Option<WorkId>)
      requires Connected(View(), c) && Queue(View(), c, q) != []
      modifies this, inter, intra
      ensures Ready(old(View()), g, c, q) ==>
                && sent == Some(Queue(old(View()), c, q)[0])
                && View() == Remaining(old(View()), c, q, Queue(old(View()), c, q)[1..])
      ensures !Ready(old(View()), g, c, q) ==> sent == None && View() == old(View())
    {
      var queue := connectionQueues[(c, q)];
      var work := queue[0];
      if g.opRate(c) {
        if g.admits(c, work) {
          EraseHead(queue);
          Shrink(c, q, Erase(queue, work));
          return Some(work);
        }
      }
      return None;
    }

    /** The next queue of the rotation, or None after a full round; `s` is the state
        when the pass began, `j` is how many were tried since. */
    method PickQueue(c: Conn, starting: Option<WindowType>, ghost s: State, ghost j: nat)
      returns (candidate: Option<WindowType>, started: Option<WindowType>)
      requires c in s.intra && s.intra[c].active != [] && NoDuplicates(s.intra[c].active)
      requires j <= |s.intra[c].active| && intra.policyState == TurnedQueues(s, c, j)
      requires starting == if j == 0 then None else Some(s.intra[c].active[0])
      modifies intra
      ensures if j < |s.intra[c].active| then
                && candidate == Some(s.intra[c].active[j]) && started == Some(s.intra[c].active[0])
                && intra.policyState == TurnedQueues(s, c, j + 1)
              else
                candidate == None && intra.policyState == s.intra[c := Rotate(s.intra[c])]
    {
      SelectQueueTurns(s, c, j);
      candidate := intra.SelectQueue(c);
      started := starting;
      if starting != None && candidate == starting {
        candidate := None;
      } else if starting == None {
        started := candidate;
      }
    }

    /** One pass over the queues of a connection: sends the head of the first whose
        head may be sent, or turns the list around once and one further. */
    method TryQueues(c: Conn, g: Gates) returns (sent: Option<WorkId>)
      requires PassCanStart(View(), c)
      modifies this, inter, intra
      ensures sent == None <==> !HasReadyQueue(old(View()), g, c)
      ensures sent == None ==> View() == AfterVainPass(old(View()), c)
      ensures sent != None ==>
                var s, j := old(View()), FirstQueue(old(View()), g, c, 0);
                && sent == Some(Queue(s, c, ActiveQueues(s, c)[j])[0])
                && View() == AfterGoodPass(s, c, j)
    {
      ghost var s := View();
      NoSelectionYet(s, c);
      ghost var queues := s.intra[c].active;
      ghost var j := 0;
      var startingQueueType: Option<WindowType> := None;
      while true
        invariant j <= |queues|
        invariant View() == s.(intra := TurnedQueues(s, c, j))
        invariant startingQueueType == if j == 0 then None else Some(queues[0])
        invariant forall i :: 0 <= i < j ==> !Ready(s, g, c, queues[i])
        decreases |queues| - j
      {
        var candidate;
        candidate, startingQueueType := PickQueue(c, startingQueueType, s, j);
        if candidate == None {
          return None;
        }
        SelectionOnlyTurns(s, c, j, g);
        sent := AttemptQueue(c, candidate.value, g);
        if sent != None {
          return;
        }
        j := j + 1;
      }
    }

    /** The next connection of the rotation, or None after a full round; `s` is the
        state when the turn began, `i` is how many were tried since. */
    method PickConnection(starting: Option<Conn>, ghost s: State, ghost i: nat)
      returns (candidate: Option<Conn>, started: Option<Conn>)
      requires NoDuplicates(s.inter.active) && s.inter.active != [] && i <= |s.inter.active|
      requires View() == Passed(s, i)
      requires starting == if i == 0 then None else Some(s.inter.active[0])
      modifies inter
      ensures if i < |s.inter.active| then
                candidate == Some(s.inter.active[i]) && started == Some(s.inter.active[0]) && View() == Selected(s, i)
              else
                candidate == None && View() == AfterRound(s)
    {
      SelectConnectionTurns(s, i);
      candidate := inter.SelectConnection();
      started := starting;
      if starting == None {
        started := candidate;
      } else if candidate == starting {
        candidate := None;
      }
    }

    /** Picks the next connection and tries its queues. */
    method TryNextConnection(starting: Option<Conn>, g: Gates, ghost s: State, ghost i: nat)
      returns (done: bool, sent: Option<(Conn, WorkId)>, started: Option<Conn>)
      requires TurnCanStart(s) && s.inter.active != [] && i <= |s.inter.active|
      requires View() == Passed(s, i) && VainSoFar(s, g, i)
      requires starting == if i == 0 then None else Some(s.inter.active[0])
      modifies this, inter, intra
      ensures done ==> sent == Sends(s, g) && View() == Turn(s, g)
      ensures !done ==>
                && i < |s.inter.active| && started == Some(s.inter.active[0])
                && View() == Passed(s, i + 1) && VainSoFar(s, g, i + 1)
    {
      var candidate;
      candidate, started := PickConnection(starting, s, i);
      if candidate == None {
        VainRoundEndsTurn(s, g);
        return true, None, started;
      }
      CandidateIsUntouched(s, g, i);
      var packet := TryQueues(candidate.value, g);
      if packet != None {
        GoodPassEndsTurn(s, g, i);
        return true, Some((candidate.value, packet.value)), started;
      }
      NextPassed(s, i);
      return false, None, started;
    }

    /** The loop over the connections, up to the first that can send. */
    method TryConnections(g: Gates) returns (sent: Option<(Conn, WorkId)>)
      requires TurnCanStart(View()) && inter.activeConnections != []
      modifies this, inter, intra
      ensures sent == Sends(old(View()), g) && View() == Turn(old(View()), g)
    {
      ghost var s := View();
      ghost var i := 0;
      PassedNone(s);
      var startingConnection: Option<Conn> := None;
      while true
        invariant i <= |s.inter.active| && View() == Passed(s, i)
        invariant startingConnection == if i == 0 then None else Some(s.inter.active[0])
        invariant VainSoFar(s, g, i)
        decreases |s.inter.active| - i
      {
        var done;
        done, sent, startingConnection := TryNextConnection(startingConnection, g, s, i);
        if done {
          return;
        }
        i := i + 1;
      }
    }

    /** One turn. It ends, sends what the specification says, and reports failure
        only if nothing at the head of any queue could be sent. */
    method ScheduleWork(g: Gates) returns (sent: Option<(Conn, WorkId)>)
      requires Inv(View()) && inter.activeConnections != []
      modifies this, inter, intra
      ensures Inv(View())
      ensures TurnCanStart(old(View())) && sent == Sends(old(View()), g) && View() == Turn(old(View()), g)
      ensures sent == None <==> forall c, q :: c in old(inter.isActive) ==> !Ready(old(View()), g, c, q)
    {
      TurnKeepsInv(View(), g);
      NothingSentIffNothingReady(View(), g);
      sent := TryConnections(g);
    }

    method HasWork(canSendPacket: bool) returns (b: bool)
      ensures b <==> canSendPacket && inter.activeConnections != []
    {
      b := canSendPacket && inter.activeConnections != [];
    }
  }
}
