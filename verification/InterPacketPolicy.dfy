/**
 The policies that pick the packet type to serve next: plain round robin, and
 weighted round robin, which hands out credits in proportion to the eligible
 packets of each type at the start of an arbitration round.

 `Inter` is the specification, `InterPacketTypePolicy` the object with the
 program's loops over the five packet types, proved to follow it.
 */
module InterPacketPolicy {
  import opened Lists
  import opened SchedulerQueues

  const AllTypes: seq<QueueType> := [RequestQ, UnorderedRequestQ, DataQ, GrantQ, PullDataQ]

  datatype Inter = Inter(weighted: bool, rot: Rotation<QueueType>, credits: map<QueueType, nat>, total: int)

  ghost predicate Known(i: Inter) {
    forall q: QueueType :: q in i.credits && q in i.rot.isActive
  }

  ghost predicate GoodCounts(counts: map<QueueType, int>) {
    forall q: QueueType :: q in counts && 0 <= counts[q]
  }

  /** One credit for every 64 eligible packets, rounded up. */
  function Credit(count: nat): nat {
    (count + 63) / 64
  }

  function MarkInactive(i: Inter, q: QueueType): Inter
    requires Known(i)
  {
    if !i.rot.isActive[q] then i
    else if i.weighted then
      i.(total := i.total - i.credits[q], credits := i.credits[q := 0], rot := Deactivate(i.rot, q))
    else
      i.(rot := Deactivate(i.rot, q))
  }

  function ComputeOne(i: Inter, counts: map<QueueType, int>, q: QueueType): (j: Inter)
    requires Known(i) && GoodCounts(counts)
    ensures Known(j)
  {
    var credit := Credit(counts[q]);
    if credit == 0 then
      MarkInactive(i.(credits := i.credits[q := 0]), q)
    else
      i.(credits := i.credits[q := credit], total := i.total + credit, rot := Activate(i.rot, q))
  }

  function ComputeFrom(i: Inter, counts: map<QueueType, int>, k: nat): Inter
    requires Known(i) && GoodCounts(counts) && k <= |AllTypes|
    decreases |AllTypes| - k
  {
    if k == |AllTypes| then i else ComputeFrom(ComputeOne(i, counts, AllTypes[k]), counts, k + 1)
  }

  /** Starts an arbitration round. */
  function Compute(i: Inter, counts: map<QueueType, int>): Inter
    requires Known(i) && GoodCounts(counts)
  {
    ComputeFrom(i.(total := 0), counts, 0)
  }

  function Select(i: Inter): (Option<QueueType>, Inter)
    requires Known(i)
  {
    if i.rot.active == [] || (i.weighted && i.total == 0) then
      (None, i)
    else
      var q := i.rot.active[0];
      if !i.weighted then
        (Some(q), i.(rot := Rotate(i.rot)))
      else if i.credits[q] > 0 then
        (Some(q), i.(total := i.total - 1, credits := i.credits[q := i.credits[q] - 1], rot := Rotate(i.rot)))
      else
        (None, i)
  }

  function MarkActive(i: Inter, q: QueueType, counts: map<QueueType, int>): Inter
    requires Known(i) && GoodCounts(counts)
  {
    if !i.weighted then i.(rot := Activate(i.rot, q))
    else if i.total == 0 then Compute(i, counts)
    else i
  }

  function DropSpentFrom(i: Inter, k: nat): (j: Inter)
    requires Known(i) && k <= |AllTypes|
    ensures Known(j)
    decreases |AllTypes| - k
  {
    if k == |AllTypes| then i
    else if i.credits[AllTypes[k]] == 0 then DropSpentFrom(MarkInactive(i, AllTypes[k]), k + 1)
    else DropSpentFrom(i, k + 1)
  }

  /** After a turn: types without credits leave the list, and a new round begins
      once everything is spent or everything was blocked. */
  function Update(i: Inter, blocked: bool, counts: map<QueueType, int>): Inter
    requires Known(i) && GoodCounts(counts)
  {
    if !i.weighted then i
    else
      var j := DropSpentFrom(i, 0);
      if blocked || j.total == 0 then Compute(j, counts) else j
  }

  function HasWork(i: Inter): bool {
    if i.weighted then i.total > 0 else i.rot.active != []
  }

  // ---------- Invariants ----------

  ghost function SumTo(credits: map<QueueType, nat>, k: nat): int
    requires k <= |AllTypes| && forall q: QueueType :: q in credits
  {
    if k == 0 then 0 else SumTo(credits, k - 1) + credits[AllTypes[k - 1]]
  }

  ghost function Sum(credits: map<QueueType, nat>): int
    requires forall q: QueueType :: q in credits
  {
    SumTo(credits, |AllTypes|)
  }

  lemma EveryTypeIsListed(q: QueueType) returns (k: nat)
    ensures k < |AllTypes| && AllTypes[k] == q
  {
    k := match q case RequestQ => 0 case UnorderedRequestQ => 1 case DataQ => 2 case GrantQ => 3 case PullDataQ => 4;
  }

  lemma {:induction false} SumUpdate(credits: map<QueueType, nat>, m: nat, v: nat, k: nat)
    requires k <= |AllTypes| && m < |AllTypes| && forall q: QueueType :: q in credits
    ensures SumTo(credits[AllTypes[m] := v], k) == SumTo(credits, k) + if m < k then v - credits[AllTypes[m]] else 0
  {
    if k > 0 {
      SumUpdate(credits, m, v, k - 1);
      assert m != k - 1 ==> AllTypes[m] != AllTypes[k - 1];
    }
  }

  lemma {:induction false} ZeroSum(credits: map<QueueType, nat>, k: nat)
    requires k <= |AllTypes| && forall q: QueueType :: q in credits && credits[q] == 0
    ensures SumTo(credits, k) == 0
  {
    if k > 0 {
      ZeroSum(credits, k - 1);
    }
  }

  lemma {:induction false} SumIsPositive(credits: map<QueueType, nat>, k: nat)
    requires k <= |AllTypes| && forall q: QueueType :: q in credits
    ensures SumTo(credits, k) >= 0
    ensures forall m :: 0 <= m < k ==> credits[AllTypes[m]] <= SumTo(credits, k)
  {
    if k > 0 {
      SumIsPositive(credits, k - 1);
    }
  }

  /** Within a turn: the total is the sum of the credits, no type holds more
      credits than it has eligible packets, and inactive types hold none. */
  ghost predicate Books(i: Inter, counts: map<QueueType, int>) {
    && Known(i) && GoodCounts(counts) && Agrees(i.rot)
    && i.total == Sum(i.credits)
    && (forall q: QueueType :: i.credits[q] <= counts[q])
    && (forall q: QueueType :: !i.rot.isActive[q] ==> i.credits[q] == 0)
  }

  /** Between turns also: active types hold credits, and the round is over only
      if no type has eligible packets. */
  ghost predicate Settled(i: Inter, counts: map<QueueType, int>) {
    && Books(i, counts)
    && (forall q: QueueType :: i.rot.isActive[q] ==> i.credits[q] > 0)
    && (i.total == 0 ==> forall q: QueueType :: counts[q] == 0)
  }

  /** A credit stands for up to 64 eligible packets, and none is given for nothing. */
  lemma CreditsCoverPackets(count: nat)
    ensures 64 * (Credit(count) - 1) < count <= 64 * Credit(count)
  {
  }

  lemma CreditIsBacked(count: nat)
    ensures Credit(count) <= count && (Credit(count) == 0 <==> count == 0)
  {
  }

  lemma ComputeOneSpec(i: Inter, counts: map<QueueType, int>, q: QueueType)
    requires Known(i) && GoodCounts(counts) && Agrees(i.rot) && i.weighted
    ensures var j := ComputeOne(i, counts, q);
            && Agrees(j.rot) && j.weighted
            && j.total == i.total + Credit(counts[q])
            && j.credits[q] == Credit(counts[q])
            && (j.rot.isActive[q] <==> counts[q] > 0)
            && forall p :: p != q ==> j.credits[p] == i.credits[p] && j.rot.isActive[p] == i.rot.isActive[p]
  {
    hide Agrees;
    CreditIsBacked(counts[q]);
    if Credit(counts[q]) == 0 {
      MarkInactiveSpec(i.(credits := i.credits[q := 0]), q);
    } else {
      ActivateAgrees(i.rot, q);
    }
  }

  /** Type `q` has its share of a new round. */
  ghost predicate Dealt(i: Inter, counts: map<QueueType, int>, q: QueueType)
    requires Known(i) && GoodCounts(counts)
  {
    i.credits[q] == Credit(counts[q]) && (i.rot.isActive[q] <==> counts[q] > 0)
  }

  lemma DealsOneMore(i: Inter, counts: map<QueueType, int>, k: nat)
    requires Known(i) && GoodCounts(counts) && Agrees(i.rot) && i.weighted && k < |AllTypes|
    requires i.total == SumTo(i.credits, k)
    requires forall m :: 0 <= m < k ==> Dealt(i, counts, AllTypes[m])
    ensures var j := ComputeOne(i, counts, AllTypes[k]);
            && Agrees(j.rot) && j.weighted && j.total == SumTo(j.credits, k + 1)
            && forall m :: 0 <= m < k + 1 ==> Dealt(j, counts, AllTypes[m])
  {
    hide Agrees;
    var q := AllTypes[k];
    ComputeOneSpec(i, counts, q);
    var j := ComputeOne(i, counts, q);
    SumUpdate(i.credits, k, j.credits[q], k);
    assert j.credits == i.credits[q := j.credits[q]];
  }

  lemma {:induction false} ComputeFromDeals(i: Inter, counts: map<QueueType, int>, k: nat)
    requires Known(i) && GoodCounts(counts) && Agrees(i.rot) && i.weighted && k <= |AllTypes|
    requires i.total == SumTo(i.credits, k)
    requires forall m :: 0 <= m < k ==> Dealt(i, counts, AllTypes[m])
    ensures var j := ComputeFrom(i, counts, k);
            && Known(j) && Agrees(j.rot) && j.weighted && j.total == Sum(j.credits)
            && forall m :: 0 <= m < |AllTypes| ==> Dealt(j, counts, AllTypes[m])
    decreases |AllTypes| - k
  {
    hide Agrees, Dealt, SumTo;
    if k < |AllTypes| {
      DealsOneMore(i, counts, k);
      ComputeFromDeals(ComputeOne(i, counts, AllTypes[k]), counts, k + 1);
    }
  }

  /** A new round: every type gets its share, and exactly the types with
      eligible packets are active. */
  lemma ComputeSettles(i: Inter, counts: map<QueueType, int>)
    requires Known(i) && GoodCounts(counts) && Agrees(i.rot) && i.weighted
    ensures var j := Compute(i, counts);
            && Settled(j, counts) && j.weighted
            && forall q: QueueType :: j.credits[q] == Credit(counts[q]) && (j.rot.isActive[q] <==> counts[q] > 0)
  {
    ComputeFromDeals(i.(total := 0), counts, 0);
    var j := Compute(i, counts);
    SumIsPositive(j.credits, |AllTypes|);
    forall q: QueueType
      ensures Dealt(j, counts, q) && j.credits[q] <= counts[q] && j.credits[q] <= j.total
      ensures j.credits[q] == 0 <==> counts[q] == 0
    {
      var m := EveryTypeIsListed(q);
      CreditIsBacked(counts[q]);
    }
  }

  lemma MarkInactiveSpec(i: Inter, q: QueueType)
    requires Known(i) && Agrees(i.rot) && i.weighted
    ensures var j := MarkInactive(i, q);
            && Known(j) && Agrees(j.rot) && j.weighted && !j.rot.isActive[q]
            && (forall p :: p != q ==> j.rot.isActive[p] == i.rot.isActive[p] && j.credits[p] == i.credits[p])
            && (if i.rot.isActive[q] then j.credits == i.credits[q := 0] && j.total == i.total - i.credits[q]
                else j == i)
  {
    if i.rot.isActive[q] {
      DeactivateAgrees(i.rot, q);
    }
  }

  /** Taking a type's credits off the total. */
  lemma ForfeitKeepsTotal(credits: map<QueueType, nat>, q: QueueType)
    requires forall p: QueueType :: p in credits
    ensures Sum(credits[q := 0]) == Sum(credits) - credits[q]
  {
    var m := EveryTypeIsListed(q);
    SumUpdate(credits, m, 0, |AllTypes|);
  }

  lemma ForfeitKeepsBooks(i: Inter, q: QueueType, counts: map<QueueType, int>, j: Inter)
    requires Books(i, counts) && Known(j) && Agrees(j.rot)
    requires j.credits == i.credits[q := 0] && j.total == i.total - i.credits[q]
    requires forall p :: p != q ==> j.rot.isActive[p] == i.rot.isActive[p]
    ensures Books(j, counts)
  {
    hide Agrees, Sum;
    ForfeitKeepsTotal(i.credits, q);
  }

  lemma MarkInactiveKeepsBooks(i: Inter, q: QueueType, counts: map<QueueType, int>)
    requires Books(i, counts) && i.weighted
    ensures Books(MarkInactive(i, q), counts) && MarkInactive(i, q).weighted
  {
    MarkInactiveSpec(i, q);
    if i.rot.isActive[q] {
      ForfeitKeepsBooks(i, q, counts, MarkInactive(i, q));
    }
  }

  /** A type that goes inactive forfeits its credits, from the total as well, and no
      other type is touched. */
  lemma MarkInactiveForfeits(i: Inter, q: QueueType, counts: map<QueueType, int>)
    requires Books(i, counts) && i.weighted
    ensures var j := MarkInactive(i, q);
            && !j.rot.isActive[q] && j.credits[q] == 0 && j.total == i.total - i.credits[q]
            && forall p :: p != q ==> j.rot.isActive[p] == i.rot.isActive[p] && j.credits[p] == i.credits[p]
  {
    MarkInactiveSpec(i, q);
  }

  /** The first `k` types hold credits if they are active. */
  ghost predicate FundedTo(i: Inter, k: nat)
    requires Known(i) && k <= |AllTypes|
  {
    forall m :: 0 <= m < k ==> i.rot.isActive[AllTypes[m]] ==> i.credits[AllTypes[m]] > 0
  }

  lemma {:induction false} DropSpentKeepsBooks(i: Inter, counts: map<QueueType, int>, k: nat)
    requires Books(i, counts) && i.weighted && k <= |AllTypes|
    ensures Books(DropSpentFrom(i, k), counts) && DropSpentFrom(i, k).weighted
    decreases |AllTypes| - k
  {
    hide Agrees;
    if k < |AllTypes| {
      var q := AllTypes[k];
      if i.credits[q] == 0 {
        MarkInactiveKeepsBooks(i, q, counts);
        DropSpentKeepsBooks(MarkInactive(i, q), counts, k + 1);
      } else {
        DropSpentKeepsBooks(i, counts, k + 1);
      }
    }
  }

  lemma {:induction false} DropSpentLeavesFunded(i: Inter, k: nat)
    requires Known(i) && Agrees(i.rot) && i.weighted && k <= |AllTypes| && FundedTo(i, k)
    ensures FundedTo(DropSpentFrom(i, k), |AllTypes|)
    decreases |AllTypes| - k
  {
    hide Agrees;
    if k < |AllTypes| {
      var q := AllTypes[k];
      if i.credits[q] == 0 {
        MarkInactiveSpec(i, q);
        DropSpentLeavesFunded(MarkInactive(i, q), k + 1);
      } else {
        DropSpentLeavesFunded(i, k + 1);
      }
    }
  }

  /** Dropping spent types moves them off the list and touches no credit. */
  lemma {:induction false} DropSpentSpec(i: Inter, k: nat)
    requires Known(i) && Agrees(i.rot) && i.weighted && k <= |AllTypes|
    ensures var j := DropSpentFrom(i, k);
            && Agrees(j.rot) && j.weighted && j.credits == i.credits && j.total == i.total
            && forall m :: 0 <= m < |AllTypes| ==>
                 (j.rot.isActive[AllTypes[m]] <==>
                    i.rot.isActive[AllTypes[m]] && (k <= m ==> i.credits[AllTypes[m]] > 0))
    decreases |AllTypes| - k
  {
    hide Agrees;
    if k < |AllTypes| {
      var q := AllTypes[k];
      if i.credits[q] == 0 {
        MarkInactiveSpec(i, q);
        assert i.credits[q := 0] == i.credits;
        assert forall m :: 0 <= m < |AllTypes| && m != k ==> AllTypes[m] != q;
        DropSpentSpec(MarkInactive(i, q), k + 1);
      } else {
        DropSpentSpec(i, k + 1);
      }
    }
  }

  /** The credits and activities of a new round. */
  ghost predicate Redealt(i: Inter, counts: map<QueueType, int>) {
    && Known(i) && GoodCounts(counts)
    && forall q: QueueType :: i.credits[q] == Credit(counts[q]) && (i.rot.isActive[q] <==> counts[q] > 0)
  }

  lemma UpdateSettles(i: Inter, blocked: bool, counts: map<QueueType, int>)
    requires Books(i, counts) && i.weighted
    ensures Settled(Update(i, blocked, counts), counts) && Update(i, blocked, counts).weighted
    ensures blocked ==> forall q: QueueType :: counts[q] > 0 ==> q in Update(i, blocked, counts).rot.active
  {
    var j := DropSpentFrom(i, 0);
    DropSpentKeepsBooks(i, counts, 0);
    DropSpentLeavesFunded(i, 0);
    forall q: QueueType | j.rot.isActive[q] ensures j.credits[q] > 0 {
      var m := EveryTypeIsListed(q);
    }
    if j.total == 0 {
      SumIsPositive(j.credits, |AllTypes|);
    }
    if blocked || j.total == 0 {
      ComputeSettles(j, counts);
    }
  }

  /** A new round begins exactly when the turn was blocked or everything is spent;
      otherwise the round goes on with the same credits, and just the spent types
      leave the list. */
  lemma UpdateRedealsIff(i: Inter, blocked: bool, counts: map<QueueType, int>)
    requires Books(i, counts) && i.weighted
    ensures blocked || i.total == 0 ==> Redealt(Update(i, blocked, counts), counts)
    ensures !blocked && i.total != 0 ==>
              var j := Update(i, blocked, counts);
              && j.credits == i.credits && j.total == i.total
              && forall q: QueueType :: j.rot.isActive[q] <==> i.rot.isActive[q] && i.credits[q] > 0
  {
    DropSpentSpec(i, 0);
    var j := DropSpentFrom(i, 0);
    if blocked || j.total == 0 {
      ComputeSettles(j, counts);
    } else {
      forall q: QueueType ensures j.rot.isActive[q] <==> i.rot.isActive[q] && i.credits[q] > 0 {
        var m := EveryTypeIsListed(q);
      }
    }
  }

  /** Activation starts a round exactly when no credits are left, and otherwise
      changes nothing. */
  lemma MarkActiveSettles(i: Inter, q: QueueType, before: map<QueueType, int>, counts: map<QueueType, int>)
    requires Settled(i, before) && i.weighted && GoodCounts(counts)
    requires forall p: QueueType :: before[p] <= counts[p]
    ensures Settled(MarkActive(i, q, counts), counts) && MarkActive(i, q, counts).weighted
    ensures if i.total == 0 then Redealt(MarkActive(i, q, counts), counts) else MarkActive(i, q, counts) == i
  {
    if i.total == 0 {
      ComputeSettles(i, counts);
    }
  }

  /** Spending one credit of a type. */
  lemma SpendKeepsBooks(i: Inter, q: QueueType, counts: map<QueueType, int>, j: Inter)
    requires Books(i, counts) && Known(j) && Agrees(j.rot) && i.credits[q] > 0
    requires j.credits == i.credits[q := i.credits[q] - 1] && j.total == i.total - 1
    requires j.rot.isActive == i.rot.isActive
    ensures Books(j, counts) && j.credits[q] < counts[q]
  {
    var m := EveryTypeIsListed(q);
    SumUpdate(i.credits, m, i.credits[q] - 1, |AllTypes|);
  }

  /** A selection is made while credits are left, at the front of the list, and spends
      one credit of the type it finds there. */
  lemma SelectSpendsOneCredit(i: Inter, counts: map<QueueType, int>)
    requires Settled(i, counts) && i.weighted
    ensures Select(i).0 == None <==> forall q: QueueType :: counts[q] == 0
    ensures var (q, j) := Select(i);
            match q
            case None => j == i
            case Some(p) =>
              && i.credits[p] > 0 && j.rot == Rotate(i.rot) && j.rot.active[|j.rot.active| - 1] == p
              && j.total == i.total - 1 && j.credits == i.credits[p := i.credits[p] - 1]
  {
    if i.total == 0 {
      assert Select(i).0 == None;
    } else {
      if forall q: QueueType :: !i.rot.isActive[q] {
        ZeroSum(i.credits, |AllTypes|);
      }
      var p: QueueType :| i.rot.isActive[p];
      assert p in i.rot.active && i.rot.isActive[i.rot.active[0]];
      assert i.credits[p] <= counts[p];
    }
  }

  lemma SelectKeepsBooks(i: Inter, counts: map<QueueType, int>)
    requires Books(i, counts) && i.weighted
    ensures var (q, j) := Select(i);
            && Books(j, counts) && j.weighted
            && (q.Some? ==> q.value in i.rot.active && j.credits[q.value] < counts[q.value])
  {
    hide Agrees;
    if Select(i).0.Some? {
      RotateAgrees(i.rot);
      SpendKeepsBooks(i, i.rot.active[0], counts, Select(i).1);
    }
  }

  /** Counting one packet of type `q` out keeps the books while `q` has a credit
      to spare. */
  lemma DepartureKeepsBooks(i: Inter, counts: map<QueueType, int>, q: QueueType, after: map<QueueType, int>)
    requires Books(i, counts) && i.credits[q] < counts[q]
    requires GoodCounts(after) && forall p: QueueType :: p == q || counts[p] <= after[p]
    requires after[q] == counts[q] - 1
    ensures Books(i, after)
  {
  }

  // ---------- The object ----------

  function NewPolicy(weighted: bool): Inter {
    Inter(weighted,
          Rotation(map[RequestQ := false, UnorderedRequestQ := false, DataQ := false, GrantQ := false, PullDataQ := false],
                   [], if weighted then [] else AllTypes),
          map[RequestQ := 0, UnorderedRequestQ := 0, DataQ := 0, GrantQ := 0, PullDataQ := 0], 0)
  }

  lemma NothingIsKnown(q: QueueType)
    ensures q in NewPolicy(true).rot.isActive && !NewPolicy(true).rot.isActive[q]
    ensures q in NewPolicy(true).credits && NewPolicy(true).credits[q] == 0
    ensures q in NoPackets && NoPackets[q] == 0 && q in AllTypes
  {
    var m := EveryTypeIsListed(q);
    assert q.RequestQ? || q.UnorderedRequestQ? || q.DataQ? || q.GrantQ? || q.PullDataQ?;
  }

  lemma NewListsAgree(weighted: bool)
    ensures Agrees(NewPolicy(weighted).rot) && (!weighted ==> Complete(NewPolicy(weighted).rot))
  {
    forall q: QueueType ensures q in AllTypes && q in NewPolicy(true).rot.isActive && !NewPolicy(true).rot.isActive[q] {
      NothingIsKnown(q);
    }
  }

  lemma NewPolicySpec(weighted: bool)
    ensures var i := NewPolicy(weighted);
            && Agrees(i.rot) && Known(i)
            && (weighted ==> Settled(i, NoPackets))
            && (!weighted ==> Complete(i.rot))
  {
    hide Agrees, Complete;
    NewListsAgree(weighted);
    var i := NewPolicy(weighted);
    forall q: QueueType
      ensures q in i.rot.isActive && !i.rot.isActive[q] && q in i.credits && i.credits[q] == 0
      ensures q in NoPackets && NoPackets[q] == 0
    {
      NothingIsKnown(q);
    }
    ZeroSum(i.credits, |AllTypes|);
  }

  class InterPacketTypePolicy {
    const weighted: bool
    var isActive: map<QueueType, bool>
    var availableCredits: map<QueueType, nat>
    var totalAvailableCredits: int
    var activeQueues: seq<QueueType>
    var inactiveQueues: seq<QueueType>

    ghost function View(): Inter
      reads this
    {
      Inter(weighted, Rotation(isActive, activeQueues, inactiveQueues), availableCredits, totalAvailableCredits)
    }

    constructor (weighted: bool)
      ensures this.weighted == weighted && View() == NewPolicy(weighted)
      ensures View().rot.active == [] && Agrees(View().rot) && Known(View())
      ensures weighted ==> Settled(View(), NoPackets)
      ensures !weighted ==> Complete(View().rot) && View().rot.inactive == AllTypes
    {
      this.weighted := weighted;
      isActive := map[RequestQ := false, UnorderedRequestQ := false, DataQ := false, GrantQ := false, PullDataQ := false];
      availableCredits := map[RequestQ := 0, UnorderedRequestQ := 0, DataQ := 0, GrantQ := 0, PullDataQ := 0];
      totalAvailableCredits := 0;
      activeQueues := [];
      inactiveQueues := if weighted then [] else AllTypes;
      new;
      NewPolicySpec(weighted);
      assert View() == NewPolicy(weighted);
    }

    method SelectPacketTypeBasedQueueType() returns (r: Option<QueueType>)
      requires Known(View())
      modifies this
      ensures (r, View()) == Select(old(View()))
    {
      if weighted && totalAvailableCredits == 0 {
        return None;
      } else if activeQueues == [] {
        return None;
      }
      var q := activeQueues[0];
      if weighted {
        if availableCredits[q] == 0 {
          return None;
        }
        totalAvailableCredits := totalAvailableCredits - 1;
        availableCredits := availableCredits[q := availableCredits[q] - 1];
      }
      activeQueues := activeQueues[1..] + [q];
      return Some(q);
    }

    method MarkPacketTypeBasedQueueTypeActive(q: QueueType, counts: map<QueueType, int>)
      requires Known(View()) && GoodCounts(counts)
      modifies this
      ensures View() == MarkActive(old(View()), q, counts)
    {
      if weighted {
        if totalAvailableCredits == 0 {
          ComputePerPacketCredits(counts);
        }
      } else {
        Activate(q);
      }
    }

    method Activate(q: QueueType)
      requires q in isActive
      modifies this`isActive, this`activeQueues, this`inactiveQueues
      ensures View() == old(View()).(rot := Lists.Activate(old(View()).rot, q))
    {
      if !isActive[q] {
        isActive := isActive[q := true];
        inactiveQueues := Remove(inactiveQueues, q);
        activeQueues := activeQueues + [q];
      }
    }

    method MarkPacketTypeBasedQueueTypeInactive(q: QueueType)
      requires Known(View())
      modifies this
      ensures View() == MarkInactive(old(View()), q)
    {
      if isActive[q] {
        if weighted {
          totalAvailableCredits := totalAvailableCredits - availableCredits[q];
          availableCredits := availableCredits[q := 0];
        }
        isActive := isActive[q := false];
        activeQueues := Remove(activeQueues, q);
        inactiveQueues := inactiveQueues + [q];
      }
    }

    method ComputePerPacketCredits(counts: map<QueueType, int>)
      requires weighted && Known(View()) && GoodCounts(counts)
      modifies this
      ensures View() == Compute(old(View()), counts)
    {
      totalAvailableCredits := 0;
      for k := 0 to |AllTypes|
        invariant Known(View())
        invariant ComputeFrom(View(), counts, k) == Compute(old(View()), counts)
      {
        ComputeCreditsOf(AllTypes[k], counts);
      }
    }

    method ComputeCreditsOf(q: QueueType, counts: map<QueueType, int>)
      requires weighted && Known(View()) && GoodCounts(counts)
      modifies this
      ensures View() == ComputeOne(old(View()), counts, q)
    {
      var credits := Credit(counts[q]);
      if credits == 0 {
        availableCredits := availableCredits[q := 0];
        if isActive[q] {
          MarkPacketTypeBasedQueueTypeInactive(q);
        }
      } else {
        availableCredits := availableCredits[q := credits];
        totalAvailableCredits := totalAvailableCredits + credits;
        Activate(q);
      }
    }

    method UpdatePolicyState(blocked: bool, counts: map<QueueType, int>)
      requires Known(View()) && GoodCounts(counts)
      modifies this
      ensures View() == Update(old(View()), blocked, counts)
    {
      if !weighted {
        return;
      }
      for k := 0 to |AllTypes|
        invariant Known(View())
        invariant DropSpentFrom(View(), k) == DropSpentFrom(old(View()), 0)
      {
        if availableCredits[AllTypes[k]] == 0 {
          MarkPacketTypeBasedQueueTypeInactive(AllTypes[k]);
        }
      }
      if blocked || totalAvailableCredits == 0 {
        ComputePerPacketCredits(counts);
      }
    }
  }
}
