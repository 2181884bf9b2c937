/**
 Ingress buffer accounting of the switch's memory management unit with priority
 flow control (PFC). Every received packet is charged to the minimal guarantee,
 the shared pool and the headroom of its (port, priority) slot, and carries a tag
 that has to undo the charge when the packet is dequeued.

 When a packet is split between guarantee and pool, the program writes the full
 guarantee into the occupancy before it computes the tag's guarantee part, so the
 tag records zero for it and the release check later fails. `AsWritten` is that
 program, `AsIntended` subtracts the old occupancy. The theorems hold for both,
 and say for the program as written exactly which packets break them.
 */
module SwitchBuffer {
  import opened Lists

  datatype Slot = Slot(port: nat, priority: nat)

  datatype Rule = AsWritten | AsIntended

  /** Where a packet's cells are charged. */
  datatype Tag = Tag(slot: Slot, size: nat, guarantee: nat, shared: nat, headroom: nat)

  datatype Part = Size | Guarantee | Shared | Headroom

  datatype Config = Config(poolSize: nat, guarantee: Slot -> nat, headroom: Slot -> nat, alpha: Slot -> real)

  datatype State = State(
    free: int,
    occupancy: map<Slot, int>,
    guaranteeOccupancy: map<Slot, int>,
    headroomOccupancy: map<Slot, int>,
    triggered: set<Slot>,
    live: seq<Tag>)

  function Initial(cfg: Config): State {
    State(cfg.poolSize, map[], map[], map[], {}, [])
  }

  /** Counters start at zero. */
  function At(m: map<Slot, int>, k: Slot): int {
    if k in m then m[k] else 0
  }

  function Add(m: map<Slot, int>, k: Slot, n: int): map<Slot, int> {
    m[k := At(m, k) + n]
  }

  function DynamicLimit(cfg: Config, s: State, k: Slot): real {
    s.free as real * cfg.alpha(k) + cfg.guarantee(k) as real
  }

  /** PFC starts for a slot over its limit, or when the pool cannot take the packet. */
  function Trigger(cfg: Config, s: State, k: Slot, size: nat): State {
    if k !in s.triggered && (At(s.occupancy, k) as real >= DynamicLimit(cfg, s, k) || s.free < size) then
      s.(triggered := s.triggered + {k})
    else s
  }

  /** Cells left in the slot's guarantee. */
  function Room(cfg: Config, s: State, k: Slot): nat {
    if At(s.guaranteeOccupancy, k) <= cfg.guarantee(k) then cfg.guarantee(k) - At(s.guaranteeOccupancy, k) else 0
  }

  /** The packet does not fit into what is left of the guarantee. */
  predicate Splits(cfg: Config, s: State, k: Slot, size: nat) {
    k !in Trigger(cfg, s, k, size).triggered && Overflows(cfg, s, k, size)
  }

  predicate Overflows(cfg: Config, s: State, k: Slot, size: nat) {
    && At(s.occupancy, k) < cfg.guarantee(k)
    && cfg.guarantee(k) < At(s.guaranteeOccupancy, k) + size
  }

  /** The tag the packet gets will record every cell it is charged for: the
      program as written forgets the guarantee's share of a split packet. */
  predicate Accounted(cfg: Config, rule: Rule, s: State, k: Slot, size: nat) {
    rule == AsIntended || !Splits(cfg, s, k, size) || Room(cfg, s, k) == 0
  }

  /** Charges a received packet; None is a drop. */
  function Receive(cfg: Config, rule: Rule, s: State, k: Slot, size: nat): (State, Option<Tag>) {
    Place(cfg, rule, Trigger(cfg, s, k, size), k, size)
  }

  function Place(cfg: Config, rule: Rule, t: State, k: Slot, size: nat): (State, Option<Tag>) {
    if k in t.triggered then
      if cfg.headroom(k) < At(t.headroomOccupancy, k) + size then
        (t, None)
      else
        Charge(t.(headroomOccupancy := Add(t.headroomOccupancy, k, size)), Tag(k, size, 0, 0, size))
    else if At(t.occupancy, k) >= cfg.guarantee(k) then
      Charge(t.(free := t.free - size), Tag(k, size, 0, size, 0))
    else if At(t.guaranteeOccupancy, k) + size <= cfg.guarantee(k) then
      Charge(t.(guaranteeOccupancy := Add(t.guaranteeOccupancy, k, size)), Tag(k, size, size, 0, 0))
    else
      var pool := At(t.guaranteeOccupancy, k) + size - cfg.guarantee(k);
      Charge(t.(guaranteeOccupancy := t.guaranteeOccupancy[k := cfg.guarantee(k)], free := t.free - pool),
             Tag(k, size, if rule == AsIntended then Room(cfg, t, k) else 0, pool, 0))
  }

  function Charge(s: State, tag: Tag): (State, Option<Tag>) {
    (s.(occupancy := Add(s.occupancy, tag.slot, tag.size), live := s.live + [tag]), Some(tag))
  }

  /** The checks made when a packet's charge is released. */
  predicate CanRelease(s: State, tag: Tag) {
    && tag.size == tag.guarantee + tag.shared + tag.headroom
    && tag.guarantee <= At(s.guaranteeOccupancy, tag.slot)
    && tag.headroom <= At(s.headroomOccupancy, tag.slot)
    && tag.size <= At(s.occupancy, tag.slot)
  }

  function Without(tags: seq<Tag>, i: nat): seq<Tag>
    requires i < |tags|
  {
    tags[..i] + tags[i + 1..]
  }

  /** Takes back the charge of the `i`-th live packet. */
  function Refund(s: State, i: nat): State
    requires i < |s.live|
  {
    var tag := s.live[i];
    s.(guaranteeOccupancy := Add(s.guaranteeOccupancy, tag.slot, 0 - tag.guarantee),
       headroomOccupancy := Add(s.headroomOccupancy, tag.slot, 0 - tag.headroom),
       free := s.free + tag.shared,
       occupancy := Add(s.occupancy, tag.slot, 0 - tag.size),
       live := Without(s.live, i))
  }

  /** Releases a packet and ends PFC for a slot that is back under its limit. */
  function Release(cfg: Config, s: State, i: nat): State
    requires i < |s.live|
  {
    var t := Refund(s, i);
    var k := s.live[i].slot;
    if k in t.triggered && At(t.occupancy, k) as real < DynamicLimit(cfg, t, k) then
      t.(triggered := t.triggered - {k})
    else t
  }

  // ---------- Conservation ----------

  function PartOf(tag: Tag, part: Part): nat {
    match part case Size => tag.size case Guarantee => tag.guarantee case Shared => tag.shared case Headroom => tag.headroom
  }

  /** Cells of one kind that live packets hold in a slot. */
  ghost function Held(tags: seq<Tag>, k: Slot, part: Part): nat {
    if tags == [] then 0
    else
      Held(tags[..|tags| - 1], k, part)
      + if tags[|tags| - 1].slot == k then PartOf(tags[|tags| - 1], part) else 0
  }

  /** Shared cells that live packets hold over all slots. */
  ghost function HeldShared(tags: seq<Tag>): nat {
    if tags == [] then 0 else HeldShared(tags[..|tags| - 1]) + tags[|tags| - 1].shared
  }

  /** The pool and every slot's counters are the sums over live packets, and no
      limit is exceeded. */
  ghost predicate Inv(cfg: Config, s: State) {
    && 0 <= s.free
    && s.free + HeldShared(s.live) == cfg.poolSize
    && (forall k :: SlotInv(cfg, s, k))
    && (forall i :: 0 <= i < |s.live| ==> Covers(s.live[i]))
  }

  ghost predicate SlotInv(cfg: Config, s: State, k: Slot) {
    && At(s.occupancy, k) == Held(s.live, k, Size)
    && At(s.guaranteeOccupancy, k) == Held(s.live, k, Guarantee) <= cfg.guarantee(k)
    && At(s.headroomOccupancy, k) == Held(s.live, k, Headroom) <= cfg.headroom(k)
  }

  /** The tag accounts for all cells of its packet. */
  ghost predicate Covers(tag: Tag) {
    tag.size == tag.guarantee + tag.shared + tag.headroom
  }

  lemma HeldAppend(tags: seq<Tag>, tag: Tag, k: Slot, part: Part)
    ensures Held(tags + [tag], k, part) == Held(tags, k, part) + if tag.slot == k then PartOf(tag, part) else 0
    ensures HeldShared(tags + [tag]) == HeldShared(tags) + tag.shared
  {
    assert (tags + [tag])[..|tags|] == tags;
  }

  lemma {:induction false} HeldWithout(tags: seq<Tag>, i: nat, k: Slot, part: Part)
    requires i < |tags|
    ensures Held(tags, k, part) == Held(Without(tags, i), k, part) + if tags[i].slot == k then PartOf(tags[i], part) else 0
    ensures HeldShared(tags) == HeldShared(Without(tags, i)) + tags[i].shared
  {
    var init, last := tags[..|tags| - 1], tags[|tags| - 1];
    if i == |init| {
      assert Without(tags, i) == init;
    } else {
      HeldWithout(init, i, k, part);
      assert Without(tags, i) == Without(init, i) + [last];
      HeldAppend(Without(init, i), last, k, part);
    }
  }

  /** `t` is `s` after charging exactly what the tag says. */
  ghost predicate Charged(s: State, t: State, tag: Tag) {
    && t.free == s.free - tag.shared
    && t.live == s.live + [tag]
    && (forall j :: ChargedAt(s, t, tag, j))
  }

  ghost predicate ChargedAt(s: State, t: State, tag: Tag, j: Slot) {
    && At(t.occupancy, j) == At(s.occupancy, j) + (if j == tag.slot then tag.size else 0)
    && At(t.guaranteeOccupancy, j) == At(s.guaranteeOccupancy, j) + (if j == tag.slot then tag.guarantee else 0)
    && At(t.headroomOccupancy, j) == At(s.headroomOccupancy, j) + (if j == tag.slot then tag.headroom else 0)
  }

  lemma HeadroomCharges(s: State, k: Slot, size: nat)
    ensures var tag := Tag(k, size, 0, 0, size);
            Charged(s, Charge(s.(headroomOccupancy := Add(s.headroomOccupancy, k, size)), tag).0, tag)
  {
    var tag := Tag(k, size, 0, 0, size);
    var t := Charge(s.(headroomOccupancy := Add(s.headroomOccupancy, k, size)), tag).0;
    forall j ensures ChargedAt(s, t, tag, j) {
    }
  }

  lemma PoolCharges(s: State, k: Slot, size: nat)
    ensures var tag := Tag(k, size, 0, size, 0);
            Charged(s, Charge(s.(free := s.free - size), tag).0, tag)
  {
    var tag := Tag(k, size, 0, size, 0);
    var t := Charge(s.(free := s.free - size), tag).0;
    forall j ensures ChargedAt(s, t, tag, j) {
    }
  }

  lemma GuaranteeCharges(s: State, k: Slot, size: nat)
    ensures var tag := Tag(k, size, size, 0, 0);
            Charged(s, Charge(s.(guaranteeOccupancy := Add(s.guaranteeOccupancy, k, size)), tag).0, tag)
  {
    var tag := Tag(k, size, size, 0, 0);
    var t := Charge(s.(guaranteeOccupancy := Add(s.guaranteeOccupancy, k, size)), tag).0;
    forall j ensures ChargedAt(s, t, tag, j) {
    }
  }

  /** A packet split so that `room` cells fill the guarantee. */
  lemma SplitCharges(s: State, k: Slot, size: nat, room: nat, pool: nat)
    requires size == room + pool
    ensures var tag := Tag(k, size, room, pool, 0);
            var full := At(s.guaranteeOccupancy, k) + room;
            Charged(s, Charge(s.(guaranteeOccupancy := s.guaranteeOccupancy[k := full], free := s.free - pool), tag).0, tag)
  {
    var tag := Tag(k, size, room, pool, 0);
    var full := At(s.guaranteeOccupancy, k) + room;
    var t := Charge(s.(guaranteeOccupancy := s.guaranteeOccupancy[k := full], free := s.free - pool), tag).0;
    forall j ensures ChargedAt(s, t, tag, j) {
    }
  }

  lemma PlaceCharges(cfg: Config, rule: Rule, s: State, k: Slot, size: nat)
    requires SlotInv(cfg, s, k) && (k !in s.triggered ==> size <= s.free)
    requires rule == AsIntended || k in s.triggered || !Overflows(cfg, s, k, size) || Room(cfg, s, k) == 0
    ensures var (t, tag) := Place(cfg, rule, s, k, size);
            match tag
            case None => t == s
            case Some(x) =>
              && x.slot == k && Charged(s, t, x) && Covers(x) && (x.shared == 0 || x.shared <= s.free)
              && At(t.guaranteeOccupancy, k) <= cfg.guarantee(k) && At(t.headroomOccupancy, k) <= cfg.headroom(k)
  {
    hide Charged;
    HeadroomCharges(s, k, size);
    PoolCharges(s, k, size);
    GuaranteeCharges(s, k, size);
    var room := Room(cfg, s, k);
    if room <= size {
      SplitCharges(s, k, size, room, size - room);
    }
  }

  lemma TriggerOnlyTriggers(cfg: Config, s: State, k: Slot, size: nat)
    ensures var t := Trigger(cfg, s, k, size);
            t == s.(triggered := t.triggered) && (k !in t.triggered ==> size <= s.free)
  {
  }

  lemma ReceiveCharges(cfg: Config, rule: Rule, s: State, k: Slot, size: nat)
    requires SlotInv(cfg, s, k) && 0 <= s.free && Accounted(cfg, rule, s, k, size)
    ensures var (t, tag) := Receive(cfg, rule, s, k, size);
            match tag
            case None => t == s.(triggered := t.triggered)
            case Some(x) =>
              && x.slot == k && Charged(s, t, x) && Covers(x) && x.shared <= s.free
              && At(t.guaranteeOccupancy, k) <= cfg.guarantee(k) && At(t.headroomOccupancy, k) <= cfg.headroom(k)
  {
    TriggerOnlyTriggers(cfg, s, k, size);
    PlaceCharges(cfg, rule, Trigger(cfg, s, k, size), k, size);
  }

  lemma ChargeKeepsSlot(cfg: Config, s: State, t: State, tag: Tag, j: Slot)
    requires SlotInv(cfg, s, j) && Charged(s, t, tag)
    requires At(t.guaranteeOccupancy, tag.slot) <= cfg.guarantee(tag.slot)
    requires At(t.headroomOccupancy, tag.slot) <= cfg.headroom(tag.slot)
    ensures SlotInv(cfg, t, j)
  {
    assert ChargedAt(s, t, tag, j) && ChargedAt(s, t, tag, tag.slot);
    HeldAppend(s.live, tag, j, Size);
    HeldAppend(s.live, tag, j, Guarantee);
    HeldAppend(s.live, tag, j, Headroom);
  }

  /** A receipt keeps the books, unless the program as written splits the packet
      and puts cells into the guarantee that the tag forgets. The pool is never
      overdrawn. */
  lemma ReceiveKeepsInv(cfg: Config, rule: Rule, s: State, k: Slot, size: nat)
    requires Inv(cfg, s) && Accounted(cfg, rule, s, k, size)
    ensures Inv(cfg, Receive(cfg, rule, s, k, size).0)
  {
    var (t, tag) := Receive(cfg, rule, s, k, size);
    assert SlotInv(cfg, s, k);
    ReceiveCharges(cfg, rule, s, k, size);
    forall j ensures SlotInv(cfg, t, j) {
      assert SlotInv(cfg, s, j);
      if tag.Some? {
        ChargeKeepsSlot(cfg, s, t, tag.value, j);
      }
    }
    if tag.Some? {
      HeldAppend(s.live, tag.value, k, Shared);
    }
  }

  /** Exactly when a received packet's tag accounts for all of its cells, so that
      the check at its release passes. */
  lemma TagCoversIff(cfg: Config, rule: Rule, s: State, k: Slot, size: nat)
    requires Inv(cfg, s) && Receive(cfg, rule, s, k, size).1.Some?
    ensures Covers(Receive(cfg, rule, s, k, size).1.value) <==>
              Accounted(cfg, rule, s, k, size)
  {
    assert SlotInv(cfg, s, k);
  }

  /** A packet that the program as written accepts and then cannot release. */
  lemma SplitPacketCannotBeReleased() returns (cfg: Config, s: State)
    ensures Inv(cfg, s)
    ensures var r := Receive(cfg, AsWritten, s, Slot(0, 0), 3); r.1.Some? && !CanRelease(r.0, r.1.value)
    ensures var r := Receive(cfg, AsIntended, s, Slot(0, 0), 3); r.1.Some? && CanRelease(r.0, r.1.value)
  {
    cfg := Config(10, _ => 2, _ => 5, _ => 1.0);
    s := Initial(cfg);
    InitialInv(cfg);
  }

  lemma InitialInv(cfg: Config)
    ensures Inv(cfg, Initial(cfg))
  {
  }

  lemma {:induction false} LivePacketIsHeld(s: State, i: nat, k: Slot, part: Part)
    requires i < |s.live| && k == s.live[i].slot
    ensures PartOf(s.live[i], part) <= Held(s.live, k, part)
  {
    HeldWithout(s.live, i, k, part);
  }

  /** A release is the reverse of a charge, for every slot. */
  lemma ReleaseKeepsSlot(cfg: Config, s: State, i: nat, j: Slot)
    requires i < |s.live| && SlotInv(cfg, s, j)
    ensures SlotInv(cfg, Release(cfg, s, i), j)
  {
    HeldWithout(s.live, i, j, Size);
    HeldWithout(s.live, i, j, Guarantee);
    HeldWithout(s.live, i, j, Headroom);
  }

  /** No check at a release ever fails, and releasing keeps the books. */
  lemma ReleaseKeepsInv(cfg: Config, s: State, i: nat)
    requires Inv(cfg, s) && i < |s.live|
    ensures CanRelease(s, s.live[i]) && Inv(cfg, Release(cfg, s, i))
  {
    var tag := s.live[i];
    var t := Release(cfg, s, i);
    assert SlotInv(cfg, s, tag.slot);
    LivePacketIsHeld(s, i, tag.slot, Size);
    LivePacketIsHeld(s, i, tag.slot, Guarantee);
    LivePacketIsHeld(s, i, tag.slot, Headroom);
    forall j ensures SlotInv(cfg, t, j) {
      assert SlotInv(cfg, s, j);
      ReleaseKeepsSlot(cfg, s, i, j);
    }
    HeldWithout(s.live, i, tag.slot, Shared);
    forall j | 0 <= j < |t.live| ensures Covers(t.live[j]) {
      assert t.live[j] == s.live[if j < i then j else j + 1];
    }
  }

  /** Releasing a packet right after it was received restores every counter. */
  lemma ReleaseUndoesReceive(cfg: Config, rule: Rule, s: State, k: Slot, size: nat)
    requires Inv(cfg, s) && Accounted(cfg, rule, s, k, size) && Receive(cfg, rule, s, k, size).1.Some?
    ensures SameCounters(Release(cfg, Receive(cfg, rule, s, k, size).0, |s.live|), s)
  {
    assert SlotInv(cfg, s, k);
    ReceiveCharges(cfg, rule, s, k, size);
    var (t, tag) := Receive(cfg, rule, s, k, size);
    ReleaseUndoesCharge(cfg, s, t, tag.value);
  }

  ghost predicate SameCounters(t: State, s: State) {
    && t.free == s.free && t.live == s.live
    && forall j :: At(t.occupancy, j) == At(s.occupancy, j)
                   && At(t.guaranteeOccupancy, j) == At(s.guaranteeOccupancy, j)
                   && At(t.headroomOccupancy, j) == At(s.headroomOccupancy, j)
  }

  lemma ReleaseUndoesCharge(cfg: Config, s: State, t: State, tag: Tag)
    requires Charged(s, t, tag)
    ensures SameCounters(Release(cfg, t, |s.live|), s)
  {
    assert Without(s.live + [tag], |s.live|) == s.live;
    var u := Release(cfg, t, |s.live|);
    forall j
      ensures At(u.occupancy, j) == At(s.occupancy, j) && At(u.guaranteeOccupancy, j) == At(s.guaranteeOccupancy, j)
              && At(u.headroomOccupancy, j) == At(s.headroomOccupancy, j)
    {
      assert ChargedAt(s, t, tag, j);
    }
  }

  // ---------- When PFC starts and ends, and where packets go ----------

  /** A slot that holds `held` cells holds less than its share of `free` pool cells
      plus its guarantee. */
  ghost predicate Below(cfg: Config, k: Slot, held: int, free: int) {
    held as real < free as real * cfg.alpha(k) + cfg.guarantee(k) as real
  }

  /** The slot is not paused, is below its limit, and the pool can take the packet. */
  ghost predicate Flows(cfg: Config, s: State, k: Slot, size: nat) {
    k !in s.triggered && Below(cfg, k, At(s.occupancy, k), s.free) && size <= s.free
  }

  lemma TriggersIff(cfg: Config, s: State, k: Slot, size: nat)
    ensures Trigger(cfg, s, k, size) == if Flows(cfg, s, k, size) then s else s.(triggered := s.triggered + {k})
  {
    if k in s.triggered {
      assert s.triggered + {k} == s.triggered;
    }
  }

  /** A packet is charged to guarantee and pool exactly while its slot flows: first to
      what is left of the guarantee, if the slot is below it, then to the pool. */
  lemma FlowingPacketIsCharged(cfg: Config, rule: Rule, s: State, k: Slot, size: nat)
    requires Flows(cfg, s, k, size)
    ensures var (t, tag) := Receive(cfg, rule, s, k, size);
            var room := if At(s.occupancy, k) < cfg.guarantee(k)
                        then cfg.guarantee(k) - At(s.guaranteeOccupancy, k) else 0;
            var inside := if size < room then size else room;
            && tag.Some? && tag.value.slot == k && tag.value.size == size
            && tag.value.headroom == 0 && tag.value.shared == size - inside
            && t.triggered == s.triggered && t.free == s.free - (size - inside)
            && At(t.guaranteeOccupancy, k) == At(s.guaranteeOccupancy, k) + inside
            && t.headroomOccupancy == s.headroomOccupancy
            && At(t.occupancy, k) == At(s.occupancy, k) + size
  {
    hide Flows, Trigger;
    TriggersIff(cfg, s, k, size);
    assert k !in s.triggered by { FlowingIsNotPaused(cfg, s, k, size); }
  }

  lemma FlowingIsNotPaused(cfg: Config, s: State, k: Slot, size: nat)
    requires Flows(cfg, s, k, size)
    ensures k !in s.triggered
  {
  }

  /** Otherwise the slot is paused from then on, and the packet goes to the headroom, or
      is dropped exactly when the headroom lacks room for it. */
  lemma OtherPacketNeedsHeadroom(cfg: Config, rule: Rule, s: State, k: Slot, size: nat)
    requires !Flows(cfg, s, k, size)
    ensures var (t, tag) := Receive(cfg, rule, s, k, size);
            && t.triggered == s.triggered + {k}
            && t.free == s.free && t.guaranteeOccupancy == s.guaranteeOccupancy
            && if At(s.headroomOccupancy, k) + size <= cfg.headroom(k) then
                 && tag == Some(Tag(k, size, 0, 0, size))
                 && At(t.headroomOccupancy, k) == At(s.headroomOccupancy, k) + size
                 && At(t.occupancy, k) == At(s.occupancy, k) + size
               else
                 tag == None && t.headroomOccupancy == s.headroomOccupancy && t.occupancy == s.occupancy
  {
    hide Flows, Trigger;
    TriggersIff(cfg, s, k, size);
  }

  lemma RefundTakesBack(s: State, i: nat)
    requires i < |s.live|
    ensures var t := Refund(s, i);
            var tag := s.live[i];
            && t.triggered == s.triggered && t.free == s.free + tag.shared
            && At(t.occupancy, tag.slot) == At(s.occupancy, tag.slot) - tag.size
  {
  }

  lemma ReleaseResumesIff(cfg: Config, s: State, i: nat)
    requires i < |s.live|
    ensures var t := Refund(s, i);
            var k := s.live[i].slot;
            Release(cfg, s, i) ==
              if Below(cfg, k, At(t.occupancy, k), t.free) then t.(triggered := t.triggered - {k}) else t
  {
    var t := Refund(s, i);
    var k := s.live[i].slot;
    if k !in t.triggered {
      assert t.triggered - {k} == t.triggered;
    }
  }

  /** A packet that leaves ends PFC for its slot exactly when the slot is then below its
      limit, and for no other slot. */
  lemma ReleaseEndsPfcIff(cfg: Config, s: State, i: nat, j: Slot)
    requires i < |s.live|
    ensures var tag := s.live[i];
            && Release(cfg, s, i).free == s.free + tag.shared
            && (j in Release(cfg, s, i).triggered <==>
                  && j in s.triggered
                  && !(j == tag.slot && Below(cfg, j, At(s.occupancy, j) - tag.size, s.free + tag.shared)))
  {
    hide Below, Refund, Release;
    RefundTakesBack(s, i);
    ReleaseResumesIff(cfg, s, i);
  }

  // ---------- Runs ----------

  /** A packet arrives, or the `packet`-th live one is dequeued. Packets that
      routing deletes are never released and simply stay live. */
  datatype Step = Arrive(slot: Slot, size: nat) | Dequeue(packet: nat)

  ghost predicate Next(cfg: Config, rule: Rule, s: State, step: Step, t: State) {
    match step
    case Arrive(k, size) => t == Receive(cfg, rule, s, k, size).0
    case Dequeue(i) => i < |s.live| && t == Release(cfg, s, i)
  }

  ghost predicate IsRun(cfg: Config, rule: Rule, ss: seq<State>, steps: seq<Step>) {
    && |ss| == |steps| + 1
    && ss[0] == Initial(cfg)
    && forall i :: 0 <= i < |steps| ==> Next(cfg, rule, ss[i], steps[i], ss[i + 1])
  }

  /** Conservation over whole runs: with the intended tag always, and with the tag
      as written while no split packet is forgotten, the free cells and the shared
      cells of live packets make up the pool, and each slot's counters are the
      sums over its live packets and stay within their limits,
      so that every release check passes. */
  lemma {:induction false} RunsConserveCells(cfg: Config, rule: Rule, ss: seq<State>, steps: seq<Step>, n: nat)
    requires IsRun(cfg, rule, ss, steps) && n < |ss|
    requires forall i :: 0 <= i < n && steps[i].Arrive? ==> Accounted(cfg, rule, ss[i], steps[i].slot, steps[i].size)
    ensures Inv(cfg, ss[n])
    ensures forall i :: 0 <= i < |ss[n].live| ==> CanRelease(ss[n], ss[n].live[i])
  {
    if n == 0 {
      InitialInv(cfg);
    } else {
      RunsConserveCells(cfg, rule, ss, steps, n - 1);
      assert Next(cfg, rule, ss[n - 1], steps[n - 1], ss[n - 1 + 1]);
      match steps[n - 1]
      case Arrive(k, size) => ReceiveKeepsInv(cfg, rule, ss[n - 1], k, size);
      case Dequeue(i) => ReleaseKeepsInv(cfg, ss[n - 1], i);
    }
    forall i | 0 <= i < |ss[n].live| ensures CanRelease(ss[n], ss[n].live[i]) {
      ReleaseKeepsInv(cfg, ss[n], i);
    }
  }

  // ---------- The object ----------

  class MemoryManagementUnit {
    const config: Config
    const rule: Rule
    const supportPfc: bool
    var ingressPoolFreeCells: int
    var ingressOccupancy: map<Slot, int>
    var guaranteeOccupancy: map<Slot, int>
    var headroomOccupancy: map<Slot, int>
    var pfcSendingTriggered: set<Slot>
    // The packets charged and not yet released.
    ghost var live: seq<Tag>

    ghost function View(): State
      reads this
    {
      State(ingressPoolFreeCells, ingressOccupancy, guaranteeOccupancy, headroomOccupancy, pfcSendingTriggered, live)
    }

    constructor (config: Config, rule: Rule, supportPfc: bool)
      ensures this.config == config && this.rule == rule && this.supportPfc == supportPfc
      ensures View() == Initial(config)
    {
      this.config, this.rule, this.supportPfc := config, rule, supportPfc;
      ingressPoolFreeCells := config.poolSize;
      ingressOccupancy, guaranteeOccupancy, headroomOccupancy := map[], map[], map[];
      pfcSendingTriggered := {};
      live := [];
    }

    /** Charges a packet on arrival, or says to drop it. Without PFC nothing is
        checked or charged. */
    method ReceivedData(k: Slot, size: nat) returns (tag: Option<Tag>)
      modifies this
      ensures if supportPfc then (View(), tag) == Receive(config, rule, old(View()), k, size)
              else View() == old(View()) && tag == Some(Tag(k, size, 0, 0, 0))
    {
      if !supportPfc {
        return Some(Tag(k, size, 0, 0, 0));
      }
      CheckPfcTrigger(k, size);
      tag := PlacePacket(k, size);
    }

    method CheckPfcTrigger(k: Slot, size: nat)
      modifies this`pfcSendingTriggered
      ensures View() == Trigger(config, old(View()), k, size)
    {
      if k !in pfcSendingTriggered {
        var limit := ingressPoolFreeCells as real * config.alpha(k) + config.guarantee(k) as real;
        if At(ingressOccupancy, k) as real >= limit || ingressPoolFreeCells < size {
          pfcSendingTriggered := pfcSendingTriggered + {k};
        }
      }
    }

    method PlacePacket(k: Slot, size: nat) returns (tag: Option<Tag>)
      modifies this
      ensures (View(), tag) == Place(config, rule, old(View()), k, size)
    {
      var t := Tag(k, size, 0, 0, 0);
      if k !in pfcSendingTriggered {
        if At(ingressOccupancy, k) >= config.guarantee(k) {
          ingressPoolFreeCells := ingressPoolFreeCells - size;
          t := t.(shared := size);
        } else if At(guaranteeOccupancy, k) + size <= config.guarantee(k) {
          guaranteeOccupancy := Add(guaranteeOccupancy, k, size);
          t := t.(guarantee := size);
        } else {
          var pool := At(guaranteeOccupancy, k) + size - config.guarantee(k);
          if rule == AsIntended && At(guaranteeOccupancy, k) <= config.guarantee(k) {
            t := t.(guarantee := config.guarantee(k) - At(guaranteeOccupancy, k));
          }
          guaranteeOccupancy := guaranteeOccupancy[k := config.guarantee(k)];
          t := t.(shared := pool);
          ingressPoolFreeCells := ingressPoolFreeCells - pool;
        }
      } else {
        if config.headroom(k) < At(headroomOccupancy, k) + size {
          return None;
        }
        headroomOccupancy := Add(headroomOccupancy, k, size);
        t := t.(headroom := size);
      }
      ingressOccupancy := Add(ingressOccupancy, k, size);
      live := live + [t];
      return Some(t);
    }

    /** Undoes the charge of a dequeued packet and resumes the sender if the slot
        is below its limit again. */
    method DequeuedPacket(tag: Tag, ghost i: nat)
      requires supportPfc && i < |live| && live[i] == tag && CanRelease(View(), tag)
      modifies this
      ensures View() == Release(config, old(View()), i)
    {
      IngressAccountingRelease(tag, i);
      if tag.slot in pfcSendingTriggered {
        var limit := ingressPoolFreeCells as real * config.alpha(tag.slot) + config.guarantee(tag.slot) as real;
        if At(ingressOccupancy, tag.slot) as real < limit {
          pfcSendingTriggered := pfcSendingTriggered - {tag.slot};
        }
      }
    }

    method IngressAccountingRelease(tag: Tag, ghost i: nat)
      requires i < |live| && live[i] == tag && CanRelease(View(), tag)
      modifies this
      ensures View() == Refund(old(View()), i)
    {
      guaranteeOccupancy := Add(guaranteeOccupancy, tag.slot, 0 - tag.guarantee);
      headroomOccupancy := Add(headroomOccupancy, tag.slot, 0 - tag.headroom);
      ingressPoolFreeCells := ingressPoolFreeCells + tag.shared;
      ingressOccupancy := Add(ingressOccupancy, tag.slot, 0 - tag.size);
      live := Without(live, i);
    }
  }
}
