/**
 Packet sequence numbers are 32 bits wide and are compared by their distance, as
 in section 3.2 of RFC 1982. This order is total only between numbers less than
 half the number space apart; on those it is the order of the unwrapped numbers.
 */
module SerialNumbers {

  const MODULUS := 0x1_0000_0000
  const HALF := 0x8000_0000

  type Uint32 = n: nat | n < MODULUS

  /** Subtraction that wraps around. */
  function Minus(a: Uint32, b: Uint32): Uint32 {
    if b <= a then a - b else a + MODULUS - b
  }

  /** The cast to a signed word. */
  function AsInt32(n: Uint32): int {
    if n < HALF then n else n - MODULUS
  }

  predicate SeqLT(a: Uint32, b: Uint32) { AsInt32(Minus(a, b)) < 0 }
  predicate SeqLEQ(a: Uint32, b: Uint32) { AsInt32(Minus(a, b)) <= 0 }
  predicate SeqGT(a: Uint32, b: Uint32) { AsInt32(Minus(a, b)) > 0 }
  predicate SeqGEQ(a: Uint32, b: Uint32) { AsInt32(Minus(a, b)) >= 0 }

  /** Exactly one of the three orderings holds, and `SeqGT` is the converse of
      `SeqLT`, just when the two are not half the number space apart. There, each
      is below the other. */
  lemma TrichotomyIff(a: Uint32, b: Uint32)
    ensures Minus(a, b) != HALF <==>
              (SeqLT(a, b) && a != b && !SeqLT(b, a)) || (!SeqLT(a, b) && a == b && !SeqLT(b, a))
              || (!SeqLT(a, b) && a != b && SeqLT(b, a))
    ensures Minus(a, b) != HALF <==> (SeqGT(a, b) <==> SeqLT(b, a))
    ensures Minus(a, b) == HALF ==> SeqLT(a, b) && SeqLT(b, a) && !SeqGT(a, b) && !SeqGT(b, a)
    ensures SeqLEQ(a, b) <==> SeqLT(a, b) || a == b
    ensures SeqGEQ(a, b) <==> !SeqLT(a, b)
  {
  }

  lemma WrappedDistance(x: nat, y: nat)
    requires y <= x < y + MODULUS
    ensures Minus(x % MODULUS, y % MODULUS) == x - y
  {
    var qx, qy := x / MODULUS, y / MODULUS;
    assert x == qx * MODULUS + x % MODULUS && y == qy * MODULUS + y % MODULUS;
    assert qx == qy || qx == qy + 1;
  }

  /** Between numbers at most half the space apart, the comparison of the wrapped
      numbers is right except where the first is ahead by exactly that half. */
  lemma ComparesUnwrappedIff(x: nat, y: nat)
    requires -HALF <= x - y <= HALF
    ensures (SeqLT(x % MODULUS, y % MODULUS) <==> x < y) <==> x - y != HALF
  {
    if y <= x {
      WrappedDistance(x, y);
    } else {
      WrappedDistance(y, x);
    }
  }

  /** Without a bound on the span the comparison is no order at all. */
  lemma NotTransitive()
    ensures SeqLT(0, 0x6000_0000) && SeqLT(0x6000_0000, 0xC000_0000) && SeqLT(0xC000_0000, 0)
  {
  }

  predicate InWindow(base: Uint32, a: Uint32) {
    Minus(a, base) < HALF
  }

  /** Within a window of half the space, order is order of distance from its start;
      hence a strict total order. */
  lemma WindowOrder(base: Uint32, a: Uint32, b: Uint32)
    requires InWindow(base, a) && InWindow(base, b)
    ensures SeqLT(a, b) <==> Minus(a, base) < Minus(b, base)
    ensures a == b <==> Minus(a, base) == Minus(b, base)
  {
  }

  // ---------- The ordered sets of retransmission work ----------

  datatype Kind = PullRequest | PushRequest | PullData | PushGrant | PushSolicitedData | PushUnsolicitedData
  datatype WorkId = WorkId(rsn: nat, psn: Uint32, kind: Kind)

  /** An ordered set, as the sequence of its elements in iteration order. */
  type WorkSet = seq<WorkId>

  /** The first element not before the given number. */
  function LowerBound(s: WorkSet, psn: Uint32): (k: nat)
    ensures k <= |s|
    ensures forall i :: 0 <= i < k ==> SeqLT(s[i].psn, psn)
    ensures k < |s| ==> !SeqLT(s[k].psn, psn)
  {
    if s == [] || !SeqLT(s[0].psn, psn) then 0 else 1 + LowerBound(s[1..], psn)
  }

  /** Whether the element at the lower bound is equivalent to the sought one. */
  predicate Has(s: WorkSet, psn: Uint32) {
    var k := LowerBound(s, psn);
    k < |s| && !SeqLT(psn, s[k].psn)
  }

  function Insert(s: WorkSet, w: WorkId): WorkSet {
    var k := LowerBound(s, w.psn);
    if Has(s, w.psn) then s else s[..k] + [w] + s[k..]
  }

  function Erase(s: WorkSet, w: WorkId): WorkSet {
    var k := LowerBound(s, w.psn);
    if Has(s, w.psn) then s[..k] + s[k + 1..] else s
  }

  ghost predicate Ordered(s: WorkSet) {
    forall i, j :: 0 <= i < j < |s| ==> SeqLT(s[i].psn, s[j].psn)
  }

  ghost predicate Spans(base: Uint32, s: WorkSet) {
    forall i :: 0 <= i < |s| ==> InWindow(base, s[i].psn)
  }

  /** All numbers, the new one included, lie within half the number space. */
  ghost predicate Fits(s: WorkSet, psn: Uint32) {
    exists base: Uint32 :: Spans(base, s) && InWindow(base, psn)
  }

  lemma HasSpec(s: WorkSet, psn: Uint32)
    requires Ordered(s) && Fits(s, psn)
    ensures Has(s, psn) <==> exists i :: 0 <= i < |s| && s[i].psn == psn
    ensures Has(s, psn) ==> s[LowerBound(s, psn)].psn == psn
  {
    var base: Uint32 :| Spans(base, s) && InWindow(base, psn);
    var k := LowerBound(s, psn);
    forall i | 0 <= i < |s| ensures SeqLT(s[i].psn, psn) <==> Minus(s[i].psn, base) < Minus(psn, base) {
      WindowOrder(base, s[i].psn, psn);
    }
    if i :| 0 <= i < |s| && s[i].psn == psn {
      assert k <= i && !SeqLT(s[k].psn, s[i].psn);
    }
  }

  lemma RestFollows(s: WorkSet, psn: Uint32, i: nat)
    requires Ordered(s) && Fits(s, psn) && !Has(s, psn) && LowerBound(s, psn) <= i < |s|
    ensures SeqLT(psn, s[i].psn)
  {
    var base: Uint32 :| Spans(base, s) && InWindow(base, psn);
    var k := LowerBound(s, psn);
    WindowOrder(base, psn, s[k].psn);
    WindowOrder(base, s[k].psn, s[i].psn);
    WindowOrder(base, psn, s[i].psn);
    assert i > k ==> SeqLT(s[k].psn, s[i].psn);
  }

  lemma WithKeepsOrder(s: WorkSet, k: nat, w: WorkId)
    requires Ordered(s) && k <= |s|
    requires forall i :: 0 <= i < k ==> SeqLT(s[i].psn, w.psn)
    requires forall i :: k <= i < |s| ==> SeqLT(w.psn, s[i].psn)
    ensures Ordered(s[..k] + [w] + s[k..])
  {
  }

  lemma WithElements(s: WorkSet, k: nat, w: WorkId)
    requires k <= |s|
    ensures multiset(s[..k] + [w] + s[k..]) == multiset(s) + multiset{w}
  {
    assert s == s[..k] + s[k..];
  }

  /** Insertion fails just when the packet is queued already, and keeps order. */
  lemma InsertSpec(s: WorkSet, w: WorkId)
    requires Ordered(s) && Fits(s, w.psn)
    ensures Ordered(Insert(s, w))
    ensures Insert(s, w) == s <==> exists i :: 0 <= i < |s| && s[i].psn == w.psn
    ensures Insert(s, w) != s ==> multiset(Insert(s, w)) == multiset(s) + multiset{w}
  {
    HasSpec(s, w.psn);
    var k := LowerBound(s, w.psn);
    if !Has(s, w.psn) {
      WithElements(s, k, w);
      forall i | k <= i < |s| ensures SeqLT(w.psn, s[i].psn) {
        RestFollows(s, w.psn, i);
      }
      WithKeepsOrder(s, k, w);
      assert |Insert(s, w)| == |s| + 1;
    }
  }

  lemma DistinctNumbers(s: WorkSet, psn: Uint32, i: nat, j: nat)
    requires Ordered(s) && Fits(s, psn) && i < |s| && j < |s| && i != j
    ensures s[i].psn != s[j].psn
  {
    var base: Uint32 :| Spans(base, s) && InWindow(base, psn);
    WindowOrder(base, s[i].psn, s[j].psn);
    WindowOrder(base, s[j].psn, s[i].psn);
  }

  lemma WithoutKeepsOrder(s: WorkSet, k: nat)
    requires Ordered(s) && k < |s|
    ensures Ordered(s[..k] + s[k + 1..])
  {
  }

  lemma InWithout(s: WorkSet, k: nat, x: WorkId)
    requires k < |s|
    ensures x in s[..k] + s[k + 1..] <==> exists i :: 0 <= i < |s| && i != k && s[i] == x
  {
    var t := s[..k] + s[k + 1..];
    if i :| 0 <= i < |s| && i != k && s[i] == x {
      assert t[if i < k then i else i - 1] == x;
    }
  }

  /** Erasing removes the packet with the given number and no other. */
  lemma EraseSpec(s: WorkSet, w: WorkId, x: WorkId)
    requires Ordered(s) && Fits(s, w.psn)
    ensures Ordered(Erase(s, w))
    ensures x in Erase(s, w) <==> x in s && x.psn != w.psn
  {
    HasSpec(s, w.psn);
    var k := LowerBound(s, w.psn);
    if Has(s, w.psn) {
      WithoutKeepsOrder(s, k);
      InWithout(s, k, x);
      forall i: nat | i < |s| && i != k ensures s[i].psn != w.psn {
        DistinctNumbers(s, w.psn, i, k);
      }
    }
  }

  /** The head is found by its own number, and erasing it leaves the rest. */
  lemma EraseHead(s: WorkSet)
    requires s != []
    ensures Erase(s, s[0]) == s[1..]
  {
  }

  lemma OrderedTail(s: WorkSet)
    requires Ordered(s) && s != []
    ensures Ordered(s[1..])
  {
  }

  /** The packet number that a wrapped number stands for, given the oldest number
      that can still be outstanding. */
  function Unwrap(oldest: nat, psn: Uint32): nat {
    oldest + Minus(psn, oldest % MODULUS)
  }

  /** Even when the numbers wrap around, iteration order is the order of the
      unwrapped numbers; so the head of a queue is its oldest packet. */
  lemma IterationIsOldestFirst(oldest: nat, s: WorkSet, i: nat, j: nat)
    requires Ordered(s) && Spans(oldest % MODULUS, s) && i < j < |s|
    ensures Unwrap(oldest, s[i].psn) < Unwrap(oldest, s[j].psn)
    ensures Unwrap(oldest, s[i].psn) % MODULUS == s[i].psn
  {
    var base: Uint32 := oldest % MODULUS;
    assert InWindow(base, s[i].psn) && InWindow(base, s[j].psn);
    WindowOrder(base, s[i].psn, s[j].psn);
    assert oldest == (oldest / MODULUS) * MODULUS + base;
    var a := s[i].psn;
    if base <= a {
      assert Unwrap(oldest, a) == (oldest / MODULUS) * MODULUS + a;
    } else {
      assert Unwrap(oldest, a) == (oldest / MODULUS + 1) * MODULUS + a;
    }
  }
}
