/**
 The routing table's binary trie over 128-bit addresses, held as linked nodes
 that `Insert` extends in place, against a linear scan over the inserted ranges.

 An address or a mask is two 64-bit words, most significant bit first, and the
 loops walk bit by bit through the high and then the low word.
 */
module Ipv6Trie {
  import opened Lists

  type Word = w: seq<bool> | |w| == 64 witness seq(64, _ => false)

  datatype Uint128 = Uint128(high: Word, low: Word)

  /** The mask's leading ones say how many bits of the address form the prefix. */
  datatype IPRange = IPRange(address: Uint128, mask: Uint128)

  type Prefix = seq<bool>

  function Bits(a: Uint128): (bits: seq<bool>)
    ensures |bits| == 128
  {
    a.high + a.low
  }

  function LeadingOnes(m: seq<bool>): (n: nat)
    ensures n <= |m|
    ensures forall k :: 0 <= k < n ==> m[k]
    ensures n < |m| ==> !m[n]
  {
    if m == [] || !m[0] then 0 else 1 + LeadingOnes(m[1..])
  }

  function PrefixOf(r: IPRange): Prefix {
    Bits(r.address)[..LeadingOnes(Bits(r.mask))]
  }

  /** Two words agree wherever the mask is set. */
  ghost predicate SameUnderMask(mask: seq<bool>, a: seq<bool>, b: seq<bool>)
    requires |a| == |b| == |mask|
  {
    forall k :: 0 <= k < |mask| && mask[k] ==> a[k] == b[k]
  }

  /** The mask is a run of ones and then a run of zeros. */
  ghost predicate Contiguous(mask: seq<bool>) {
    forall k :: LeadingOnes(mask) <= k < |mask| ==> !mask[k]
  }

  /** For a mask without holes the prefix matches an address exactly if the two agree
      wherever the mask is set; with holes, what lies behind the first one is not
      looked at. */
  lemma MatchesIffSameUnderMask(r: IPRange, a: Uint128)
    ensures SameUnderMask(Bits(r.mask), Bits(a), Bits(r.address)) ==> PrefixOf(r) <= Bits(a)
    ensures Contiguous(Bits(r.mask)) ==>
              (PrefixOf(r) <= Bits(a) <==> SameUnderMask(Bits(r.mask), Bits(a), Bits(r.address)))
  {
    var n := LeadingOnes(Bits(r.mask));
    if PrefixOf(r) <= Bits(a) {
      forall k | 0 <= k < n ensures Bits(a)[k] == Bits(r.address)[k] {
        assert PrefixOf(r)[k] == Bits(a)[k];
      }
    }
  }

  // ---------- The reference: a linear scan ----------

  /** Among the entries, oldest first, the longest prefix of the address. */
  function LinearScan<T>(entries: seq<(Prefix, T)>, address: seq<bool>): Option<(Prefix, T)> {
    if entries == [] then None
    else
      var best := LinearScan(entries[..|entries| - 1], address);
      var last := entries[|entries| - 1];
      if last.0 <= address && (best.None? || |best.value.0| < |last.0|) then Some(last) else best
  }

  /** The data stored for exactly this prefix. */
  function Lookup<T>(entries: seq<(Prefix, T)>, p: Prefix): Option<T> {
    if entries == [] then None
    else if entries[|entries| - 1].0 == p then Some(entries[|entries| - 1].1)
    else Lookup(entries[..|entries| - 1], p)
  }

  ghost predicate DistinctPrefixes<T>(entries: seq<(Prefix, T)>) {
    forall i, j :: 0 <= i < j < |entries| ==> entries[i].0 != entries[j].0
  }

  /** The scan finds an entry iff one matches, and then a longest one. */
  lemma {:induction false} LinearScanIsLongest<T>(entries: seq<(Prefix, T)>, address: seq<bool>)
    ensures LinearScan(entries, address).None? <==> forall e :: e in entries ==> !(e.0 <= address)
    ensures LinearScan(entries, address).Some? ==>
              && LinearScan(entries, address).value in entries
              && LinearScan(entries, address).value.0 <= address
              && forall e :: e in entries && e.0 <= address ==> |e.0| <= |LinearScan(entries, address).value.0|
  {
    if entries != [] {
      var init := entries[..|entries| - 1];
      LinearScanIsLongest(init, address);
      assert entries == init + [entries[|entries| - 1]];
    }
  }

  lemma {:induction false} LookupSpec<T>(entries: seq<(Prefix, T)>, p: Prefix)
    ensures Lookup(entries, p).None? <==> forall e :: e in entries ==> e.0 != p
    ensures Lookup(entries, p).Some? ==> (p, Lookup(entries, p).value) in entries
  {
    if entries != [] {
      var init := entries[..|entries| - 1];
      LookupSpec(init, p);
      assert entries == init + [entries[|entries| - 1]];
    }
  }

  /** The scan's answer is the data at the deepest stored prefix of the address. */
  lemma ScanIsDeepestLookup<T>(entries: seq<(Prefix, T)>, address: seq<bool>, depth: nat)
    requires DistinctPrefixes(entries) && depth <= |address|
    requires forall k :: depth < k <= |address| ==> Lookup(entries, address[..k]).None?
    requires Lookup(entries, address[..depth]).Some?
    ensures LinearScan(entries, address) == Some((address[..depth], Lookup(entries, address[..depth]).value))
  {
    LinearScanIsLongest(entries, address);
    LookupSpec(entries, address[..depth]);
    var found := LinearScan(entries, address);
    assert (address[..depth], Lookup(entries, address[..depth]).value) in entries;
    var p := found.value.0;
    assert p == address[..|p|];
    LookupSpec(entries, p);
    assert |p| == depth;
    var i :| 0 <= i < |entries| && entries[i] == found.value;
    var j :| 0 <= j < |entries| && entries[j] == (address[..depth], Lookup(entries, address[..depth]).value);
    assert i == j;
  }

  lemma TakeOfPrefix(p: Prefix, address: seq<bool>)
    ensures p <= address ==> |p| <= |address| && p == address[..|p|]
  {
  }

  lemma ScanFindsNothing<T>(entries: seq<(Prefix, T)>, address: seq<bool>)
    requires forall k :: 0 <= k <= |address| ==> Lookup(entries, address[..k]).None?
    ensures LinearScan(entries, address).None?
  {
    LinearScanIsLongest(entries, address);
    forall e | e in entries ensures !(e.0 <= address) {
      LookupSpec(entries, e.0);
      TakeOfPrefix(e.0, address);
    }
  }

  // ---------- The linked trie ----------

  class TrieNode<T> {
    ghost const path: Prefix
    var left: TrieNode?<T>
    var right: TrieNode?<T>
    var data: Option<T>

    constructor (ghost path: Prefix)
      ensures left == null && right == null && data == None && this.path == path
    {
      this.path := path;
      left, right, data := null, null, None;
    }
  }

  class IPTable<T> {
    const head: TrieNode<T>
    var size: nat
    // The inserted ranges, oldest first, and the node of each path.
    ghost var entries: seq<(Prefix, T)>
    ghost var nodes: map<Prefix, TrieNode<T>>

    /** The child in direction `b` of the node at `p`, by the ghost map. */
    ghost function ChildAt(p: Prefix, b: bool): TrieNode?<T>
      reads this`nodes
    {
      if p + [b] in nodes then nodes[p + [b]] else null
    }

    ghost predicate NodeOk(p: Prefix)
      reads this`nodes, this`entries, nodes.Values
    {
      p in nodes ==>
        && nodes[p].path == p && |p| <= 128
        && (|p| > 0 ==> p[..|p| - 1] in nodes)
        && nodes[p].left == ChildAt(p, false)
        && nodes[p].right == ChildAt(p, true)
        && nodes[p].data == Lookup(entries, p)
    }

    ghost predicate Valid()
      reads this, nodes.Values
    {
      && [] in nodes && nodes[[]] == head
      && (forall p :: NodeOk(p))
      && (forall e :: e in entries ==> e.0 in nodes)
      && DistinctPrefixes(entries)
      && size == |entries|
    }

    constructor ()
      ensures Valid() && entries == []
      ensures fresh(nodes.Values)
    {
      head := new TrieNode<T>([]);
      size, entries := 0, [];
      new;
      nodes := map[[] := head];
    }

    /** Stores data at a node that holds none. */
    method StoreHere(node: TrieNode<T>, ghost p: Prefix, value: T)
      requires Valid() && p in nodes && nodes[p] == node && node.data == None
      modifies this`size, this`entries, node`data
      ensures Valid() && nodes == old(nodes) && entries == old(entries) + [(p, value)]
    {
      assert NodeOk(p);
      LookupSpec(entries, p);
      node.data := Some(value);
      size := size + 1;
      entries := entries + [(p, value)];
      assert entries[..|entries| - 1] == old(entries);
      forall q ensures NodeOk(q) {
        assert old(NodeOk(q));
      }
    }

    /** Adds the missing child of a node on the way down the address. */
    method GrowChild(current: TrieNode<T>, goRight: bool, ghost p: Prefix) returns (child: TrieNode<T>)
      requires Valid() && |p| < 128
      requires p in nodes && nodes[p] == current && p + [goRight] !in nodes
      modifies this`nodes, current
      ensures Valid() && entries == old(entries)
      ensures fresh(child) && nodes == old(nodes)[p + [goRight] := child]
      ensures child.data == None
      ensures forall b :: p + [goRight] + [b] !in nodes
    {
      ghost var c := p + [goRight];
      child := new TrieNode<T>(c);
      assert NodeOk(p);
      assert Lookup(entries, c).None? by {
        LookupSpec(entries, c);
      }
      forall b ensures c + [b] !in nodes {
        assert NodeOk(c + [b]);
        assert (c + [b])[..|c + [b]| - 1] == c;
      }
      if goRight {
        current.right := child;
      } else {
        current.left := child;
      }
      nodes := nodes[c := child];
      assert c[..|c| - 1] == p;
      forall q ensures NodeOk(q) {
        assert old(NodeOk(q));
        assert q != p ==> forall b :: q + [b] != c by {
          assert forall b :: (q + [b])[..|q|] == q;
        }
      }
    }

    /** Below a missing node there are no nodes, so nothing is stored. */
    lemma NothingBelow(bits: seq<bool>, k: nat, n: nat)
      requires Valid() && k <= n <= |bits| && bits[..k] !in nodes
      ensures bits[..n] !in nodes && Lookup(entries, bits[..n]).None?
      decreases n - k
    {
      if k < n {
        assert NodeOk(bits[..k + 1]);
        assert bits[..k + 1][..k] == bits[..k];
        NothingBelow(bits, k + 1, n);
      }
      LookupSpec(entries, bits[..n]);
    }

    /** The node at depth `k` on the way down the address, and its children. */
    ghost predicate At(current: TrieNode?<T>, bits: seq<bool>, k: nat)
      reads this`nodes
    {
      k <= |bits| && bits[..k] in nodes && current == nodes[bits[..k]]
    }

    lemma StepDown(current: TrieNode<T>, bits: seq<bool>, k: nat)
      requires Valid() && k < |bits| && At(current, bits, k)
      ensures bits[..k + 1] == bits[..k] + [bits[k]]
      ensures current.data == Lookup(entries, bits[..k])
      ensures var child := if bits[k] then current.right else current.left;
              if child == null then bits[..k + 1] !in nodes else At(child, bits, k + 1)
    {
      assert NodeOk(bits[..k]);
      assert bits[..k + 1] == bits[..k] + [bits[k]];
    }

    /** The first loop of an insertion: down the existing nodes, until the mask's
        ones end or a node is missing. */
    method Descend(range: IPRange) returns (current: TrieNode<T>, found: bool, i: nat, count: nat, ghost k: nat)
      requires Valid()
      ensures k <= LeadingOnes(Bits(range.mask)) && At(current, Bits(range.address), k)
      ensures found ==> k == LeadingOnes(Bits(range.mask))
      ensures !found ==>
                && k < LeadingOnes(Bits(range.mask)) && count < 2
                && AtBit(range, k, i, count, WordAt(range.address, count), WordAt(range.mask, count))
                && Bits(range.address)[..k + 1] !in nodes
    {
      ghost var bits, ones := Bits(range.address), LeadingOnes(Bits(range.mask));
      k, i, count := 0, 0, 0;
      var addr, mask := range.address.high, range.mask.high;
      current := head;
      found := true;
      assert bits[..0] == [];
      while mask[i]
        invariant AtBit(range, k, i, count, addr, mask) && count < 2
        invariant k <= ones && At(current, bits, k)
        invariant found
        decreases 128 - k
      {
        NextBit(range, k, i, count, addr, mask);
        StepDown(current, bits, k);
        var next := if addr[i] then current.right else current.left;
        if next == null {
          found := false;
          break;
        }
        current := next;
        var more;
        i, count, addr, mask, more := NextPosition(range, i, count, addr, mask, k);
        k := k + 1;
        if !more {
          break;
        }
      }
    }

    /** Every node that was not there before is a new object. */
    twostate predicate OnlyNewNodes(before: map<Prefix, TrieNode<T>>)
      reads this
    {
      forall p :: p in nodes ==> (p in before && nodes[p] == before[p]) || fresh(nodes[p])
    }

    /** One new node on the way down the address. */
    method GrowNext(current: TrieNode<T>, goRight: bool, ghost bits: seq<bool>, ghost k: nat) returns (child: TrieNode<T>)
      requires Valid() && k < |bits| == 128 && goRight == bits[k]
      requires At(current, bits, k) && bits[..k + 1] !in nodes
      modifies this`nodes, current
      ensures Valid() && entries == old(entries)
      ensures At(child, bits, k + 1) && child.data.None? && fresh(child)
      ensures k + 1 < 128 ==> bits[..k + 2] !in nodes
      ensures nodes == old(nodes)[bits[..k + 1] := child]
    {
      assert bits[..k + 1] == bits[..k] + [goRight];
      child := GrowChild(current, goRight, bits[..k]);
      if k + 1 < 128 {
        ghost var b := bits[k + 1];
        assert bits[..k] + [goRight] + [b] !in nodes;
        assert bits[..k + 2] == bits[..k] + [goRight] + [b];
      }
    }

    /** Moves on by one bit, from the high word into the low one if need be. */
    method NextPosition(range: IPRange, i: nat, count: nat, addr: Word, mask: Word, ghost k: nat)
      returns (j: nat, nextCount: nat, nextAddr: Word, nextMask: Word, more: bool)
      requires AtBit(range, k, i, count, addr, mask) && count < 2 && mask[i] && k <= LeadingOnes(Bits(range.mask))
      ensures more ==> AtBit(range, k + 1, j, nextCount, nextAddr, nextMask) && nextCount < 2
      ensures more ==> k + 1 < 128 && k + 1 <= LeadingOnes(Bits(range.mask))
      ensures !more ==> k + 1 == 128 == LeadingOnes(Bits(range.mask))
    {
      NextBit(range, k, i, count, addr, mask);
      j, nextCount, nextAddr, nextMask, more := i + 1, count, addr, mask, true;
      if j == 64 {
        nextCount := count + 1;
        if nextCount == 2 {
          more := false;
          return;
        }
        j := 0;
        nextAddr, nextMask := range.address.low, range.mask.low;
      }
    }

    /** One round of the second loop: a new node, and on to the next bit. */
    method ExtendOnce(range: IPRange, current: TrieNode<T>, i: nat, count: nat, addr: Word, mask: Word, ghost k: nat)
      returns (child: TrieNode<T>, j: nat, nextCount: nat, nextAddr: Word, nextMask: Word, more: bool)
      requires Valid() && At(current, Bits(range.address), k) && count < 2
      requires AtBit(range, k, i, count, addr, mask) && mask[i] && k <= LeadingOnes(Bits(range.mask))
      requires k < 128 && Bits(range.address)[..k + 1] !in nodes
      modifies this`nodes, current
      ensures Valid() && entries == old(entries)
      ensures nodes == old(nodes)[Bits(range.address)[..k + 1] := child]
      ensures At(child, Bits(range.address), k + 1) && child.data.None? && fresh(child)
      ensures more ==> AtBit(range, k + 1, j, nextCount, nextAddr, nextMask) && nextCount < 2
      ensures more ==> k + 1 <= LeadingOnes(Bits(range.mask)) && k + 1 < 128 && Bits(range.address)[..k + 2] !in nodes
      ensures !more ==> k + 1 == 128 == LeadingOnes(Bits(range.mask))
    {
      NextBit(range, k, i, count, addr, mask);
      child := GrowNext(current, addr[i], Bits(range.address), k);
      j, nextCount, nextAddr, nextMask, more := NextPosition(range, i, count, addr, mask, k);
    }

    /** The second loop: new nodes for the rest of the mask's ones. */
    method Extend(range: IPRange, node: TrieNode<T>, i0: nat, count0: nat, ghost k0: nat)
      returns (current: TrieNode<T>)
      requires Valid() && k0 < LeadingOnes(Bits(range.mask)) && At(node, Bits(range.address), k0) && count0 < 2
      requires AtBit(range, k0, i0, count0, WordAt(range.address, count0), WordAt(range.mask, count0))
      requires Bits(range.address)[..k0 + 1] !in nodes
      modifies this`nodes, nodes.Values
      ensures Valid() && entries == old(entries) && OnlyNewNodes(old(nodes))
      ensures At(current, Bits(range.address), LeadingOnes(Bits(range.mask))) && current.data.None? && fresh(current)
    {
      hide NodeOk, DistinctPrefixes, Lookup, ChildAt, Bits, WordAt, LeadingOnes;
      ghost var bits, ones := Bits(range.address), LeadingOnes(Bits(range.mask));
      ghost var k := k0;
      var i: nat, count: nat := i0, count0;
      var addr, mask := WordAt(range.address, count0), WordAt(range.mask, count0);
      current := node;
      assert node in nodes.Values;
      while mask[i]
        invariant AtBit(range, k, i, count, addr, mask) && count < 2
        invariant k0 <= k <= ones && At(current, bits, k)
        invariant k < 128 && bits[..k + 1] !in nodes
        invariant if k == k0 then current == node else current.data.None? && fresh(current)
        invariant Valid() && entries == old(entries) && OnlyNewNodes(old(nodes))
        decreases 128 - k
      {
        var more;
        current, i, count, addr, mask, more := ExtendOnce(range, current, i, count, addr, mask, k);
        k := k + 1;
        if !more {
          break;
        }
      }
      assert k == ones;
    }

    /** Inserting a range stores its data, unless the same prefix is already
        there: then it fails and changes nothing. */
    method Insert(range: IPRange, value: T) returns (ok: bool)
      requires Valid()
      modifies this, nodes.Values
      ensures Valid() && fresh(nodes.Values - old(nodes.Values))
      ensures ok <==> forall e :: e in old(entries) ==> e.0 != PrefixOf(range)
      ensures entries == if ok then old(entries) + [(PrefixOf(range), value)] else old(entries)
      ensures !ok ==> nodes == old(nodes)
    {
      ghost var p := PrefixOf(range);
      var current, found, i, count, k := Descend(range);
      LookupSpec(entries, p);
      if found {
        assert NodeOk(p);
        if current.data.Some? {
          return false;
        }
      } else {
        NothingBelow(Bits(range.address), k + 1, LeadingOnes(Bits(range.mask)));
        current := Extend(range, current, i, count, k);
      }
      StoreHere(current, p, value);
      return true;
    }

    /** The longest stored prefix of the address, exactly as a linear scan over
        all inserted ranges finds it. */
    method FindLongest(address: Uint128) returns (r: Option<T>)
      requires Valid()
      ensures r == match LinearScan(entries, Bits(address)) case None => None case Some(e) => Some(e.1)
    {
      ghost var bits := Bits(address);
      ghost var k, depth := 0, 0;
      var i := 0;
      var addr := address.high;
      var current: TrieNode?<T> := head;
      r := None;
      assert bits[..0] == [];
      while current != null
        invariant k <= 129 && 0 <= i < 64
        invariant k <= 128 ==> i == k % 64 && addr == (if k < 64 then address.high else address.low)
        invariant if current != null then At(current, bits, k) else 0 < k && (k <= 128 ==> bits[..k] !in nodes)
        invariant r.Some? ==> depth < k && Lookup(entries, bits[..depth]) == r
        invariant forall j :: 0 <= j < k && (r.Some? ==> depth < j) ==> Lookup(entries, bits[..j]).None?
        decreases 129 - k
      {
        assert NodeOk(bits[..k]);
        if current.data.Some? {
          r := current.data;
          depth := k;
        }
        if k < 128 {
          StepDown(current, bits, k);
        } else {
          assert NodeOk(bits[..k] + [addr[i]]);
        }
        current := if addr[i] then current.right else current.left;
        k := k + 1;
        i := i + 1;
        if i == 64 {
          i := 0;
          addr := address.low;
        }
      }
      forall j | k <= j <= 128 ensures Lookup(entries, bits[..j]).None? {
        NothingBelow(bits, k, j);
      }
      if r.Some? {
        ScanIsDeepestLookup(entries, bits, depth);
      } else {
        ScanFindsNothing(entries, bits);
      }
    }

    method Empty() returns (b: bool)
      requires Valid()
      ensures b <==> entries == []
    {
      b := size == 0;
    }
  }

  function WordAt(a: Uint128, count: nat): Word {
    if count == 0 then a.high else a.low
  }

  /** Position of the walk: bit `i` of the high or the low word is bit `k` of the
      whole; behind the last bit `i` is 64. */
  ghost predicate AtBit(range: IPRange, k: nat, i: nat, count: nat, addr: Word, mask: Word) {
    && count <= 2
    && (if count < 2 then
          && i < 64 && k == 64 * count + i
          && addr == WordAt(range.address, count) && mask == WordAt(range.mask, count)
          && addr[i] == Bits(range.address)[k] && mask[i] == Bits(range.mask)[k]
        else k == 128)
  }

  /** One bit further, over the word boundary if need be. */
  lemma NextBit(range: IPRange, k: nat, i: nat, count: nat, addr: Word, mask: Word)
    requires AtBit(range, k, i, count, addr, mask) && count < 2
    ensures k < 128 && addr[i] == Bits(range.address)[k] && mask[i] == Bits(range.mask)[k]
    ensures i + 1 < 64 ==> AtBit(range, k + 1, i + 1, count, addr, mask)
    ensures i + 1 == 64 && count == 0 ==> AtBit(range, k + 1, 0, 1, range.address.low, range.mask.low)
    ensures i + 1 == 64 && count == 1 ==> k + 1 == 128
    ensures mask[i] && k <= LeadingOnes(Bits(range.mask)) ==> k < LeadingOnes(Bits(range.mask))
  {
  }
}
