/** The packet bitmaps of the sliding windows. */
module FalconBitmap {

  function Count(bits: seq<bool>): nat {
    if bits == [] then 0 else Count(bits[..|bits| - 1]) + (if bits[|bits| - 1] then 1 else 0)
  }

  lemma {:induction false} CountSplits(bits: seq<bool>, k: nat)
    requires k <= |bits|
    ensures Count(bits) == Count(bits[..k]) + Count(bits[k..])
  {
    if k == |bits| {
      assert bits[..k] == bits && bits[k..] == [];
    } else {
      var init := bits[..|bits| - 1];
      CountSplits(init, k);
      assert init[..k] == bits[..k];
      assert bits[k..][..|bits[k..]| - 1] == init[k..];
    }
  }

  lemma {:induction false} AllOrSomeUnset(bits: seq<bool>)
    ensures Count(bits) <= |bits|
    ensures Count(bits) == |bits| <==> forall i :: 0 <= i < |bits| ==> bits[i]
    ensures Count(bits) == 0 <==> forall i :: 0 <= i < |bits| ==> !bits[i]
  {
    if bits != [] {
      AllOrSomeUnset(bits[..|bits| - 1]);
      assert forall i :: 0 <= i < |bits| - 1 ==> bits[i] == bits[..|bits| - 1][i];
    }
  }

  /** A packet is missing although a later one has arrived. */
  ghost predicate Hole(bits: seq<bool>, i: nat) {
    i < |bits| && !bits[i] && exists j :: i < j < |bits| && bits[j]
  }

  class Bitmap {
    var bits: seq<bool>

    constructor (size: nat)
      ensures |bits| == size && forall i :: 0 <= i < size ==> !bits[i]
    {
      bits := seq(size, i => false);
    }

    method Set(index: nat, value: bool)
      requires index < |bits|
      modifies this
      ensures bits == old(bits)[index := value]
    {
      bits := bits[index := value];
    }

    /** Counting the set bits first, and looking no further than their number, finds
        the first hole if there is one. */
    method FirstHoleIndex() returns (index: int)
      ensures index == -1 <==> forall i: nat :: !Hole(bits, i)
      ensures index != -1 ==> 0 <= index && Hole(bits, index) && forall i :: 0 <= i < index ==> bits[i]
    {
      var n := Count(bits);
      AllOrSomeUnset(bits);
      index := 0;
      while index < n
        invariant 0 <= index <= n <= |bits|
        invariant forall i :: 0 <= i < index ==> bits[i]
      {
        if !bits[index] {
          break;
        }
        index := index + 1;
      }
      if index == n {
        NoneBeyond(bits);
        return -1;
      }
      SomeBeyond(bits, index);
    }
  }

  /** When as many bits lead as are set at all, no other bit is set. */
  lemma NoneBeyond(bits: seq<bool>)
    requires Count(bits) <= |bits| && forall i :: 0 <= i < Count(bits) ==> bits[i]
    ensures forall j :: Count(bits) <= j < |bits| ==> !bits[j]
  {
    var n := Count(bits);
    CountSplits(bits, n);
    AllOrSomeUnset(bits[..n]);
    AllOrSomeUnset(bits[n..]);
    assert forall j :: n <= j < |bits| ==> bits[j] == bits[n..][j - n];
  }

  lemma SomeBeyond(bits: seq<bool>, i: nat)
    requires i < Count(bits) <= |bits| && !bits[i]
    ensures Hole(bits, i) || exists j :: 0 <= j < i && !bits[j]
  {
    var n := Count(bits);
    CountSplits(bits, n);
    AllOrSomeUnset(bits[..n]);
    AllOrSomeUnset(bits[n..]);
    assert !bits[..n][i];
    var j :| 0 <= j < |bits[n..]| && bits[n..][j];
    assert bits[n + j];
  }
}
