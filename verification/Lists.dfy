/** Lists without duplicates, as the scheduling policies keep them. */
module Lists {

  datatype Option<+T> = None | Some(value: T)

  ghost predicate NoDuplicates<T>(s: seq<T>) {
    forall i, j :: 0 <= i < j < |s| ==> s[i] != s[j]
  }

  /** `std::list::remove`. */
  function Remove<T(==)>(s: seq<T>, x: T): seq<T> {
    if s == [] then []
    else if s[0] == x then Remove(s[1..], x)
    else [s[0]] + Remove(s[1..], x)
  }

  lemma AppendKeepsDistinct<T>(a: seq<T>, x: T)
    requires NoDuplicates(a) && x !in a
    ensures NoDuplicates(a + [x])
  {
  }

  lemma {:induction false} RemoveSpec<T>(s: seq<T>, x: T)
    ensures forall y :: y in Remove(s, x) <==> y in s && y != x
    ensures NoDuplicates(s) ==> NoDuplicates(Remove(s, x))
    ensures x !in s ==> Remove(s, x) == s
  {
    if s != [] {
      RemoveSpec(s[1..], x);
      assert s == [s[0]] + s[1..];
      if NoDuplicates(s) && s[0] != x {
        var r := Remove(s[1..], x);
        assert s[0] !in s[1..];
        assert Remove(s, x) == [s[0]] + r;
      }
    }
  }

  /** The list after its first `k` elements have gone to the back one by one. */
  function Turned<T>(s: seq<T>, k: nat): seq<T>
    requires k <= |s|
  {
    s[k..] + s[..k]
  }

  lemma TurnOnce<T>(s: seq<T>, k: nat)
    requires k < |s|
    ensures Turned(s, k) != [] && Turned(s, k)[0] == s[k]
    ensures Turned(s, k)[1..] + [Turned(s, k)[0]] == Turned(s, k + 1)
  {
  }

  lemma TurnedSpec<T>(s: seq<T>, k: nat)
    requires k <= |s|
    ensures |Turned(s, k)| == |s|
    ensures forall x :: x in Turned(s, k) <==> x in s
    ensures NoDuplicates(s) ==> NoDuplicates(Turned(s, k))
  {
    var t := Turned(s, k);
    forall x | x in s ensures x in t {
      var i :| 0 <= i < |s| && s[i] == x;
      assert t[if i < k then |s| - k + i else i - k] == x;
    }
  }

  // ---------- Rotation lists ----------

  /** The round-robin list discipline that all four list-based policies share:
      an activity flag per member, the active members in service order, and the
      others. */
  datatype Rotation<T(==)> = Rotation(isActive: map<T, bool>, active: seq<T>, inactive: seq<T>)

  function Join<T>(r: Rotation<T>, x: T): Rotation<T> {
    r.(isActive := r.isActive[x := false], inactive := r.inactive + [x])
  }

  function Activate<T>(r: Rotation<T>, x: T): Rotation<T>
    requires x in r.isActive
  {
    if r.isActive[x] then r
    else Rotation(r.isActive[x := true], r.active + [x], Remove(r.inactive, x))
  }

  function Deactivate<T>(r: Rotation<T>, x: T): Rotation<T>
    requires x in r.isActive
  {
    if !r.isActive[x] then r
    else Rotation(r.isActive[x := false], Remove(r.active, x), r.inactive + [x])
  }

  /** Serve the front and send it to the back. */
  function Rotate<T>(r: Rotation<T>): Rotation<T>
    requires r.active != []
  {
    r.(active := r.active[1..] + [r.active[0]])
  }

  /** Active and inactive list are disjoint and duplicate-free, and the flags say
      who is on the active one. */
  ghost predicate Agrees<T(!new)>(r: Rotation<T>) {
    && NoDuplicates(r.active)
    && NoDuplicates(r.inactive)
    && (forall x :: x in r.active <==> x in r.isActive && r.isActive[x])
    && (forall x :: x in r.inactive ==> x in r.isActive && !r.isActive[x])
  }

  /** Every member that is not active is on the inactive list. */
  ghost predicate Complete<T(!new)>(r: Rotation<T>) {
    forall x :: x in r.isActive && !r.isActive[x] ==> x in r.inactive
  }

  lemma JoinAgrees<T(!new)>(r: Rotation<T>, x: T)
    requires Agrees(r) && x !in r.isActive
    ensures Agrees(Join(r, x)) && Join(r, x).active == r.active
    ensures Complete(r) ==> Complete(Join(r, x))
  {
    AppendKeepsDistinct(r.inactive, x);
  }

  lemma ActivateAgrees<T(!new)>(r: Rotation<T>, x: T)
    requires Agrees(r) && x in r.isActive
    ensures Agrees(Activate(r, x))
    ensures forall y :: y in Activate(r, x).active <==> y in r.active || y == x
    ensures Activate(r, x).isActive.Keys == r.isActive.Keys
    ensures Complete(r) ==> Complete(Activate(r, x))
  {
    if !r.isActive[x] {
      AppendKeepsDistinct(r.active, x);
      RemoveSpec(r.inactive, x);
    }
  }

  lemma DeactivateAgrees<T(!new)>(r: Rotation<T>, x: T)
    requires Agrees(r) && x in r.isActive
    ensures Agrees(Deactivate(r, x))
    ensures forall y :: y in Deactivate(r, x).active <==> y in r.active && y != x
    ensures Deactivate(r, x).isActive.Keys == r.isActive.Keys
    ensures Complete(r) ==> Complete(Deactivate(r, x))
  {
    if r.isActive[x] {
      AppendKeepsDistinct(r.inactive, x);
      RemoveSpec(r.active, x);
    }
  }

  lemma RotateAgrees<T(!new)>(r: Rotation<T>)
    requires Agrees(r) && r.active != []
    ensures Agrees(Rotate(r)) && Rotate(r).active == Turned(r.active, 1)
    ensures forall y :: y in Rotate(r).active <==> y in r.active
  {
    TurnedSpec(r.active, 1);
    assert Rotate(r).active == Turned(r.active, 1);
  }

  // ---------- Moving up ----------

  lemma {:induction false} RemoveMovesForward<T>(s: seq<T>, x: T, p: nat) returns (r: nat)
    requires p < |s| && s[p] != x
    ensures r <= p && r < |Remove(s, x)| && Remove(s, x)[r] == s[p]
  {
    if p == 0 {
      r := 0;
    } else {
      r := RemoveMovesForward(s[1..], x, p - 1);
      if s[0] != x { r := r + 1; }
    }
  }

  lemma DeactivateMovesForward<T(!new)>(r: Rotation<T>, d: T, p: nat) returns (q: nat)
    requires d in r.isActive && p < |r.active| && r.active[p] != d
    ensures q <= p && q < |Deactivate(r, d).active| && Deactivate(r, d).active[q] == r.active[p]
  {
    q := p;
    if r.isActive[d] {
      q := RemoveMovesForward(r.active, d, p);
    }
  }
}
