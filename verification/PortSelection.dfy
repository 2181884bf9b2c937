/**
 Weighted choice among equal-cost output ports: a hash, rotated by a stage-dependent
 amount, is reduced modulo the sum of the weights, and a loop that subtracts weight
 after weight finds the port.
 */
module PortSelection {
  import opened Lists

  const WORD := 0x1_0000_0000

  datatype PortOption = PortOption(weight: nat, portIndex: nat)

  /** The sum of the first `k` weights. */
  function Prefix(options: seq<PortOption>, k: nat): nat
    requires k <= |options|
  {
    if k == 0 then 0 else Prefix(options, k - 1) + options[k - 1].weight
  }

  lemma {:induction false} PrefixGrows(options: seq<PortOption>, j: nat, k: nat)
    requires j <= k <= |options|
    ensures Prefix(options, j) <= Prefix(options, k)
  {
    if j < k { PrefixGrows(options, j, k - 1); }
  }

  function Sum(options: seq<PortOption>): nat {
    Prefix(options, |options|)
  }

  /** The option whose stretch of the number line holds `m`. */
  ghost predicate Picks(options: seq<PortOption>, m: nat, i: nat) {
    i < |options| && Prefix(options, i) <= m < Prefix(options, i + 1)
  }

  lemma PicksOnce(options: seq<PortOption>, m: nat, i: nat, j: nat)
    requires Picks(options, m, i) && Picks(options, m, j)
    ensures i == j
  {
    if i < j {
      PrefixGrows(options, i + 1, j);
    } else if j < i {
      PrefixGrows(options, j + 1, i);
    }
  }

  lemma {:induction false} SomeoneIsPicked(options: seq<PortOption>, m: nat, k: nat) returns (i: nat)
    requires k <= |options| && m < Prefix(options, k)
    ensures Picks(options, m, i)
  {
    if Prefix(options, k - 1) <= m {
      i := k - 1;
    } else {
      i := SomeoneIsPicked(options, m, k - 1);
    }
  }

  /** The 32-bit sum of the weights. */
  function WrappedSum(options: seq<PortOption>): nat {
    Sum(options) % WORD
  }

  function Interval(a: nat, b: nat): (r: set<nat>)
    ensures forall m :: m in r <==> a <= m < b
    ensures |r| == if a <= b then b - a else 0
  {
    if a >= b then {}
    else
      var rest := Interval(a, b - 1);
      assert b - 1 !in rest;
      rest + {b - 1}
  }

  /** The residues that pick option `i`. */
  ghost function Residues(options: seq<PortOption>, i: nat): set<nat> {
    set m | m in Interval(0, WrappedSum(options)) && Picks(options, m, i)
  }

  function Least(a: nat, b: nat): nat {
    if a < b then a else b
  }

  lemma ResiduesAreAnInterval(options: seq<PortOption>, i: nat)
    requires i < |options|
    ensures Residues(options, i) == Interval(Prefix(options, i), Least(Prefix(options, i + 1), WrappedSum(options)))
  {
  }

  ghost predicate ExactShares(options: seq<PortOption>) {
    forall i :: 0 <= i < |options| ==> |Residues(options, i)| == options[i].weight
  }

  lemma ShareIsExact(options: seq<PortOption>, i: nat)
    requires i < |options| && Sum(options) < WORD
    ensures |Residues(options, i)| == options[i].weight
  {
    ResiduesAreAnInterval(options, i);
    PrefixGrows(options, i + 1, |options|);
    assert Prefix(options, i + 1) == Prefix(options, i) + options[i].weight;
    assert WrappedSum(options) == Sum(options);
  }

  lemma SomeShareIsShort(options: seq<PortOption>) returns (i: nat)
    requires WORD <= Sum(options)
    ensures i < |options| && |Residues(options, i)| < options[i].weight
  {
    i := SomeoneIsPicked(options, WrappedSum(options), |options|);
    ResiduesAreAnInterval(options, i);
    assert Prefix(options, i + 1) == Prefix(options, i) + options[i].weight;
  }

  /** Every option is picked by exactly as many residues as its weight says, just
      when the sum of the weights fits its 32-bit variable. */
  lemma SharesAreExactIff(options: seq<PortOption>)
    ensures ExactShares(options) <==> Sum(options) < WORD
  {
    hide Residues, Prefix;
    if Sum(options) < WORD {
      forall i | 0 <= i < |options| ensures |Residues(options, i)| == options[i].weight {
        ShareIsExact(options, i);
      }
    } else {
      var i := SomeShareIsShort(options);
    }
  }

  /** A port is selected at all, and with the shares the weights ask for, exactly
      when the weights sum to a positive number of 32 bits. */
  lemma SelectionIsFairIff(options: seq<PortOption>)
    ensures 0 < WrappedSum(options) && ExactShares(options) <==> 0 < Sum(options) < WORD
  {
    SharesAreExactIff(options);
  }

  /** Two ways to make the program divide by zero. */
  lemma NoOptionsDivideByZero()
    ensures Sum([]) == 0 && WrappedSum([]) == 0
  {
  }

  lemma WrappedWeightsDivideByZero(p: nat, q: nat)
    ensures var options := [PortOption(0x8000_0000, p), PortOption(0x8000_0000, q)];
            Sum(options) == WORD && WrappedSum(options) == 0
  {
    var options := [PortOption(0x8000_0000, p), PortOption(0x8000_0000, q)];
    assert Prefix(options, 1) == Prefix(options, 0) + 0x8000_0000;
  }

  // ---------- Hash rotation ----------

  /** Left rotation of a 32-bit word by an amount taken modulo 32. */
  function RotateLeftBits(value: bv32, bits: bv32): bv32 {
    (value << (bits & 31)) | (value >> ((0 - bits) & 31))
  }

  datatype Stage = S1 | S2 | S3

  function HashValueRotation(hash: bv32, stage: Stage, uplink: bool): bv32 {
    match stage
    case S1 => hash
    case S2 => if uplink then RotateLeftBits(hash, 4) else RotateLeftBits(hash, 16)
    case S3 => if uplink then RotateLeftBits(hash, 8) else RotateLeftBits(hash, 12)
  }

  lemma TurnsBy4(h: bv32)
    ensures RotateLeftBits(RotateLeftBits(h, 4), 0 - 4) == h && RotateLeftBits(RotateLeftBits(h, 0 - 4), 4) == h
  {
  }

  lemma TurnsBy8(h: bv32)
    ensures RotateLeftBits(RotateLeftBits(h, 8), 0 - 8) == h && RotateLeftBits(RotateLeftBits(h, 0 - 8), 8) == h
  {
  }

  lemma TurnsBy12(h: bv32)
    ensures RotateLeftBits(RotateLeftBits(h, 12), 0 - 12) == h && RotateLeftBits(RotateLeftBits(h, 0 - 12), 12) == h
  {
  }

  lemma TurnsBy16(h: bv32)
    ensures RotateLeftBits(RotateLeftBits(h, 16), 0 - 16) == h && RotateLeftBits(RotateLeftBits(h, 0 - 16), 16) == h
  {
  }

  predicate Bit(h: bv32, i: bv32) {
    (h >> (i & 31)) & 1 == 1
  }

  lemma MovesUpBy4(h: bv32, i: bv32)
    requires i < 32
    ensures Bit(RotateLeftBits(h, 4), i + 4) == Bit(h, i)
  {
  }

  lemma MovesUpBy8(h: bv32, i: bv32)
    requires i < 32
    ensures Bit(RotateLeftBits(h, 8), i + 8) == Bit(h, i)
  {
  }

  lemma MovesUpBy12(h: bv32, i: bv32)
    requires i < 32
    ensures Bit(RotateLeftBits(h, 12), i + 12) == Bit(h, i)
  {
  }

  lemma MovesUpBy16(h: bv32, i: bv32)
    requires i < 32
    ensures Bit(RotateLeftBits(h, 16), i + 16) == Bit(h, i)
  {
  }

  /** Each bit of the hash moves up, around the word, by an amount that is its own for
      the second and third stage and the direction. */
  lemma StagesMoveBits(hash: bv32, stage: Stage, uplink: bool, i: bv32)
    requires i < 32
    ensures var up: bv32 := match stage
                            case S1 => 0
                            case S2 => if uplink then 4 else 16
                            case S3 => if uplink then 8 else 12;
            Bit(HashValueRotation(hash, stage, uplink), i + up) == Bit(hash, i)
  {
    hide RotateLeftBits, Bit;
    match stage
    case S1 =>
    case S2 => if uplink { MovesUpBy4(hash, i); } else { MovesUpBy16(hash, i); }
    case S3 => if uplink { MovesUpBy8(hash, i); } else { MovesUpBy12(hash, i); }
  }

  /** The original of a rotated hash. */
  function HashValueUnrotation(hash: bv32, stage: Stage, uplink: bool): bv32 {
    match stage
    case S1 => hash
    case S2 => if uplink then RotateLeftBits(hash, 0 - 4) else RotateLeftBits(hash, 0 - 16)
    case S3 => if uplink then RotateLeftBits(hash, 0 - 8) else RotateLeftBits(hash, 0 - 12)
  }

  /** Each stage permutes the 32-bit hashes, so no stage favours any residue: turning
      back undoes it, before and after. */
  lemma StagesAreBijections(hash: bv32, stage: Stage, uplink: bool)
    ensures HashValueUnrotation(HashValueRotation(hash, stage, uplink), stage, uplink) == hash
    ensures HashValueRotation(HashValueUnrotation(hash, stage, uplink), stage, uplink) == hash
  {
    hide RotateLeftBits;
    match stage
    case S1 =>
    case S2 => if uplink { TurnsBy4(hash); } else { TurnsBy16(hash); }
    case S3 => if uplink { TurnsBy8(hash); } else { TurnsBy12(hash); }
  }

  // ---------- The selection ----------

  method SumWeights(options: seq<PortOption>) returns (weightSum: nat)
    ensures weightSum == WrappedSum(options)
  {
    weightSum := 0;
    for i := 0 to |options|
      invariant weightSum == Prefix(options, i) % WORD
    {
      weightSum := (weightSum + options[i].weight) % WORD;
    }
  }

  /** The loop that subtracts the weights. */
  method FindOption(options: seq<PortOption>, residue: nat) returns (port: nat)
    requires residue < Sum(options)
    ensures exists i: nat :: Picks(options, residue, i) && port == options[i].portIndex
  {
    var modHash: nat := residue;
    port := 0;
    for i := 0 to |options|
      invariant residue == Prefix(options, i) + modHash
    {
      if modHash < options[i].weight {
        port := options[i].portIndex;
        assert Picks(options, residue, i);
        return;
      }
      modHash := modHash - options[i].weight;
    }
  }

  /** None where the program divides by zero. */
  method SelectOutputPort(options: seq<PortOption>, hash: bv32, stage: Stage, uplink: bool) returns (port: Option<nat>)
    ensures port == None <==> WrappedSum(options) == 0
    ensures WrappedSum(options) > 0 ==>
              exists i: nat :: Picks(options, (HashValueRotation(hash, stage, uplink) as nat) % WrappedSum(options), i)
                               && port == Some(options[i].portIndex)
  {
    var weightSum := SumWeights(options);
    if weightSum == 0 {
      return None;
    }
    var residue := (HashValueRotation(hash, stage, uplink) as nat) % weightSum;
    assert weightSum <= Sum(options);
    var found := FindOption(options, residue);
    return Some(found);
  }
}
