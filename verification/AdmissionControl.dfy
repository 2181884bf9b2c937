/**
 Admission of transactions: token buckets that limit the rate at which data may be
 solicited and sent, and a window that limits the bytes solicited at a time.
 Admission first asks every limiter and then, if all agree, reserves.
 */
module AdmissionControl {

  // ---------- Token buckets ----------

  /** `checkedAt` is when the bucket was last asked, `taken` all it ever gave. */
  datatype Bucket = Bucket(
    perInterval: nat, interval: nat, size: nat,
    available: nat, lastRefill: nat, checkedAt: nat, taken: nat)

  function Min(a: nat, b: nat): nat {
    if a < b then a else b
  }

  /** Adds the tokens of the whole intervals gone by since the last refill. */
  function Refill(b: Bucket, now: nat): Bucket
    requires 0 < b.interval && b.lastRefill <= now
  {
    var n := (now - b.lastRefill) / b.interval;
    if n > 0 then
      b.(available := Min(b.available + n * b.perInterval, b.size),
         lastRefill := b.lastRefill + n * b.interval, checkedAt := now)
    else b.(checkedAt := now)
  }

  function Take(b: Bucket, n: nat): Bucket
    requires n <= b.available
  {
    b.(available := b.available - n, taken := b.taken + n)
  }

  /** Refills happen at multiples of the interval, as of the last check. */
  ghost predicate BucketInv(b: Bucket) {
    && 0 < b.interval && 0 < b.perInterval && b.available <= b.size
    && b.lastRefill == (b.checkedAt / b.interval) * b.interval
  }

  function Intervals(b: Bucket): nat
    requires 0 < b.interval
  {
    b.checkedAt / b.interval
  }

  lemma WholeIntervals(t: nat, i: nat, now: nat)
    requires 0 < i && t <= now
    ensures (t / i) * i <= t
    ensures (now - (t / i) * i) / i == now / i - t / i
    ensures t / i <= now / i
  {
    var k := t / i;
    assert t == k * i + t % i && now == (now / i) * i + now % i;
    var m := now - k * i;
    var n := m / i;
    assert m == n * i + m % i;
    assert (n + k) * i == n * i + k * i;
    SameQuotient(now, i, n + k, m % i, now / i, now % i);
    assert now / i == n + k;
  }

  lemma AtLeastOnce(n: int, i: int)
    requires 1 <= n && 0 < i
    ensures n * i >= i
  {
  }

  lemma NotBelow(i: int, q: int, r: int, p: int, s: int)
    requires q * i + r == p * i + s && 0 <= r < i && 0 <= s < i
    ensures q >= p
  {
    assert p * i == q * i + (p - q) * i;
    if q < p {
      AtLeastOnce(p - q, i);
    }
  }

  lemma SameQuotient(x: int, i: int, q: int, r: int, p: int, s: int)
    requires x == q * i + r && x == p * i + s && 0 <= r < i && 0 <= s < i
    ensures q == p
  {
    NotBelow(i, q, r, p, s);
    NotBelow(i, p, s, q, r);
  }

  lemma RefillKeepsInv(b: Bucket, now: nat)
    requires BucketInv(b) && b.checkedAt <= now
    ensures b.lastRefill <= now && BucketInv(Refill(b, now))
    ensures Refill(b, now).available
            == (if now / b.interval == Intervals(b) then b.available
                else Min(b.available + (now / b.interval - Intervals(b)) * b.perInterval, b.size))
  {
    WholeIntervals(b.checkedAt, b.interval, now);
    var k, m := b.checkedAt / b.interval, now / b.interval;
    assert k * b.interval + (m - k) * b.interval == m * b.interval;
  }

  /** It makes no difference how often a bucket is asked in between. */
  lemma AskingIsHarmless(b: Bucket, t: nat, now: nat)
    requires BucketInv(b) && b.checkedAt <= t <= now
    ensures b.lastRefill <= t && Refill(b, t).lastRefill <= now
    ensures Refill(Refill(b, t), now) == Refill(b, now)
  {
    RefillKeepsInv(b, t);
    RefillKeepsInv(Refill(b, t), now);
    RefillKeepsInv(b, now);
    WholeIntervals(b.checkedAt, b.interval, t);
    WholeIntervals(t, b.interval, now);
    var k, m, n := b.checkedAt / b.interval, t / b.interval, now / b.interval;
    assert (n - m) * b.perInterval + (m - k) * b.perInterval == (n - k) * b.perInterval;
    MoreIntervalsMore(n - m, b.perInterval);
    MoreIntervalsMore(m - k, b.perInterval);
  }

  lemma MoreIntervalsMore(n: nat, per: nat)
    ensures n * per >= 0 && (n == 0 ==> n * per == 0)
  {
  }

  /** From one state of a bucket to a later one: what it gave plus what it holds is
      bounded by what it held plus the income of the intervals between. */
  ghost predicate Flows(b: Bucket, c: Bucket) {
    && BucketInv(b) && BucketInv(c)
    && c.perInterval == b.perInterval && c.interval == b.interval && c.size == b.size
    && b.checkedAt <= c.checkedAt && Intervals(b) <= Intervals(c) && b.taken <= c.taken
    && c.taken - b.taken + c.available <= b.available + b.perInterval * (Intervals(c) - Intervals(b))
  }

  lemma RefillFlows(b: Bucket, now: nat)
    requires BucketInv(b) && b.checkedAt <= now
    ensures b.lastRefill <= now && Flows(b, Refill(b, now))
  {
    RefillKeepsInv(b, now);
    WholeIntervals(b.checkedAt, b.interval, now);
    var k, m := b.checkedAt / b.interval, now / b.interval;
    assert (m - k) * b.perInterval == b.perInterval * (m - k);
    MoreIntervalsMore(m - k, b.perInterval);
  }

  lemma FlowsOn(b: Bucket, c: Bucket, d: Bucket)
    requires Flows(b, c) && Flows(c, d)
    ensures Flows(b, d)
  {
    var k, m, n := Intervals(b), Intervals(c), Intervals(d);
    assert b.perInterval * (n - m) + b.perInterval * (m - k) == b.perInterval * (n - k);
  }

  // ---------- Admission ----------

  datatype Policy = RxWindow | RxRate | TxRate | RxTxRate | RxTxRateRxWindow

  predicate UsesRx(p: Policy) { p.RxRate? || p.RxTxRate? || p.RxTxRateRxWindow? }
  predicate UsesTx(p: Policy) { p.TxRate? || p.RxTxRate? || p.RxTxRateRxWindow? }
  predicate UsesWindow(p: Policy) { p.RxWindow? || p.RxTxRateRxWindow? }

  datatype Kind = PullRequest | PushRequest | PushGrant | OtherPacket

  /** The packets that make the other side send data here. */
  predicate Solicits(k: Kind) { k.PullRequest? || k.PushGrant? }

  const WORD := 0x1_0000_0000_0000_0000

  /** Unsigned 64-bit subtraction. */
  function Minus64(a: nat, b: nat): nat
    requires a < WORD && b < WORD
  {
    if b <= a then a - b else a + WORD - b
  }

  type Transaction = nat

  datatype World = World(
    rx: Bucket,
    tx: Bucket,
    window: nat,
    solicited: nat,
    reserved: map<Transaction, nat>)

  predicate MeetsWindow(w: World, k: Kind, length: nat)
    requires w.window < WORD && w.solicited < WORD
  {
    Solicits(k) ==> Minus64(w.window, w.solicited) >= length
  }

  /** The buckets after the question was put to every limiter in use. */
  function Ask(p: Policy, w: World, k: Kind, now: nat): World
    requires 0 < w.rx.interval && w.rx.lastRefill <= now && 0 < w.tx.interval && w.tx.lastRefill <= now
  {
    w.(rx := if UsesRx(p) && Solicits(k) then Refill(w.rx, now) else w.rx,
       tx := if UsesTx(p) && k.PushRequest? then Refill(w.tx, now) else w.tx)
  }

  /** The answer, given the buckets after asking. */
  predicate Meets(p: Policy, w: World, k: Kind, length: nat)
    requires w.window < WORD && w.solicited < WORD
  {
    && (UsesRx(p) && Solicits(k) ==> length <= w.rx.available)
    && (UsesTx(p) && k.PushRequest? ==> length <= w.tx.available)
    && (UsesWindow(p) ==> MeetsWindow(w, k, length))
  }

  /** The checks inside the reservations. */
  predicate CanReserve(p: Policy, w: World, k: Kind, length: nat) {
    && (UsesRx(p) && Solicits(k) ==> length <= w.rx.available)
    && (UsesTx(p) && k.PushRequest? ==> length <= w.tx.available)
  }

  function Reserve(p: Policy, w: World, t: Transaction, k: Kind, length: nat): World
    requires CanReserve(p, w, k, length)
  {
    w.(rx := if UsesRx(p) && Solicits(k) then Take(w.rx, length) else w.rx,
       tx := if UsesTx(p) && k.PushRequest? then Take(w.tx, length) else w.tx,
       solicited := if UsesWindow(p) && Solicits(k) then w.solicited + length else w.solicited,
       reserved := if UsesWindow(p) && Solicits(k) then w.reserved[t := length] else w.reserved)
  }

  /** Only the window is closed-loop; rate limiters get nothing back. */
  function Refund(p: Policy, w: World, t: Transaction): World
    requires UsesWindow(p) ==> t in w.reserved && w.reserved[t] <= w.solicited
  {
    if UsesWindow(p) then w.(solicited := w.solicited - w.reserved[t], reserved := w.reserved - {t}) else w
  }

  /** The bytes reserved by transactions below `n`. */
  function Total(m: map<Transaction, nat>, n: nat): nat {
    if n == 0 then 0 else Total(m, n - 1) + (if n - 1 in m then m[n - 1] else 0)
  }

  ghost predicate Books(m: map<Transaction, nat>, n: nat) {
    forall t :: t in m ==> t < n
  }

  lemma {:induction false} TotalAdds(m: map<Transaction, nat>, t: Transaction, length: nat, n: nat)
    requires t !in m
    ensures Total(m[t := length], n) == Total(m, n) + (if t < n then length else 0)
  {
    if n > 0 { TotalAdds(m, t, length, n - 1); }
  }

  lemma {:induction false} TotalDrops(m: map<Transaction, nat>, t: Transaction, n: nat)
    requires t in m
    ensures Total(m, n) == Total(m - {t}, n) + (if t < n then m[t] else 0)
  {
    if n > 0 { TotalDrops(m, t, n - 1); }
  }

  /** What is counted as solicited is what is reserved and not yet refunded, and
      fits the window. */
  ghost predicate Inv(p: Policy, w: World, n: nat) {
    && BucketInv(w.rx) && BucketInv(w.tx)
    && w.window < WORD && w.solicited <= w.window
    && Books(w.reserved, n) && w.solicited == Total(w.reserved, n)
  }

  /** On a window that is kept, the wrapping test is the plain one; on one that is
      overrun it lets nearly everything in. */
  lemma WindowTestIff(w: World, k: Kind, length: nat)
    requires w.window < WORD && w.solicited < WORD && Solicits(k)
    ensures w.solicited <= w.window ==> (MeetsWindow(w, k, length) <==> w.solicited + length <= w.window)
    ensures w.solicited > w.window ==> (MeetsWindow(w, k, length) <==> w.solicited + length <= w.window + WORD)
  {
  }

  // ---------- Runs ----------

  datatype Step =
    | AdmitStep(t: Transaction, k: Kind, length: nat, now: nat)
    | RefundStep(t: Transaction)

  /** Time does not run backwards, a transaction reserves once, and what is refunded
      has been reserved. */
  predicate Enabled(p: Policy, w: World, s: Step, n: nat) {
    match s
    case AdmitStep(t, _, _, now) => t < n && t !in w.reserved && w.rx.checkedAt <= now && w.tx.checkedAt <= now
    case RefundStep(t) => UsesWindow(p) ==> t in w.reserved
  }

  /** A transaction is let in when all limiters agree and is put off otherwise. */
  function Admit(p: Policy, w: World, t: Transaction, k: Kind, length: nat, now: nat): World
    requires 0 < w.rx.interval && w.rx.lastRefill <= now && 0 < w.tx.interval && w.tx.lastRefill <= now
    requires w.window < WORD && w.solicited < WORD
  {
    var v := Ask(p, w, k, now);
    if Meets(p, v, k, length) then Reserve(p, v, t, k, length) else v
  }

  lemma NeverEarly(b: Bucket, now: nat)
    requires BucketInv(b) && b.checkedAt <= now
    ensures 0 < b.interval && b.lastRefill <= now
  {
    WholeIntervals(b.checkedAt, b.interval, now);
  }

  lemma RefundIsCovered(p: Policy, w: World, t: Transaction, n: nat)
    requires Inv(p, w, n) && t in w.reserved
    ensures w.reserved[t] <= w.solicited
  {
    TotalDrops(w.reserved, t, n);
  }

  ghost function Do(p: Policy, w: World, s: Step, n: nat): World
    requires Inv(p, w, n) && Enabled(p, w, s, n)
  {
    match s
    case AdmitStep(t, k, length, now) =>
      NeverEarly(w.rx, now);
      NeverEarly(w.tx, now);
      Admit(p, w, t, k, length, now)
    case RefundStep(t) =>
      if UsesWindow(p) then RefundIsCovered(p, w, t, n); Refund(p, w, t) else Refund(p, w, t)
  }

  lemma AskFlows(p: Policy, w: World, k: Kind, now: nat)
    requires BucketInv(w.rx) && BucketInv(w.tx) && w.rx.checkedAt <= now && w.tx.checkedAt <= now
    ensures w.rx.lastRefill <= now && w.tx.lastRefill <= now
    ensures Flows(w.rx, Ask(p, w, k, now).rx) && Flows(w.tx, Ask(p, w, k, now).tx)
  {
    RefillFlows(w.rx, now);
    RefillFlows(w.tx, now);
  }

  lemma ReserveFlows(p: Policy, w: World, t: Transaction, k: Kind, length: nat)
    requires BucketInv(w.rx) && BucketInv(w.tx) && CanReserve(p, w, k, length)
    ensures Flows(w.rx, Reserve(p, w, t, k, length).rx) && Flows(w.tx, Reserve(p, w, t, k, length).tx)
  {
  }

  lemma ReserveKeepsWindow(p: Policy, w: World, t: Transaction, k: Kind, length: nat, n: nat)
    requires Inv(p, w, n) && t < n && t !in w.reserved && Meets(p, w, k, length)
    ensures Inv(p, Reserve(p, w, t, k, length), n)
  {
    ReserveFlows(p, w, t, k, length);
    TotalAdds(w.reserved, t, length, n);
  }

  /** Asking first is what keeps everything sound: then no check inside a
      reservation fails, and the window holds. */
  lemma AdmitKeepsInv(p: Policy, w: World, t: Transaction, k: Kind, length: nat, now: nat, n: nat)
    requires Inv(p, w, n) && Enabled(p, w, AdmitStep(t, k, length, now), n)
    ensures w.rx.lastRefill <= now && w.tx.lastRefill <= now
    ensures var v := Ask(p, w, k, now); Meets(p, v, k, length) ==> CanReserve(p, v, k, length)
    ensures Inv(p, Do(p, w, AdmitStep(t, k, length, now), n), n)
    ensures var v := Do(p, w, AdmitStep(t, k, length, now), n); Flows(w.rx, v.rx) && Flows(w.tx, v.tx)
  {
    AskFlows(p, w, k, now);
    var v := Ask(p, w, k, now);
    assert Inv(p, v, n);
    if Meets(p, v, k, length) {
      var u := Reserve(p, v, t, k, length);
      ReserveKeepsWindow(p, v, t, k, length, n);
      ReserveFlows(p, v, t, k, length);
      FlowsOn(w.rx, v.rx, u.rx);
      FlowsOn(w.tx, v.tx, u.tx);
    }
  }

  // ---------- Who is let in, and what it costs ----------

  /** What a bucket holds at `now`: what it held when last asked, plus its income of the
      interval ends gone by since, up to its size. */
  function Tokens(b: Bucket, now: nat): nat
    requires 0 < b.interval && b.checkedAt <= now
  {
    assert b.checkedAt / b.interval <= now / b.interval by {
      WholeIntervals(b.checkedAt, b.interval, now);
    }
    var income := (now / b.interval - b.checkedAt / b.interval) * b.perInterval;
    if b.checkedAt / b.interval == now / b.interval then b.available
    else if b.available + income < b.size then b.available + income
    else b.size
  }

  lemma RefillGivesTokens(b: Bucket, now: nat)
    requires BucketInv(b) && b.checkedAt <= now
    ensures b.lastRefill <= now && Refill(b, now).available == Tokens(b, now)
  {
    RefillKeepsInv(b, now);
  }

  /** The limits of each policy: pull requests and grants solicit data, which the
      receive bucket and the window limit; push requests are limited by the transmit
      bucket; nothing else is limited. */
  predicate WithinLimits(p: Policy, k: Kind, length: nat, rx: nat, tx: nat, room: nat) {
    match k
    case PushRequest => p == RxWindow || p == RxRate || length <= tx
    case OtherPacket => true
    case _ =>
      match p
      case RxWindow => length <= room
      case RxRate => length <= rx
      case TxRate => true
      case RxTxRate => length <= rx
      case RxTxRateRxWindow => length <= rx && length <= room
  }

  lemma AskRefills(p: Policy, w: World, k: Kind, now: nat, n: nat)
    requires Inv(p, w, n) && w.rx.checkedAt <= now && w.tx.checkedAt <= now
    ensures w.rx.lastRefill <= now && w.tx.lastRefill <= now
    ensures var v := Ask(p, w, k, now);
            && (UsesRx(p) && Solicits(k) ==> v.rx.available == Tokens(w.rx, now))
            && (UsesTx(p) && k.PushRequest? ==> v.tx.available == Tokens(w.tx, now))
            && (p == RxWindow || p == TxRate || !(k == PullRequest || k == PushGrant) ==> v.rx == w.rx)
            && (p == RxWindow || p == RxRate || k != PushRequest ==> v.tx == w.tx)
            && v.rx.taken == w.rx.taken && v.tx.taken == w.tx.taken
            && v.window == w.window && v.solicited == w.solicited && v.reserved == w.reserved
  {
    RefillGivesTokens(w.rx, now);
    RefillGivesTokens(w.tx, now);
  }

  /** A transaction is let in exactly when it is within the limits of its policy, and
      then it is charged to each of them; otherwise it costs nothing. */
  lemma AdmittedIffWithinLimits(p: Policy, w: World, t: Transaction, k: Kind, length: nat, now: nat, n: nat)
    requires Inv(p, w, n) && Enabled(p, w, AdmitStep(t, k, length, now), n)
    ensures var v := Do(p, w, AdmitStep(t, k, length, now), n);
            var soliciting := k == PullRequest || k == PushGrant;
            if WithinLimits(p, k, length, Tokens(w.rx, now), Tokens(w.tx, now), w.window - w.solicited) then
              && v.rx.taken == w.rx.taken + (if soliciting && p != RxWindow && p != TxRate then length else 0)
              && v.tx.taken == w.tx.taken + (if k == PushRequest && p != RxWindow && p != RxRate then length else 0)
              && v.solicited == w.solicited + (if soliciting && (p == RxWindow || p == RxTxRateRxWindow) then length else 0)
              && v.reserved == (if soliciting && (p == RxWindow || p == RxTxRateRxWindow) then w.reserved[t := length]
                                else w.reserved)
            else
              v.rx.taken == w.rx.taken && v.tx.taken == w.tx.taken && v.solicited == w.solicited && v.reserved == w.reserved
  {
    hide Refill, Tokens, BucketInv, Books, Total;
    AskRefills(p, w, k, now, n);
    WindowTest(p, w, k, length, n);
  }

  lemma WindowTest(p: Policy, w: World, k: Kind, length: nat, n: nat)
    requires Inv(p, w, n)
    ensures MeetsWindow(w, k, length) <==> ((k == PullRequest || k == PushGrant) ==> length <= w.window - w.solicited)
  {
    if Solicits(k) {
      WindowTestIff(w, k, length);
    }
  }

  lemma RefundKeepsInv(p: Policy, w: World, t: Transaction, n: nat)
    requires Inv(p, w, n) && Enabled(p, w, RefundStep(t), n)
    ensures Inv(p, Do(p, w, RefundStep(t), n), n)
  {
    if UsesWindow(p) { TotalDrops(w.reserved, t, n); }
  }

  ghost predicate Follows(p: Policy, ws: seq<World>, steps: seq<Step>, n: nat, i: nat)
    requires |ws| == |steps| + 1 && i < |steps|
  {
    Enabled(p, ws[i], steps[i], n) && (Inv(p, ws[i], n) ==> ws[i + 1] == Do(p, ws[i], steps[i], n))
  }

  /** A fresh bucket is full. */
  function NewBucket(perInterval: nat, interval: nat, size: nat): Bucket {
    Bucket(perInterval, interval, size, size, 0, 0, 0)
  }

  ghost predicate IsInitial(w: World) {
    && w.rx == NewBucket(w.rx.perInterval, w.rx.interval, w.rx.size) && 0 < w.rx.interval && 0 < w.rx.perInterval
    && w.tx == NewBucket(w.tx.perInterval, w.tx.interval, w.tx.size) && 0 < w.tx.interval && 0 < w.tx.perInterval
    && w.window < WORD && w.solicited == 0 && w.reserved == map[]
  }

  ghost predicate IsRun(p: Policy, ws: seq<World>, steps: seq<Step>, n: nat) {
    && |ws| == |steps| + 1 && IsInitial(ws[0])
    && forall i :: 0 <= i < |steps| ==> Follows(p, ws, steps, n, i)
  }

  lemma {:induction false} NothingReserved(n: nat)
    ensures Total(map[], n) == 0
  {
    if n > 0 { NothingReserved(n - 1); }
  }

  /** In every reachable state the solicited bytes are the unrefunded reservations,
      and fit the window. */
  lemma {:induction false} EveryRunKeepsInv(p: Policy, ws: seq<World>, steps: seq<Step>, n: nat, i: nat)
    requires IsRun(p, ws, steps, n) && i < |ws|
    ensures Inv(p, ws[i], n)
  {
    if i == 0 {
      NothingReserved(n);
    } else {
      EveryRunKeepsInv(p, ws, steps, n, i - 1);
      assert Follows(p, ws, steps, n, i - 1);
      match steps[i - 1]
      case AdmitStep(t, k, length, now) => AdmitKeepsInv(p, ws[i - 1], t, k, length, now, n);
      case RefundStep(t) => RefundKeepsInv(p, ws[i - 1], t, n);
    }
  }

  lemma {:induction false} EveryRunFlows(p: Policy, ws: seq<World>, steps: seq<Step>, n: nat, i: nat, j: nat)
    requires IsRun(p, ws, steps, n) && i <= j < |ws|
    ensures Flows(ws[i].rx, ws[j].rx) && Flows(ws[i].tx, ws[j].tx)
  {
    EveryRunKeepsInv(p, ws, steps, n, i);
    if i < j {
      EveryRunFlows(p, ws, steps, n, i, j - 1);
      EveryRunKeepsInv(p, ws, steps, n, j - 1);
      assert Follows(p, ws, steps, n, j - 1);
      var w, v := ws[j - 1], ws[j];
      match steps[j - 1]
      case AdmitStep(t, k, length, now) =>
        AdmitKeepsInv(p, w, t, k, length, now, n);
        FlowsOn(ws[i].rx, w.rx, v.rx);
        FlowsOn(ws[i].tx, w.tx, v.tx);
      case RefundStep(t) =>
    }
  }

  /** The rate limit: between the states in which a bucket was last asked at times s
      and t, it gives at most its size and its income of the intervals that begin
      after s and no later than t. */
  lemma RatesAreBounded(p: Policy, ws: seq<World>, steps: seq<Step>, n: nat, i: nat, j: nat)
    requires IsRun(p, ws, steps, n) && i <= j < |ws|
    ensures var b, c := ws[i].rx, ws[j].rx;
            0 < b.interval
            && c.taken - b.taken <= b.size + b.perInterval * (c.checkedAt / b.interval - b.checkedAt / b.interval)
    ensures var b, c := ws[i].tx, ws[j].tx;
            0 < b.interval
            && c.taken - b.taken <= b.size + b.perInterval * (c.checkedAt / b.interval - b.checkedAt / b.interval)
  {
    EveryRunFlows(p, ws, steps, n, i, j);
  }

  // ---------- The objects ----------

  class TokenBucket {
    const tokensPerRefillInterval: nat
    const bucketRefillInterval: nat
    const bucketSize: nat
    var availableTokens: nat
    var lastRefillTimestamp: nat
    ghost var checkedAt: nat
    ghost var taken: nat

    ghost function View(): Bucket
      reads this
    {
      Bucket(tokensPerRefillInterval, bucketRefillInterval, bucketSize, availableTokens, lastRefillTimestamp, checkedAt, taken)
    }

    constructor (tokensPerRefillInterval: nat, bucketRefillInterval: nat, maxBurstSize: nat)
      requires 0 < tokensPerRefillInterval
      ensures View() == NewBucket(tokensPerRefillInterval, bucketRefillInterval, maxBurstSize)
    {
      this.tokensPerRefillInterval, this.bucketRefillInterval := tokensPerRefillInterval, bucketRefillInterval;
      bucketSize, availableTokens, lastRefillTimestamp, checkedAt, taken := maxBurstSize, maxBurstSize, 0, 0, 0;
    }

    method AreTokensAvailable(requestedTokens: nat, currentTime: nat) returns (ok: bool)
      requires 0 < bucketRefillInterval && lastRefillTimestamp <= currentTime
      modifies this
      ensures View() == Refill(old(View()), currentTime)
      ensures ok <==> requestedTokens <= availableTokens
    {
      var intervalsElapsed := (currentTime - lastRefillTimestamp) / bucketRefillInterval;
      if intervalsElapsed > 0 {
        availableTokens := Min(availableTokens + intervalsElapsed * tokensPerRefillInterval, bucketSize);
        lastRefillTimestamp := lastRefillTimestamp + intervalsElapsed * bucketRefillInterval;
      }
      checkedAt := currentTime;
      return requestedTokens <= availableTokens;
    }

    method RequestTokens(requiredTokens: nat)
      requires requiredTokens <= availableTokens
      modifies this
      ensures View() == Take(old(View()), requiredTokens)
    {
      availableTokens := availableTokens - requiredTokens;
      taken := taken + requiredTokens;
    }
  }

  class ProtocolAdmissionControlManager {
    const policy: Policy
    const rxBucket: TokenBucket
    const txBucket: TokenBucket
    const admissionWindowBytes: nat
    var solicitedDataBytes: nat
    ghost var reserved: map<Transaction, nat>

    ghost function View(): World
      reads this, rxBucket, txBucket
    {
      World(rxBucket.View(), txBucket.View(), admissionWindowBytes, solicitedDataBytes, reserved)
    }

    constructor (policy: Policy, rxBucket: TokenBucket, txBucket: TokenBucket, window: nat)
      requires rxBucket != txBucket && window < WORD
      ensures this.policy == policy && this.rxBucket == rxBucket && this.txBucket == txBucket
      ensures View() == World(rxBucket.View(), txBucket.View(), window, 0, map[])
    {
      this.policy, this.rxBucket, this.txBucket, admissionWindowBytes := policy, rxBucket, txBucket, window;
      solicitedDataBytes, reserved := 0, map[];
    }

    method MeetsRxWindowBasedAdmissionCriteria(length: nat, k: Kind) returns (ok: bool)
      requires admissionWindowBytes < WORD && solicitedDataBytes < WORD
      ensures ok <==> MeetsWindow(View(), k, length)
    {
      if k == PullRequest || k == PushGrant {
        if Minus64(admissionWindowBytes, solicitedDataBytes) >= length {
          return true;
        }
        return false;
      }
      return true;
    }

    method MeetsRxRateBasedAdmissionCriteria(length: nat, k: Kind, now: nat) returns (ok: bool)
      requires 0 < rxBucket.bucketRefillInterval && rxBucket.lastRefillTimestamp <= now
      modifies rxBucket
      ensures rxBucket.View() == if Solicits(k) then Refill(old(rxBucket.View()), now) else old(rxBucket.View())
      ensures ok <==> (Solicits(k) ==> length <= rxBucket.availableTokens)
    {
      if k == PullRequest || k == PushGrant {
        ok := rxBucket.AreTokensAvailable(length, now);
        return;
      }
      return true;
    }

    method MeetsTxRateBasedAdmissionCriteria(length: nat, k: Kind, now: nat) returns (ok: bool)
      requires 0 < txBucket.bucketRefillInterval && txBucket.lastRefillTimestamp <= now
      modifies txBucket
      ensures txBucket.View() == if k.PushRequest? then Refill(old(txBucket.View()), now) else old(txBucket.View())
      ensures ok <==> (k.PushRequest? ==> length <= txBucket.availableTokens)
    {
      if k == PushRequest {
        ok := txBucket.AreTokensAvailable(length, now);
        return;
      }
      return true;
    }

    method MeetsAdmissionControlCriteria(length: nat, k: Kind, now: nat) returns (ok: bool)
      requires rxBucket != txBucket && admissionWindowBytes < WORD && solicitedDataBytes < WORD
      requires 0 < rxBucket.bucketRefillInterval && rxBucket.lastRefillTimestamp <= now
      requires 0 < txBucket.bucketRefillInterval && txBucket.lastRefillTimestamp <= now
      modifies rxBucket, txBucket
      ensures View() == Ask(policy, old(View()), k, now)
      ensures ok <==> Meets(policy, View(), k, length)
    {
      match policy
      case RxWindow =>
        ok := MeetsRxWindowBasedAdmissionCriteria(length, k);
      case RxRate =>
        ok := MeetsRxRateBasedAdmissionCriteria(length, k, now);
      case TxRate =>
        ok := MeetsTxRateBasedAdmissionCriteria(length, k, now);
      case RxTxRate =>
        var rxOk := MeetsRxRateBasedAdmissionCriteria(length, k, now);
        var txOk := MeetsTxRateBasedAdmissionCriteria(length, k, now);
        ok := txOk && rxOk;
      case RxTxRateRxWindow =>
        var rxOk := MeetsRxRateBasedAdmissionCriteria(length, k, now);
        var txOk := MeetsTxRateBasedAdmissionCriteria(length, k, now);
        var windowOk := MeetsRxWindowBasedAdmissionCriteria(length, k);
        ok := txOk && rxOk && windowOk;
    }

    method ReserveAdmissionControlResource(t: Transaction, k: Kind, length: nat)
      requires rxBucket != txBucket && CanReserve(policy, View(), k, length)
      modifies this, rxBucket, txBucket
      ensures View() == Reserve(policy, old(View()), t, k, length)
    {
      if (policy.RxRate? || policy.RxTxRate? || policy.RxTxRateRxWindow?) && (k == PullRequest || k == PushGrant) {
        rxBucket.RequestTokens(length);
      }
      if (policy.TxRate? || policy.RxTxRate? || policy.RxTxRateRxWindow?) && k == PushRequest {
        txBucket.RequestTokens(length);
      }
      if (policy.RxWindow? || policy.RxTxRateRxWindow?) && (k == PullRequest || k == PushGrant) {
        solicitedDataBytes := solicitedDataBytes + length;
        reserved := reserved[t := length];
      }
    }

    method RefundAdmissionControlResource(t: Transaction, length: nat)
      requires UsesWindow(policy) ==> t in reserved && length == reserved[t] <= solicitedDataBytes
      modifies this
      ensures View() == Refund(policy, old(View()), t)
    {
      if policy == RxWindow || policy == RxTxRateRxWindow {
        solicitedDataBytes := solicitedDataBytes - length;
        reserved := reserved - {t};
      }
    }
  }
}
