/** The per-call-site sliding-window histogram (TimingStats.java): a fixed
    round-robin array of 50 ms buckets, a cursor, the start time of the open
    bucket and running totals. The first half gives the histogram's state as a
    value and each operation as a function on it, with the properties the
    source relies on proved as lemmas; the class at the end is the in-place
    implementation, each method proved to perform its function. */
module Timing {
  import opened Strings

  /** Each bucket spans 50 ms of wall-clock time. */
  const BUCKET_TIME_NS: int := 50_000_000

  /** One bucket; `endTime` is 0 until the bucket is left with data in it. */
  datatype Bucket = Bucket(count: int, sum: int, min: int, max: int, endTime: int)

  const EmptyBucket: Bucket := Bucket(0, 0, LONG_MAX, LONG_MIN, 0)

  /** A bucket reset for reuse; its end stamp is kept. */
  function Cleared(b: Bucket): Bucket {
    b.(count := 0, sum := 0, min := LONG_MAX, max := LONG_MIN)
  }

  /** A bucket either holds no sample (and the reset values) or brackets its samples. */
  ghost predicate WellFormed(b: Bucket) {
    && b.count >= 0
    && (b.count == 0 ==> b.sum == 0 && b.min == LONG_MAX && b.max == LONG_MIN)
    && (b.count > 0 ==> b.min <= b.max)
  }

  /** The histogram's fields as one value. */
  datatype State = State(
    buckets: seq<Bucket>,
    cursor: int,
    lastBucketTime: int,
    totalCount: int,
    totalSum: int,
    globalMin: int,
    globalMax: int)

  predicate Shaped(s: State) {
    |s.buckets| >= 1 && 0 <= s.cursor < |s.buckets|
  }

  // ---------------------------------------------------------------------------
  // Sums over buckets

  function Sum(xs: seq<int>): int {
    if xs == [] then 0 else Sum(xs[..|xs| - 1]) + xs[|xs| - 1]
  }

  function Counts(bs: seq<Bucket>): seq<int> {
    seq(|bs|, i requires 0 <= i < |bs| => bs[i].count)
  }

  function Sums(bs: seq<Bucket>): seq<int> {
    seq(|bs|, i requires 0 <= i < |bs| => bs[i].sum)
  }

  lemma {:induction false} SumConcat(a: seq<int>, b: seq<int>)
    ensures Sum(a + b) == Sum(a) + Sum(b)
    decreases |b|
  {
    if b != [] {
      assert (a + b)[..|a + b| - 1] == a + b[..|b| - 1];
      SumConcat(a, b[..|b| - 1]);
    } else {
      assert a + b == a;
    }
  }

  lemma SumUpdate(xs: seq<int>, j: nat, v: int)
    requires j < |xs|
    ensures Sum(xs[j := v]) == Sum(xs) - xs[j] + v
  {
    assert xs == xs[..j] + [xs[j]] + xs[j + 1..];
    assert xs[j := v] == xs[..j] + [v] + xs[j + 1..];
    SumConcat(xs[..j] + [xs[j]], xs[j + 1..]);
    SumConcat(xs[..j] + [v], xs[j + 1..]);
    SumConcat(xs[..j], [xs[j]]);
    SumConcat(xs[..j], [v]);
    assert [xs[j]][..0] == [];
    assert [v][..0] == [];
  }

  lemma {:induction false} SumNonNegative(xs: seq<int>)
    requires forall i :: 0 <= i < |xs| ==> xs[i] >= 0
    ensures Sum(xs) >= 0
  {
    if xs != [] {
      SumNonNegative(xs[..|xs| - 1]);
    }
  }

  function Reverse(xs: seq<int>): seq<int> {
    seq(|xs|, i requires 0 <= i < |xs| => xs[|xs| - 1 - i])
  }

  lemma {:induction false} SumReverse(xs: seq<int>)
    ensures Sum(Reverse(xs)) == Sum(xs)
    decreases |xs|
  {
    if xs != [] {
      var init := xs[..|xs| - 1];
      assert Reverse(xs) == [xs[|xs| - 1]] + Reverse(init);
      SumConcat([xs[|xs| - 1]], Reverse(init));
      assert [xs[|xs| - 1]][..0] == [];
      SumReverse(init);
    }
  }

  lemma ModWrap(x: int, n: int)
    requires n > 0 && 0 <= x < 2 * n
    ensures x % n == (if x < n then x else x - n)
  {
    if x < n { ModUnique(x, n, 0, x); } else { ModUnique(x, n, 1, x - n); }
  }

  /** Stepping a ring index once more is the same as stepping the count. */
  lemma ModStep(x: int, y: int, n: int)
    requires n > 0 && y == x + 1
    ensures ((x % n) + 1) % n == y % n
  {
    var q, r := x / n, x % n;
    ModWrap(r + 1, n);
    if r + 1 < n {
      ModUnique(x + 1, n, q, r + 1);
    } else {
      ModUnique(x + 1, n, q + 1, 0);
    }
  }

  /** The slot `i` steps behind slot `c` on a ring of `n` slots, that is
      `(c - i + n) % n` for in-range arguments, written without the remainder. */
  function Behind(c: int, i: int, n: int): int {
    if i <= c then c - i else c - i + n
  }

  /** The slot after `c` on a ring of `n` slots, `(c + 1) % n`. */
  function NextSlot(c: int, n: int): int {
    if c + 1 == n then 0 else c + 1
  }

  lemma RingSlots(c: int, i: int, n: int)
    requires 0 <= c < n && 0 <= i < n
    ensures (c - i + n) % n == Behind(c, i, n)
    ensures (c + 1) % n == NextSlot(c, n)
  {
    ModWrap(c - i + n, n);
    ModWrap(c + 1, n);
  }

  /** The elements of `xs` newest first, starting at position `c` and
      walking backwards round the ring. */
  function Rotate(xs: seq<int>, c: int): seq<int>
    requires 0 <= c < |xs|
  {
    seq(|xs|, i requires 0 <= i < |xs| => xs[Behind(c, i, |xs|)])
  }

  lemma RotateSplit(xs: seq<int>, c: int)
    requires 0 <= c < |xs|
    ensures Rotate(xs, c) == Reverse(xs[..c + 1]) + Reverse(xs[c + 1..])
  {
    var a, b := xs[..c + 1], xs[c + 1..];
    var r := Reverse(a) + Reverse(b);
    forall i | 0 <= i < |xs| ensures Rotate(xs, c)[i] == r[i] {
      if i <= c {
        assert r[i] == Reverse(a)[i] == a[c - i];
      } else {
        assert r[i] == Reverse(b)[i - |a|] == b[|b| - 1 - (i - |a|)];
      }
    }
  }

  lemma SumSplit(xs: seq<int>, k: nat)
    requires k <= |xs|
    ensures Sum(xs) == Sum(xs[..k]) + Sum(xs[k..])
  {
    assert xs == xs[..k] + xs[k..];
    SumConcat(xs[..k], xs[k..]);
  }

  /** Reading the ring newest first loses and repeats nothing. */
  lemma SumRotate(xs: seq<int>, c: int)
    requires 0 <= c < |xs|
    ensures Sum(Rotate(xs, c)) == Sum(xs)
  {
    var a, b := xs[..c + 1], xs[c + 1..];
    RotateSplit(xs, c);
    SumConcat(Reverse(a), Reverse(b));
    SumReverse(a);
    SumReverse(b);
    SumSplit(xs, c + 1);
  }

  // ---------------------------------------------------------------------------
  // Global minimum and maximum over the buckets holding data

  /** What recalculateGlobalMinMax computes over the first `k` buckets: the
      least `min` of those with data, or LONG_MAX when there are none. */
  function LiveMin(bs: seq<Bucket>, k: nat): int
    requires k <= |bs|
  {
    if k == 0 then LONG_MAX
    else
      var m := LiveMin(bs, k - 1);
      if bs[k - 1].count > 0 && bs[k - 1].min < m then bs[k - 1].min else m
  }

  /** The greatest `max` of the first `k` buckets with data, or LONG_MIN when there are none. */
  function LiveMax(bs: seq<Bucket>, k: nat): int
    requires k <= |bs|
  {
    if k == 0 then LONG_MIN
    else
      var m := LiveMax(bs, k - 1);
      if bs[k - 1].count > 0 && bs[k - 1].max > m then bs[k - 1].max else m
  }

  /** The recalculated extremes bound every bucket that holds data, and
      are the reset values when no bucket holds data. */
  lemma {:induction false} LiveExtremesBound(bs: seq<Bucket>, k: nat)
    requires k <= |bs|
    ensures forall i :: 0 <= i < k && bs[i].count > 0 ==> LiveMin(bs, k) <= bs[i].min && bs[i].max <= LiveMax(bs, k)
    ensures (forall i :: 0 <= i < k ==> bs[i].count <= 0) ==> LiveMin(bs, k) == LONG_MAX && LiveMax(bs, k) == LONG_MIN
  {
    if k > 0 {
      LiveExtremesBound(bs, k - 1);
    }
  }

  // ---------------------------------------------------------------------------
  // The invariant

  /** What every histogram satisfies between operations: the cursor is in
      range, buckets are well formed, the running totals are the sums over
      all buckets, and the global extremes bound every bucket with data. */
  ghost predicate Inv(s: State) {
    && Shaped(s)
    && AllWellFormed(s.buckets)
    && Totals(s.buckets, s.totalCount, s.totalSum)
    && Brackets(s.buckets, s.globalMin, s.globalMax)
  }

  ghost predicate AllWellFormed(bs: seq<Bucket>) {
    forall i {:trigger WellFormed(bs[i])} :: 0 <= i < |bs| ==> WellFormed(bs[i])
  }

  ghost predicate Totals(bs: seq<Bucket>, totalCount: int, totalSum: int) {
    totalCount == CountTotal(bs, |bs|) && totalSum == SumTotal(bs, |bs|)
  }

  /** The samples held by the first `k` buckets. */
  function CountTotal(bs: seq<Bucket>, k: nat): int
    requires k <= |bs|
  {
    if k == 0 then 0 else CountTotal(bs, k - 1) + bs[k - 1].count
  }

  /** The summed durations held by the first `k` buckets. */
  function SumTotal(bs: seq<Bucket>, k: nat): int
    requires k <= |bs|
  {
    if k == 0 then 0 else SumTotal(bs, k - 1) + bs[k - 1].sum
  }

  lemma {:induction false} TotalsUpdate(bs: seq<Bucket>, j: nat, b: Bucket, k: nat)
    requires j < |bs| && k <= |bs|
    ensures CountTotal(bs[j := b], k) == CountTotal(bs, k) + (if j < k then b.count - bs[j].count else 0)
    ensures SumTotal(bs[j := b], k) == SumTotal(bs, k) + (if j < k then b.sum - bs[j].sum else 0)
  {
    if k > 0 {
      TotalsUpdate(bs, j, b, k - 1);
    }
  }

  lemma {:induction false} CountTotalIsSum(bs: seq<Bucket>, k: nat)
    requires k <= |bs|
    ensures CountTotal(bs, k) == Sum(Counts(bs)[..k])
  {
    if k > 0 {
      CountTotalIsSum(bs, k - 1);
      assert Counts(bs)[..k][..k - 1] == Counts(bs)[..k - 1];
    }
  }

  lemma {:induction false} CountTotalNonNegative(bs: seq<Bucket>, k: nat)
    requires k <= |bs|
    requires forall i :: 0 <= i < k ==> bs[i].count >= 0
    ensures CountTotal(bs, k) >= 0
  {
    if k > 0 {
      CountTotalNonNegative(bs, k - 1);
    }
  }

  /** A bucket with data lies within [lo, hi]. */
  ghost predicate Bracketed(b: Bucket, lo: int, hi: int) {
    b.count > 0 ==> lo <= b.min && b.max <= hi
  }

  ghost predicate Brackets(bs: seq<Bucket>, lo: int, hi: int) {
    forall i {:trigger Bracketed(bs[i], lo, hi)} :: 0 <= i < |bs| ==> Bracketed(bs[i], lo, hi)
  }

  /** A histogram of `n` buckets just built at time `now`. */
  function Fresh(n: nat, now: int): State {
    State(seq(n, _ => EmptyBucket), 0, now, 0, 0, LONG_MAX, LONG_MIN)
  }

  lemma {:induction false} EmptyTotals(bs: seq<Bucket>, k: nat)
    requires k <= |bs|
    requires forall i :: 0 <= i < k ==> bs[i] == EmptyBucket
    ensures CountTotal(bs, k) == 0 && SumTotal(bs, k) == 0
  {
    if k > 0 {
      EmptyTotals(bs, k - 1);
    }
  }

  /** A new histogram satisfies the invariant and holds no sample. */
  lemma FreshInv(n: nat, now: int)
    requires n >= 1
    ensures Inv(Fresh(n, now)) && Fresh(n, now).totalCount == 0
  {
    var bs := Fresh(n, now).buckets;
    EmptyTotals(bs, n);
  }

  // ---------------------------------------------------------------------------
  // advanceTimeBucket

  /** The buckets after the bucket being left is stamped with its end time;
      only a bucket with data is stamped. */
  function Stamped(s: State, now: int): seq<Bucket>
    requires Shaped(s)
  {
    var cur := s.buckets[s.cursor];
    if cur.count > 0 then s.buckets[s.cursor := cur.(endTime := now)] else s.buckets
  }

  /** A reused bucket is cleared only if it holds data, has been stamped, and
      ended longer ago than the whole window of `n` buckets. */
  predicate TooOld(b: Bucket, now: int, n: int) {
    b.count > 0 && b.endTime > 0 && now - b.endTime > n * BUCKET_TIME_NS
  }

  /** advanceTimeBucket: stamp the bucket being left, move the cursor one slot
      round the ring, clear the next bucket if it is too old (taking its data
      out of the totals), and recalculate the global extremes when the new
      bucket is empty and one of its reset values equals the matching extreme. */
  function AdvanceBucket(s: State, now: int): (t: State)
    requires Shaped(s)
    ensures Shaped(t) && |t.buckets| == |s.buckets|
    ensures t.cursor == NextSlot(s.cursor, |s.buckets|)
    ensures t.lastBucketTime == s.lastBucketTime
  {
    var n := |s.buckets|;
    var stamped := Stamped(s, now);
    var next := NextSlot(s.cursor, n);
    var reused := stamped[next];
    var evict := TooOld(reused, now, n);
    var bs := if evict then stamped[next := Cleared(reused)] else stamped;
    var tc := if evict then s.totalCount - reused.count else s.totalCount;
    var ts := if evict then s.totalSum - reused.sum else s.totalSum;
    var after := bs[next];
    if after.count == 0 && (after.min == s.globalMin || after.max == s.globalMax) then
      State(bs, next, s.lastBucketTime, tc, ts, LiveMin(bs, n), LiveMax(bs, n))
    else
      State(bs, next, s.lastBucketTime, tc, ts, s.globalMin, s.globalMax)
  }

  /** Stamping changes no bucket's data, only the end stamp of the bucket left. */
  lemma StampedKeepsData(s: State, now: int)
    requires Inv(s)
    ensures var st := Stamped(s, now);
      && |st| == |s.buckets|
      && CountTotal(st, |st|) == s.totalCount && SumTotal(st, |st|) == s.totalSum
      && (forall i :: 0 <= i < |st| ==> st[i].(endTime := 0) == s.buckets[i].(endTime := 0))
  {
    var cur := s.buckets[s.cursor];
    if cur.count > 0 {
      TotalsUpdate(s.buckets, s.cursor, cur.(endTime := now), |s.buckets|);
    }
  }

  /** Advancing keeps the running totals equal to the sums over the buckets:
      they lose exactly what the cleared bucket held. */
  lemma AdvanceKeepsTotals(s: State, now: int)
    requires Inv(s)
    ensures var t := AdvanceBucket(s, now); Totals(t.buckets, t.totalCount, t.totalSum)
  {
    var n := |s.buckets|;
    var stamped := Stamped(s, now);
    StampedKeepsData(s, now);
    var next := NextSlot(s.cursor, n);
    var reused := stamped[next];
    if TooOld(reused, now, n) {
      TotalsUpdate(stamped, next, Cleared(reused), n);
    }
  }

  /** Advancing changes no bucket's data except by clearing it. */
  lemma AdvanceKeepsBucketData(s: State, now: int)
    requires Inv(s)
    ensures var t := AdvanceBucket(s, now);
      forall i :: 0 <= i < |s.buckets| ==>
        t.buckets[i].(endTime := 0) == s.buckets[i].(endTime := 0) ||
        t.buckets[i] == Cleared(s.buckets[i])
  {
    StampedKeepsData(s, now);
  }

  /** Advancing keeps the invariant: the totals lose exactly what the cleared
      bucket held, and the global extremes still bound every bucket with data. */
  lemma AdvancePreservesInv(s: State, now: int)
    requires Inv(s)
    ensures Inv(AdvanceBucket(s, now))
  {
    var n := |s.buckets|;
    var t := AdvanceBucket(s, now);
    AdvanceKeepsTotals(s, now);
    AdvanceKeepsBucketData(s, now);
    assert AllWellFormed(t.buckets) by {
      forall i | 0 <= i < n ensures WellFormed(t.buckets[i]) {
        assert WellFormed(s.buckets[i]);
      }
    }
    LiveExtremesBound(t.buckets, n);
    forall i | 0 <= i < n ensures Bracketed(t.buckets[i], t.globalMin, t.globalMax) {
      assert Bracketed(s.buckets[i], s.globalMin, s.globalMax);
    }
  }

  /** What one advance changes. The cursor moves one slot and the open bucket's
      start time is untouched. Only the bucket being left gets an end stamp,
      and only if it holds data. The next bucket loses its data exactly when it
      is a different slot that held data, was stamped, and ended more than the
      whole window ago; every other bucket keeps its data. */
  lemma AdvanceChanges(s: State, now: int)
    requires Inv(s)
    ensures var t := AdvanceBucket(s, now);
      var n := |s.buckets|;
      var c := s.cursor;
      var j := NextSlot(c, n);
      && t.cursor == j
      && t.lastBucketTime == s.lastBucketTime
      && (forall i :: 0 <= i < n ==>
            t.buckets[i].endTime == (if i == c && s.buckets[c].count > 0 then now else s.buckets[i].endTime))
      && (forall i :: 0 <= i < n && i != j ==> t.buckets[i].(endTime := 0) == s.buckets[i].(endTime := 0))
      && (t.buckets[j].count == 0 && s.buckets[j].count > 0 <==> j != c && TooOld(s.buckets[j], now, n))
      && (t.buckets[j].count == 0 && s.buckets[j].count > 0 ==> t.buckets[j] == Cleared(s.buckets[j]))
      && (t.buckets[j].count != 0 || s.buckets[j].count == 0 ==> t.buckets[j].(endTime := 0) == s.buckets[j].(endTime := 0))
  {
    var n := |s.buckets|;
    var c := s.cursor;
    var j := NextSlot(c, n);
    if j == c {
      assert n == 1;
      var stamped := Stamped(s, now);
      assert !TooOld(stamped[j], now, n);
    }
  }

  /** `k` successive advances at the same clock reading. */
  function AdvanceN(s: State, now: int, k: nat): (t: State)
    requires Shaped(s)
    ensures Shaped(t) && |t.buckets| == |s.buckets|
    ensures t.lastBucketTime == s.lastBucketTime
  {
    if k == 0 then s else AdvanceBucket(AdvanceN(s, now, k - 1), now)
  }

  lemma {:induction false} AdvanceNPreservesInv(s: State, now: int, k: nat)
    requires Inv(s)
    ensures Inv(AdvanceN(s, now, k))
  {
    if k > 0 {
      AdvanceNPreservesInv(s, now, k - 1);
      AdvancePreservesInv(AdvanceN(s, now, k - 1), now);
    }
  }

  /** `k` advances move the cursor `k` slots round the ring. */
  lemma {:induction false} AdvanceNCursor(s: State, now: int, k: nat)
    requires Shaped(s)
    ensures AdvanceN(s, now, k).cursor == (s.cursor + k) % |s.buckets|
  {
    if k > 0 {
      AdvanceNCursor(s, now, k - 1);
      var p := AdvanceN(s, now, k - 1);
      ModStep(s.cursor + k - 1, s.cursor + k, |s.buckets|);
      ModWrap(p.cursor + 1, |s.buckets|);
    } else {
      ModWrap(s.cursor, |s.buckets|);
    }
  }

  // ---------------------------------------------------------------------------
  // addSample

  /** How many buckets addSample advances after `elapsed` nanoseconds: none
      before a whole bucket has passed (or when the clock went backwards),
      otherwise the whole buckets elapsed, narrowed to a Java `int` and then
      capped at the window size; a narrowed count that wrapped negative
      advances nothing. */
  function StepsFor(elapsed: int, n: nat): nat {
    if elapsed < BUCKET_TIME_NS then 0
    else
      var q := WrapInt32(elapsed / BUCKET_TIME_NS);
      if q > n then n else if q < 0 then 0 else q
  }

  /** The catch-up half of addSample. */
  function CaughtUp(s: State, now: int): (t: State)
    requires Shaped(s)
    ensures Shaped(t) && |t.buckets| == |s.buckets|
  {
    var elapsed := now - s.lastBucketTime;
    if elapsed >= BUCKET_TIME_NS then
      AdvanceN(s, now, StepsFor(elapsed, |s.buckets|)).(lastBucketTime := now)
    else s
  }

  /** The recording half of addSample: the sample goes into the current
      bucket and into the running totals. */
  function Recorded(t: State, d: Int64): State
    requires Shaped(t)
  {
    var b := t.buckets[t.cursor];
    var b' := b.(count := b.count + 1, sum := b.sum + d,
                 min := if d < b.min then d else b.min,
                 max := if d > b.max then d else b.max);
    t.(buckets := t.buckets[t.cursor := b'],
       totalCount := t.totalCount + 1,
       totalSum := t.totalSum + d,
       globalMin := if d < t.globalMin then d else t.globalMin,
       globalMax := if d > t.globalMax then d else t.globalMax)
  }

  /** addSample(duration) with the clock reading `now`. */
  function AfterSample(s: State, now: int, d: Int64): State
    requires Shaped(s)
  {
    Recorded(CaughtUp(s, now), d)
  }

  lemma CaughtUpInv(s: State, now: int)
    requires Inv(s)
    ensures Inv(CaughtUp(s, now))
  {
    var elapsed := now - s.lastBucketTime;
    if elapsed >= BUCKET_TIME_NS {
      AdvanceNPreservesInv(s, now, StepsFor(elapsed, |s.buckets|));
    }
  }

  /** The catch-up rule. When less than one bucket time has elapsed since the
      open bucket started (or the clock went backwards) nothing advances;
      otherwise the open bucket now starts at `now` and, while the count of
      whole buckets elapsed fits a Java `int`, the cursor moves
      min(elapsed / 50 ms, window size) slots. */
  lemma CatchUpRule(s: State, now: int)
    requires Inv(s)
    ensures var t := CaughtUp(s, now);
      var elapsed := now - s.lastBucketTime;
      var n := |s.buckets|;
      && Inv(t)
      && (elapsed < BUCKET_TIME_NS ==> t == s)
      && (elapsed >= BUCKET_TIME_NS ==> t.lastBucketTime == now)
      && (BUCKET_TIME_NS <= elapsed && elapsed / BUCKET_TIME_NS <= INT_MAX ==>
            var k := if elapsed / BUCKET_TIME_NS < n then elapsed / BUCKET_TIME_NS else n;
            t.cursor == (s.cursor + k) % n)
  {
    CaughtUpInv(s, now);
    var elapsed := now - s.lastBucketTime;
    if elapsed >= BUCKET_TIME_NS {
      var k := StepsFor(elapsed, |s.buckets|);
      AdvanceNCursor(s, now, k);
      assert CaughtUp(s, now).cursor == (s.cursor + k) % |s.buckets|;
      if elapsed / BUCKET_TIME_NS <= INT_MAX {
        StepsForFits(elapsed, |s.buckets|);
      }
    }
  }

  /** While the count of whole buckets elapsed fits a Java `int`, the narrowing
      cast changes nothing and the count is only capped at the window size. */
  lemma StepsForFits(elapsed: int, n: nat)
    requires BUCKET_TIME_NS <= elapsed && elapsed / BUCKET_TIME_NS <= INT_MAX
    ensures StepsFor(elapsed, n) == if elapsed / BUCKET_TIME_NS < n then elapsed / BUCKET_TIME_NS else n
  {
    var q := elapsed / BUCKET_TIME_NS;
    assert q >= 1;
    assert WrapInt32(q) == q;
  }

  /** The narrowing cast: after 2^31 whole buckets (about 3.4 years) without a
      sample, the count wraps negative and nothing is advanced, so no stale
      bucket is cleared although the open bucket restarts at `now`. */
  lemma CatchUpAfterLongIdle(n: nat)
    ensures StepsFor(0x8000_0000 * BUCKET_TIME_NS, n) == 0
    ensures StepsFor(0x8000_0000 * BUCKET_TIME_NS - 1, n) == if n < INT_MAX then n else INT_MAX
  {
  }

  /** Recording keeps the invariant and adds exactly one sample: the current
      bucket's count grows by 1 and its sum by the duration, which lies between
      the bucket's new min and max; the totals grow by the same amounts, and no
      other bucket, the cursor or the start time changes. */
  lemma RecordAddsOneSample(t: State, d: Int64)
    requires Inv(t)
    ensures var r := Recorded(t, d);
      var c := t.cursor;
      && Inv(r)
      && r.cursor == c && r.lastBucketTime == t.lastBucketTime
      && r.buckets[c].count == t.buckets[c].count + 1
      && r.buckets[c].sum == t.buckets[c].sum + d
      && r.buckets[c].min <= d <= r.buckets[c].max
      && r.buckets[c].endTime == t.buckets[c].endTime
      && r.totalCount == t.totalCount + 1
      && r.totalSum == t.totalSum + d
      && (forall i :: 0 <= i < |t.buckets| && i != c ==> r.buckets[i] == t.buckets[i])
  {
    var c := t.cursor;
    var r := Recorded(t, d);
    TotalsUpdate(t.buckets, c, r.buckets[c], |t.buckets|);
    forall i | 0 <= i < |t.buckets|
      ensures WellFormed(r.buckets[i]) && Bracketed(r.buckets[i], r.globalMin, r.globalMax)
    {
      assert WellFormed(t.buckets[i]) && Bracketed(t.buckets[i], t.globalMin, t.globalMax);
    }
  }

  /** addSample keeps the invariant. */
  lemma AfterSamplePreservesInv(s: State, now: int, d: Int64)
    requires Inv(s)
    ensures Inv(AfterSample(s, now, d))
    ensures AfterSample(s, now, d).totalCount == CaughtUp(s, now).totalCount + 1
  {
    CaughtUpInv(s, now);
    RecordAddsOneSample(CaughtUp(s, now), d);
  }

  // ---------------------------------------------------------------------------
  // getWindowStats

  /** The aggregate getWindowStats returns. */
  datatype WindowStats = WindowStats(count: int, sum: int, min: int, max: int)

  const NoStats: WindowStats := WindowStats(0, 0, LONG_MAX, LONG_MIN)

  /** The buckets newest first: slot `i` is the bucket `i` steps behind the cursor. */
  function Recent(s: State): seq<Bucket>
    requires Shaped(s)
  {
    var n := |s.buckets|;
    seq(n, i requires 0 <= i < n => s.buckets[Behind(s.cursor, i, n)])
  }

  /** What the backward scan does with one slot. */
  datatype Verdict = Skip | Stop | Take

  /** A slot covering [start, end]: stop when it ended at or before the window
      start, skip it when empty, take it when it overlaps the window. */
  function Judge(b: Bucket, start: int, end: int, windowStart: int, now: int): Verdict {
    if end <= windowStart then Stop
    else if b.count == 0 then Skip
    else if end > windowStart && start < now then Take
    else Skip
  }

  /** The verdict on slot `i`. The open bucket (slot 0) spans from the start of
      the open bucket to `now` and is skipped outright when it started before
      the window; an older bucket spans the 50 ms before its end stamp or, when
      unstamped, the 50 ms before `now - (i - 1) * 50 ms`. */
  function SlotAt(s: State, now: int, windowStart: int, i: int): Verdict
    requires Shaped(s) && 0 <= i < |s.buckets|
  {
    var b := Recent(s)[i];
    if i == 0 then
      if s.lastBucketTime < windowStart then Skip
      else Judge(b, s.lastBucketTime, now, windowStart, now)
    else
      var end := if b.endTime > 0 then b.endTime else now - (i - 1) * BUCKET_TIME_NS;
      Judge(b, end - BUCKET_TIME_NS, end, windowStart, now)
  }

  function Include(acc: WindowStats, b: Bucket): WindowStats {
    WindowStats(acc.count + b.count, acc.sum + b.sum,
                if b.min < acc.min then b.min else acc.min,
                if b.max > acc.max then b.max else acc.max)
  }

  /** The backward scan from slot `i` with the aggregate `acc` so far. */
  function Scan(s: State, now: int, windowStart: int, i: nat, acc: WindowStats): WindowStats
    requires Shaped(s) && i <= |s.buckets|
    decreases |s.buckets| - i
  {
    if i == |s.buckets| then acc
    else match SlotAt(s, now, windowStart, i)
      case Stop => acc
      case Skip => Scan(s, now, windowStart, i + 1, acc)
      case Take => Scan(s, now, windowStart, i + 1, Include(acc, Recent(s)[i]))
  }

  function WindowStart(now: int, windowMs: int): int {
    now - windowMs * 1_000_000
  }

  /** getWindowStats(windowMs) at clock reading `now`: None when no sample falls in the window. */
  function WindowQuery(s: State, now: int, windowMs: int): Option<WindowStats>
    requires Shaped(s)
  {
    var acc := Scan(s, now, WindowStart(now, windowMs), 0, NoStats);
    if acc.count == 0 then None else Some(acc)
  }

  // Declarative description of the scan

  /** Slot `i` is taken: it overlaps the window and no newer slot stopped the scan. */
  ghost predicate Taken(s: State, now: int, windowStart: int, i: int)
    requires Shaped(s) && 0 <= i < |s.buckets|
  {
    && SlotAt(s, now, windowStart, i) == Take
    && forall k :: 0 <= k < i ==> SlotAt(s, now, windowStart, k) != Stop
  }

  /** The samples in the taken slots among the newest `k`. */
  ghost function TakenCount(s: State, now: int, windowStart: int, k: nat): int
    requires Shaped(s) && k <= |s.buckets|
  {
    if k == 0 then 0
    else TakenCount(s, now, windowStart, k - 1) + (if Taken(s, now, windowStart, k - 1) then Recent(s)[k - 1].count else 0)
  }

  /** The summed durations in the taken slots among the newest `k`. */
  ghost function TakenSum(s: State, now: int, windowStart: int, k: nat): int
    requires Shaped(s) && k <= |s.buckets|
  {
    if k == 0 then 0
    else TakenSum(s, now, windowStart, k - 1) + (if Taken(s, now, windowStart, k - 1) then Recent(s)[k - 1].sum else 0)
  }

  lemma {:induction false} NothingTakenAfterStop(s: State, now: int, windowStart: int, i: nat, k: nat)
    requires Shaped(s) && i < k <= |s.buckets|
    requires SlotAt(s, now, windowStart, i) == Stop
    ensures TakenCount(s, now, windowStart, k) == TakenCount(s, now, windowStart, i + 1) == TakenCount(s, now, windowStart, i)
    ensures TakenSum(s, now, windowStart, k) == TakenSum(s, now, windowStart, i + 1) == TakenSum(s, now, windowStart, i)
    decreases k
  {
    if k > i + 1 {
      NothingTakenAfterStop(s, now, windowStart, i, k - 1);
      assert !Taken(s, now, windowStart, k - 1);
    }
  }

  lemma {:induction false} ScanFromMatchesTaken(s: State, now: int, windowStart: int, i: nat, acc: WindowStats)
    requires Shaped(s) && i <= |s.buckets|
    requires forall k :: 0 <= k < i ==> SlotAt(s, now, windowStart, k) != Stop
    ensures var n := |s.buckets|;
      var r := Scan(s, now, windowStart, i, acc);
      && r.count == acc.count + TakenCount(s, now, windowStart, n) - TakenCount(s, now, windowStart, i)
      && r.sum == acc.sum + TakenSum(s, now, windowStart, n) - TakenSum(s, now, windowStart, i)
    decreases |s.buckets| - i
  {
    var n := |s.buckets|;
    if i < n {
      match SlotAt(s, now, windowStart, i)
      case Stop =>
        NothingTakenAfterStop(s, now, windowStart, i, n);
      case Skip =>
        assert !Taken(s, now, windowStart, i);
        ScanFromMatchesTaken(s, now, windowStart, i + 1, acc);
      case Take =>
        assert Taken(s, now, windowStart, i);
        ScanFromMatchesTaken(s, now, windowStart, i + 1, Include(acc, Recent(s)[i]));
    }
  }

  /** The scan with its early exit adds up exactly the buckets that overlap
      the window and lie before the first bucket that ended before it. */
  lemma ScanMatchesTaken(s: State, now: int, windowStart: int)
    requires Shaped(s)
    ensures var r := Scan(s, now, windowStart, 0, NoStats);
      r.count == TakenCount(s, now, windowStart, |s.buckets|) &&
      r.sum == TakenSum(s, now, windowStart, |s.buckets|)
  {
    ScanFromMatchesTaken(s, now, windowStart, 0, NoStats);
  }

  lemma RecentWellFormed(s: State)
    requires Inv(s)
    ensures |Recent(s)| == |s.buckets|
    ensures forall i :: 0 <= i < |s.buckets| ==> WellFormed(Recent(s)[i])
    ensures CountTotal(Recent(s), |s.buckets|) == s.totalCount
  {
    var n := |s.buckets|;
    forall i | 0 <= i < n ensures WellFormed(Recent(s)[i]) {
      assert WellFormed(s.buckets[Behind(s.cursor, i, n)]);
    }
    assert Counts(Recent(s)) == Rotate(Counts(s.buckets), s.cursor);
    SumRotate(Counts(s.buckets), s.cursor);
    CountTotalIsSum(Recent(s), n);
    CountTotalIsSum(s.buckets, n);
    assert Counts(Recent(s))[..n] == Counts(Recent(s));
    assert Counts(s.buckets)[..n] == Counts(s.buckets);
  }

  lemma {:induction false} TakenCountBounds(s: State, now: int, windowStart: int, k: nat)
    requires Inv(s) && k <= |s.buckets|
    ensures 0 <= TakenCount(s, now, windowStart, k) <= CountTotal(Recent(s), k)
    ensures TakenCount(s, now, windowStart, k) == 0 <==> forall i :: 0 <= i < k ==> !Taken(s, now, windowStart, i)
  {
    RecentWellFormed(s);
    if k > 0 {
      TakenCountBounds(s, now, windowStart, k - 1);
      assert WellFormed(Recent(s)[k - 1]);
      CountTotalNonNegative(Recent(s), k - 1);
    }
  }

  lemma {:induction false} ScanKeepsMinMax(s: State, now: int, windowStart: int, i: nat, acc: WindowStats)
    requires Inv(s) && i <= |s.buckets|
    requires acc.count >= 0 && (acc.count > 0 ==> acc.min <= acc.max)
    ensures var r := Scan(s, now, windowStart, i, acc);
      r.count >= 0 && (r.count > 0 ==> r.min <= r.max)
    decreases |s.buckets| - i
  {
    RecentWellFormed(s);
    if i < |s.buckets| {
      match SlotAt(s, now, windowStart, i)
      case Stop =>
      case Skip => ScanKeepsMinMax(s, now, windowStart, i + 1, acc);
      case Take => ScanKeepsMinMax(s, now, windowStart, i + 1, Include(acc, Recent(s)[i]));
    }
  }

  /** getWindowStats answers "no data" exactly when no slot is taken; otherwise
      it returns at least one and at most every recorded sample, the sum of the
      taken buckets, and a minimum no greater than the maximum. */
  lemma WindowQueryResult(s: State, now: int, windowMs: int)
    requires Inv(s)
    ensures var ws := WindowStart(now, windowMs);
      var n := |s.buckets|;
      match WindowQuery(s, now, windowMs)
      case None => forall i :: 0 <= i < n ==> !Taken(s, now, ws, i)
      case Some(w) =>
        && (exists i :: 0 <= i < n && Taken(s, now, ws, i))
        && 1 <= w.count == TakenCount(s, now, ws, n) <= s.totalCount
        && w.sum == TakenSum(s, now, ws, n)
        && w.min <= w.max
  {
    var ws := WindowStart(now, windowMs);
    var n := |s.buckets|;
    ScanMatchesTaken(s, now, ws);
    TakenCountBounds(s, now, ws, n);
    RecentWellFormed(s);
    assert Recent(s)[..n] == Recent(s);
    ScanKeepsMinMax(s, now, ws, 0, NoStats);
  }

  /** The open bucket is taken exactly when it holds data, started inside the
      window and before `now`, and the window is not empty. */
  lemma OpenBucketRule(s: State, now: int, windowMs: int)
    requires Inv(s)
    ensures var ws := WindowStart(now, windowMs);
      Taken(s, now, ws, 0) <==>
        (s.lastBucketTime >= ws && now > ws && s.lastBucketTime < now && s.buckets[s.cursor].count > 0)
  {
    assert Recent(s)[0] == s.buckets[s.cursor];
    assert WellFormed(s.buckets[s.cursor]);
  }

  /** Early exit: the scan never looks past the first bucket that ended at or
      before the window start. Two histograms that agree on the slots up to such
      a bucket give the same answer, whatever the older buckets hold. */
  lemma {:induction false} ScanIgnoresOlder(s: State, s': State, now: int, windowStart: int, j: nat, i: nat, acc: WindowStats)
    requires Shaped(s) && Shaped(s') && |s.buckets| == |s'.buckets|
    requires s.lastBucketTime == s'.lastBucketTime
    requires i <= j < |s.buckets|
    requires forall k :: i <= k <= j ==> Recent(s)[k] == Recent(s')[k]
    requires SlotAt(s, now, windowStart, j) == Stop
    ensures Scan(s, now, windowStart, i, acc) == Scan(s', now, windowStart, i, acc)
    decreases j - i
  {
    assert SlotAt(s, now, windowStart, i) == SlotAt(s', now, windowStart, i);
    if i < j {
      match SlotAt(s, now, windowStart, i)
      case Stop =>
      case Skip => ScanIgnoresOlder(s, s', now, windowStart, j, i + 1, acc);
      case Take => ScanIgnoresOlder(s, s', now, windowStart, j, i + 1, Include(acc, Recent(s)[i]));
    }
  }

  lemma SlotMonotone(s: State, now: int, wide: int, narrow: int, i: nat)
    requires Shaped(s) && i < |s.buckets|
    requires wide <= narrow && wide < now
    ensures SlotAt(s, now, narrow, i) == Take ==> SlotAt(s, now, wide, i) == Take
    ensures SlotAt(s, now, wide, i) == Stop ==> SlotAt(s, now, narrow, i) == Stop
  {
  }

  lemma {:induction false} TakenCountMonotone(s: State, now: int, wide: int, narrow: int, k: nat)
    requires Inv(s) && k <= |s.buckets|
    requires wide <= narrow && wide < now
    ensures TakenCount(s, now, narrow, k) <= TakenCount(s, now, wide, k)
  {
    if k > 0 {
      TakenCountMonotone(s, now, wide, narrow, k - 1);
      RecentWellFormed(s);
      if Taken(s, now, narrow, k - 1) {
        forall m | 0 <= m < k - 1 ensures SlotAt(s, now, wide, m) != Stop {
          SlotMonotone(s, now, wide, narrow, m);
        }
        SlotMonotone(s, now, wide, narrow, k - 1);
      }
    }
  }

  /** A longer (positive) window never reports fewer samples than a shorter one. */
  lemma WindowMonotone(s: State, now: int, shortMs: int, longMs: int)
    requires Inv(s)
    requires shortMs <= longMs && 0 < longMs
    ensures var short := WindowQuery(s, now, shortMs);
      var long := WindowQuery(s, now, longMs);
      short.Some? ==> long.Some? && short.value.count <= long.value.count
  {
    var n := |s.buckets|;
    WindowQueryResult(s, now, shortMs);
    WindowQueryResult(s, now, longMs);
    ScanMatchesTaken(s, now, WindowStart(now, shortMs));
    ScanMatchesTaken(s, now, WindowStart(now, longMs));
    TakenCountMonotone(s, now, WindowStart(now, longMs), WindowStart(now, shortMs), n);
  }

  /** A histogram that has just been built reports no data for any window. */
  lemma FreshHasNoWindowData(n: nat, now: int, later: int, windowMs: int)
    requires n >= 1
    ensures WindowQuery(Fresh(n, now), later, windowMs) == None
  {
    var s := Fresh(n, now);
    FreshInv(n, now);
    WindowQueryResult(s, later, windowMs);
    var ws := WindowStart(later, windowMs);
    RecentWellFormed(s);
  }

  // ---------------------------------------------------------------------------
  // The in-place implementation

  class TimingStats {
    const windowSize: nat
    const buckets: array<Bucket>
    var currentBucketIndex: int
    var lastBucketTime: int
    var totalCount: int
    var totalSum: int
    var globalMin: int
    var globalMax: int

    function Abs(): State
      reads this, buckets
    {
      State(buckets[..], currentBucketIndex, lastBucketTime, totalCount, totalSum, globalMin, globalMax)
    }

    ghost predicate Valid()
      reads this, buckets
    {
      buckets.Length == windowSize && Inv(Abs())
    }

    /** new TimingStats(windowSize), built at clock reading `now`. */
    constructor (windowSize: nat, now: int)
      requires windowSize >= 1
      ensures Valid() && fresh(buckets)
      ensures this.windowSize == windowSize
      ensures Abs() == Fresh(windowSize, now)
    {
      this.windowSize := windowSize;
      var bs := new Bucket[windowSize];
      var i := 0;
      while i < windowSize
        invariant 0 <= i <= windowSize
        invariant forall k :: 0 <= k < i ==> bs[k] == EmptyBucket
      {
        bs[i] := EmptyBucket;
        i := i + 1;
      }
      buckets := bs;
      currentBucketIndex := 0;
      lastBucketTime := now;
      totalCount, totalSum := 0, 0;
      globalMin, globalMax := LONG_MAX, LONG_MIN;
      new;
      assert buckets[..] == Fresh(windowSize, now).buckets;
      FreshInv(windowSize, now);
    }

    /** addSample(duration) with the clock reading `now`. */
    method AddSample(now: int, durationNanos: Int64)
      requires Valid()
      modifies this, buckets
      ensures Valid()
      ensures Abs() == AfterSample(old(Abs()), now, durationNanos)
    {
      ghost var s0 := Abs();
      CatchUp(now);
      ghost var t := Abs();
      var c := currentBucketIndex;
      var b := buckets[c];
      var updated := b.(count := b.count + 1, sum := b.sum + durationNanos,
                        min := if durationNanos < b.min then durationNanos else b.min,
                        max := if durationNanos > b.max then durationNanos else b.max);
      buckets[c] := updated;
      totalCount := totalCount + 1;
      totalSum := totalSum + durationNanos;
      if durationNanos < globalMin { globalMin := durationNanos; }
      if durationNanos > globalMax { globalMax := durationNanos; }
      assert buckets[..] == t.buckets[c := updated];
      assert Abs() == Recorded(t, durationNanos);
      AfterSamplePreservesInv(s0, now, durationNanos);
    }

    /** The first half of addSample: when at least one bucket time has passed
        since the open bucket started, advance once per whole bucket elapsed
        (at most once per slot) and start the open bucket at `now`. */
    method CatchUp(now: int)
      requires Valid()
      modifies this, buckets
      ensures Valid()
      ensures Abs() == CaughtUp(old(Abs()), now)
    {
      ghost var s0 := Abs();
      var timeSinceLastBucket := now - lastBucketTime;
      if timeSinceLastBucket >= BUCKET_TIME_NS {
        var bucketsToAdvance := WrapInt32(timeSinceLastBucket / BUCKET_TIME_NS);
        if bucketsToAdvance > windowSize {
          bucketsToAdvance := windowSize;
        }
        ghost var steps := StepsFor(timeSinceLastBucket, |s0.buckets|);
        assert steps == if bucketsToAdvance < 0 then 0 else bucketsToAdvance;
        AdvanceTimes(now, bucketsToAdvance);
        ghost var advanced := Abs();
        assert advanced == AdvanceN(s0, now, steps);
        lastBucketTime := now;
        assert Abs() == advanced.(lastBucketTime := now) == CaughtUp(s0, now);
      } else {
        assert Abs() == s0 == CaughtUp(s0, now);
      }
      CaughtUpInv(s0, now);
    }

    /** The advancing loop of addSample: `count` calls of advanceTimeBucket,
        none when `count` is not positive. */
    method AdvanceTimes(now: int, count: int)
      requires Valid()
      modifies this, buckets
      ensures Valid()
      ensures Abs() == AdvanceN(old(Abs()), now, if count < 0 then 0 else count)
    {
      ghost var s0 := Abs();
      var i := 0;
      while i < count
        invariant 0 <= i && (count >= 0 ==> i <= count) && (count < 0 ==> i == 0)
        invariant buckets.Length == windowSize
        invariant Abs() == AdvanceN(s0, now, i)
      {
        AdvanceNPreservesInv(s0, now, i);
        AdvanceTimeBucket(now);
        i := i + 1;
      }
      assert i == if count < 0 then 0 else count;
      AdvanceNPreservesInv(s0, now, i);
    }

    /** advanceTimeBucket with the clock reading `now`. */
    method AdvanceTimeBucket(now: int)
      requires Valid()
      modifies this, buckets
      ensures Valid()
      ensures Abs() == AdvanceBucket(old(Abs()), now)
    {
      ghost var s := Abs();
      var c := currentBucketIndex;
      var currentBucket := buckets[c];
      if currentBucket.count > 0 {
        buckets[c] := currentBucket.(endTime := now);
      }
      assert buckets[..] == Stamped(s, now);
      var newIndex := (c + 1) % windowSize;
      RingSlots(c, 0, windowSize);
      var newBucket := buckets[newIndex];
      ghost var evict := TooOld(newBucket, now, windowSize);
      ghost var kept := if evict then Stamped(s, now)[newIndex := Cleared(newBucket)] else Stamped(s, now);
      if newBucket.count > 0 && newBucket.endTime > 0 {
        var ageNs := now - newBucket.endTime;
        var maxWindowNs := windowSize * BUCKET_TIME_NS;
        if ageNs > maxWindowNs {
          totalCount := totalCount - newBucket.count;
          totalSum := totalSum - newBucket.sum;
          buckets[newIndex] := newBucket.(count := 0, sum := 0, min := LONG_MAX, max := LONG_MIN);
        }
      }
      currentBucketIndex := newIndex;
      assert buckets[..] == kept;
      ghost var expected := AdvanceBucket(s, now);
      assert expected.buckets == kept && expected.cursor == newIndex;
      assert expected.totalCount == totalCount && expected.totalSum == totalSum;
      var after := buckets[newIndex];
      if after.count == 0 && (after.min == globalMin || after.max == globalMax) {
        RecalculateGlobalMinMax();
        assert globalMin == expected.globalMin && globalMax == expected.globalMax;
      } else {
        assert globalMin == expected.globalMin && globalMax == expected.globalMax;
      }
      assert Abs() == expected;
      AdvancePreservesInv(s, now);
    }

    /** recalculateGlobalMinMax: scan every bucket holding data. */
    method RecalculateGlobalMinMax()
      modifies this`globalMin, this`globalMax
      ensures globalMin == LiveMin(buckets[..], buckets.Length) && globalMax == LiveMax(buckets[..], buckets.Length)
    {
      globalMin := LONG_MAX;
      globalMax := LONG_MIN;
      var i := 0;
      while i < buckets.Length
        invariant 0 <= i <= buckets.Length
        invariant globalMin == LiveMin(buckets[..], i) && globalMax == LiveMax(buckets[..], i)
      {
        var bucket := buckets[i];
        if bucket.count > 0 {
          if bucket.min < globalMin { globalMin := bucket.min; }
          if bucket.max > globalMax { globalMax := bucket.max; }
        }
        i := i + 1;
      }
    }

    /** getWindowStats(windowMs) at clock reading `now`; reads the buckets and
        writes nothing, so two calls with the same arguments and no sample in
        between return the same answer. */
    method GetWindowStats(windowDurationMS: int, now: int) returns (r: Option<WindowStats>)
      requires Valid()
      ensures r == WindowQuery(Abs(), now, windowDurationMS)
    {
      ghost var s := Abs();
      var windowStartTimeNs := now - windowDurationMS * 1_000_000;
      var windowCount, windowSum, windowMin, windowMax := 0, 0, LONG_MAX, LONG_MIN;
      var i := 0;
      while i < windowSize
        invariant 0 <= i <= windowSize
        invariant Scan(s, now, windowStartTimeNs, 0, NoStats)
               == Scan(s, now, windowStartTimeNs, i, WindowStats(windowCount, windowSum, windowMin, windowMax))
      {
        var bucketIndex := (currentBucketIndex - i + windowSize) % windowSize;
        RingSlots(currentBucketIndex, i, windowSize);
        var bucket := buckets[bucketIndex];
        assert bucket == Recent(s)[i];
        var bucketWindowStartNs, bucketWindowEndNs;
        var skipOpen := false;
        if i == 0 {
          skipOpen := lastBucketTime < windowStartTimeNs;
          bucketWindowStartNs := lastBucketTime;
          bucketWindowEndNs := now;
        } else if bucket.endTime > 0 {
          bucketWindowEndNs := bucket.endTime;
          bucketWindowStartNs := bucketWindowEndNs - BUCKET_TIME_NS;
        } else {
          bucketWindowEndNs := now - (i - 1) * BUCKET_TIME_NS;
          bucketWindowStartNs := bucketWindowEndNs - BUCKET_TIME_NS;
        }
        if !skipOpen {
          if bucketWindowEndNs <= windowStartTimeNs {
            break;
          }
          if bucket.count != 0 {
            var overlaps := bucketWindowEndNs > windowStartTimeNs && bucketWindowStartNs < now;
            if overlaps {
              windowCount := windowCount + bucket.count;
              windowSum := windowSum + bucket.sum;
              if bucket.min < windowMin { windowMin := bucket.min; }
              if bucket.max > windowMax { windowMax := bucket.max; }
            }
          }
        }
        i := i + 1;
      }
      if windowCount == 0 {
        r := None;
      } else {
        r := Some(WindowStats(windowCount, windowSum, windowMin, windowMax));
      }
    }
  }
}
