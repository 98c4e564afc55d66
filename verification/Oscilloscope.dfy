/** The oscilloscope's measurements: hysteresis timing, and the statistics beside it. Samples are
    reals, and the root of the mean square is known by its square. */
module Oscilloscope {
  import opened Common

  const LOW_PART := 0.35
  const HIGH_PART := 0.65
  const MIN_VPP := 0.15
  const MIN_RISES := 3
  const MIN_PERIOD := 10.0

  // ---------------------------------------------------------------- rising edges

  /** A sample crosses upward: it is above the high threshold, and since some sample below the
      low one nothing before it was. */
  ghost predicate Rises(v: seq<real>, low: real, high: real, i: int) {
    && 0 <= i < |v| && v[i] > high
    && exists j :: Arms(v, low, high, j, i)
  }

  /** Sample `j` makes the detector ready for a crossing at `i`. */
  ghost predicate Arms(v: seq<real>, low: real, high: real, j: int, i: int) {
    && 0 <= j <= i <= |v| && j < |v| && v[j] < low && forall k :: j <= k < i ==> v[k] <= high
  }

  ghost predicate Primes(v: seq<real>, low: real, high: real, j: int, i: int) {
    j < i && Arms(v, low, high, j, i)
  }

  /** A crossing at `i` would count: some sample up to it arms the detector ... */
  ghost predicate ReadyAt(v: seq<real>, low: real, high: real, i: int) {
    exists j :: Arms(v, low, high, j, i)
  }

  /** ... or some sample before it. */
  ghost predicate ReadyBefore(v: seq<real>, low: real, high: real, i: int) {
    exists j :: Primes(v, low, high, j, i)
  }

  ghost predicate Ascending(s: seq<int>) {
    forall a, b :: 0 <= a < b < |s| ==> s[a] < s[b]
  }

  /** Exactly the crossings before `n`, in order. */
  ghost predicate Crossings(rises: seq<int>, v: seq<real>, low: real, high: real, n: int) {
    && Ascending(rises)
    && forall i :: i in rises <==> i < n && Rises(v, low, high, i)
  }

  method RisingEdges(v: seq<real>, min: real, vpp: real) returns (rises: seq<int>)
    ensures Crossings(rises, v, min + vpp * LOW_PART, min + vpp * HIGH_PART, |v|)
  {
    var low, high := min + vpp * LOW_PART, min + vpp * HIGH_PART;
    var armed := false;
    rises := [];
    var i := 0;
    while i < |v|
      invariant 0 <= i <= |v|
      invariant armed <==> ReadyBefore(v, low, high, i)
      invariant Crossings(rises, v, low, high, i)
    {
      Ready(v, low, high, i);
      if v[i] < low {
        armed := true;
      }
      CrossingNext(rises, v, low, high, i);
      if armed && v[i] > high {
        rises := rises + [i];
        armed := false;
      }
      NextReady(v, low, high, i);
      i := i + 1;
    }
  }

  /** Ready at a sample: ready before it, or by it. */
  lemma Ready(v: seq<real>, low: real, high: real, i: int)
    requires 0 <= i < |v|
    ensures ReadyAt(v, low, high, i) <==> ReadyBefore(v, low, high, i) || v[i] < low
  {
    if v[i] < low { assert Arms(v, low, high, i, i); }
    if ReadyBefore(v, low, high, i) {
      var j :| Primes(v, low, high, j, i);
      assert Arms(v, low, high, j, i);
    }
    if ReadyAt(v, low, high, i) && !(v[i] < low) {
      var j :| Arms(v, low, high, j, i);
      assert Primes(v, low, high, j, i);
    }
  }

  /** Ready after a sample: ready at it, and it was not above the high threshold. */
  lemma NextReady(v: seq<real>, low: real, high: real, i: int)
    requires 0 <= i < |v|
    ensures ReadyBefore(v, low, high, i + 1) <==> v[i] <= high && ReadyAt(v, low, high, i)
  {
    if ReadyBefore(v, low, high, i + 1) {
      var j :| Primes(v, low, high, j, i + 1);
      assert Arms(v, low, high, j, i);
    }
    if v[i] <= high && ReadyAt(v, low, high, i) {
      var j :| Arms(v, low, high, j, i);
      assert Primes(v, low, high, j, i + 1);
    }
  }

  /** One more sample adds itself, if it crosses. */
  lemma CrossingNext(rises: seq<int>, v: seq<real>, low: real, high: real, i: int)
    requires 0 <= i < |v| && Crossings(rises, v, low, high, i)
    ensures Crossings(if Rises(v, low, high, i) then rises + [i] else rises, v, low, high, i + 1)
    ensures Rises(v, low, high, i) <==> v[i] > high && ReadyAt(v, low, high, i)
  {
    hide Rises;
    assert forall k :: 0 <= k < |rises| ==> rises[k] in rises;
    CrossingAt(v, low, high, i);
  }

  lemma CrossingAt(v: seq<real>, low: real, high: real, i: int)
    requires 0 <= i < |v|
    ensures Rises(v, low, high, i) <==> v[i] > high && ReadyAt(v, low, high, i)
  {
  }

  /** Between any two crossings there is a low sample. */
  lemma LowBetween(v: seq<real>, low: real, high: real, a: int, b: int)
    requires low <= high && Rises(v, low, high, a) && Rises(v, low, high, b) && a < b
    ensures exists k :: a < k < b && v[k] < low
  {
    var j :| Arms(v, low, high, j, b);
    assert a < j < b && v[j] < low;
  }

  // ---------------------------------------------------------------- statistics

  function Sum(v: seq<real>): real {
    if v == [] then 0.0 else Sum(v[..|v| - 1]) + v[|v| - 1]
  }

  function SumOfSquares(v: seq<real>): real {
    if v == [] then 0.0 else SumOfSquares(v[..|v| - 1]) + v[|v| - 1] * v[|v| - 1]
  }

  lemma {:induction false} SumBetween(v: seq<real>, low: real, high: real)
    requires forall i :: 0 <= i < |v| ==> low <= v[i] <= high
    ensures |v| as real * low <= Sum(v) <= |v| as real * high
  {
    if v != [] {
      SumBetween(v[..|v| - 1], low, high);
    }
  }

  lemma Square(a: real)
    ensures a * a >= 0.0
  {
  }

  lemma Cancel(n: real, a: real, b: real)
    requires n > 0.0 && n * a <= n * b
    ensures a <= b
  {
  }

  /** One more sample keeps the sum's square below the count times the sum of squares. */
  lemma OneMoreSquare(n: real, s: real, q: real, x: real)
    requires n >= 1.0 && s * s <= n * q
    ensures (s + x) * (s + x) <= (n + 1.0) * (q + x * x)
  {
    Square(s - n * x);
    assert (s - n * x) * (s - n * x) == s * s - 2.0 * n * (s * x) + n * (n * (x * x));
    assert n * (2.0 * (s * x)) <= n * (q + n * (x * x));
    Cancel(n, 2.0 * (s * x), q + n * (x * x));
    assert (s + x) * (s + x) == s * s + 2.0 * (s * x) + x * x;
    assert (n + 1.0) * (q + x * x) == n * q + q + n * (x * x) + x * x;
  }

  lemma {:induction false} SquareOfSum(v: seq<real>)
    ensures Sum(v) * Sum(v) <= |v| as real * SumOfSquares(v)
  {
    if |v| == 1 {
      assert v[..0] == [];
      assert Sum(v) == v[0] && SumOfSquares(v) == v[0] * v[0];
    } else if |v| > 1 {
      var front := v[..|v| - 1];
      SquareOfSum(front);
      OneMoreSquare(|front| as real, Sum(front), SumOfSquares(front), v[|v| - 1]);
    }
  }

  lemma QuotientSquares(n: real, sum: real, squares: real)
    requires n > 0.0 && sum * sum <= n * squares
    ensures (sum / n) * (sum / n) <= squares / n
  {
    var mean, square := sum / n, squares / n;
    TimesQuotient(n, sum);
    TimesQuotient(n, squares);
    assert (n * mean) * (n * mean) == n * (n * (mean * mean));
    Cancel(n, n * (mean * mean), n * square);
    Cancel(n, mean * mean, square);
  }

  lemma TimesQuotient(n: real, a: real)
    requires n > 0.0
    ensures n * (a / n) == a
  {
  }

  /** The mean's square never exceeds the mean square. */
  lemma MeanBelowRms(v: seq<real>)
    requires |v| > 0
    ensures (Sum(v) / |v| as real) * (Sum(v) / |v| as real) <= SumOfSquares(v) / |v| as real
  {
    hide Sum, SumOfSquares;
    SquareOfSum(v);
    QuotientSquares(|v| as real, Sum(v), SumOfSquares(v));
  }

  lemma NoSum()
    ensures Sum([]) == 0.0 && SumOfSquares([]) == 0.0
  {
  }

  lemma SumNext(v: seq<real>, i: nat)
    requires i < |v|
    ensures Sum(v[..i + 1]) == Sum(v[..i]) + v[i] && SumOfSquares(v[..i + 1]) == SumOfSquares(v[..i]) + v[i] * v[i]
  {
    assert v[..i + 1][..i] == v[..i];
  }

  lemma QuotientBetween(n: real, sum: real, low: real, high: real)
    requires n > 0.0 && n * low <= sum <= n * high
    ensures low <= sum / n <= high
  {
    var mean := sum / n;
    TimesQuotient(n, sum);
    Cancel(n, low, mean);
    Cancel(n, mean, high);
  }

  lemma MeanBetween(v: seq<real>, low: real, high: real)
    requires |v| > 0 && forall i :: 0 <= i < |v| ==> low <= v[i] <= high
    ensures low <= Sum(v) / |v| as real <= high
  {
    hide Sum;
    SumBetween(v, low, high);
    QuotientBetween(|v| as real, Sum(v), low, high);
  }

  // ---------------------------------------------------------------- the measurement

  datatype Flag = ProbeUnconfirmed | InputClipped | NoClearSignal | TooFewCycles | TooFewSamples | IrregularPeriod

  /** The flags that say why there is no timing. */
  predicate Reason(f: Flag) {
    f != ProbeUnconfirmed && f != InputClipped
  }

  /** Times are in samples: a period of `p` samples at rate `r` is a frequency of `r / p`. */
  datatype Timing = Timing(first: int, last: int, rises: seq<int>, period: real, high: nat, duty: real)

  datatype Stats = Stats(min: real, max: real, vpp: real, mean: real, square: real)

  /** An empty trace has no statistics: the program leaves infinities and no number there. */
  datatype Measurement = Measurement(stats: Option<Stats>, clipped: bool, first: int,
    timing: Option<Timing>, flags: seq<Flag>)

  /** How many samples of a stretch are above the middle. */
  function CountAbove(v: seq<real>, mid: real): (n: nat)
    ensures n <= |v|
  {
    if v == [] then 0 else CountAbove(v[..|v| - 1], mid) + Unit(v[|v| - 1] > mid)
  }

  lemma {:induction false} SomeAbove(v: seq<real>, mid: real, k: nat)
    requires k < |v|
    ensures v[k] > mid ==> CountAbove(v, mid) > 0
    ensures v[k] <= mid ==> CountAbove(v, mid) < |v|
  {
    if k < |v| - 1 {
      SomeAbove(v[..|v| - 1], mid, k);
    }
  }

  function Distance(a: real, b: real): real {
    if a < b then b - a else a - b
  }

  function Larger(a: real, b: real): real {
    if a < b then b else a
  }

  ghost predicate Regular(rises: seq<int>, period: real) {
    forall i :: 1 <= i < |rises| ==> Distance((rises[i] - rises[i - 1]) as real, period) <= Larger(2.0, period * 0.1)
  }

  /** Each counted cycle, from one crossing to the next, holds a high sample and a low one. */
  ghost predicate WholeCycles(v: seq<real>, rises: seq<int>, low: real, high: real) {
    forall i :: 0 <= i < |rises| - 1 ==> WholeCycle(v, rises, low, high, i)
  }

  ghost predicate WholeCycle(v: seq<real>, rises: seq<int>, low: real, high: real, i: int)
    requires 0 <= i < |rises| - 1
  {
    && 0 <= rises[i] < rises[i + 1] < |v| && v[rises[i]] > high
    && exists k :: rises[i] < k < rises[i + 1] && v[k] < low
  }

  lemma CyclesAreWhole(v: seq<real>, rises: seq<int>, low: real, high: real)
    requires low <= high && Crossings(rises, v, low, high, |v|)
    ensures WholeCycles(v, rises, low, high)
  {
    forall i: int | 0 <= i < |rises| - 1 ensures WholeCycle(v, rises, low, high, i) {
      assert rises[i] in rises && rises[i + 1] in rises;
      LowBetween(v, low, high, rises[i], rises[i + 1]);
    }
  }

  /** The share of high samples over whole cycles is neither nothing nor everything. */
  lemma DutyInside(v: seq<real>, rises: seq<int>, low: real, mid: real, high: real)
    requires low <= mid <= high && |rises| >= 2 && Ascending(rises) && WholeCycles(v, rises, low, high)
    ensures 0 <= rises[0] < rises[|rises| - 1] < |v|
    ensures 0 < CountAbove(v[rises[0]..rises[|rises| - 1]], mid) < rises[|rises| - 1] - rises[0]
  {
    hide CountAbove;
    var a, b := rises[0], rises[|rises| - 1];
    assert WholeCycle(v, rises, low, high, 0) && WholeCycle(v, rises, low, high, |rises| - 2);
    assert |rises| > 2 ==> rises[0] < rises[|rises| - 1];
    var k :| rises[0] < k < rises[1] && v[k] < low;
    assert |rises| > 2 ==> rises[1] < b;
    InStretch(v, a, b, k, mid);
  }

  /** A stretch that starts high and holds a low sample is partly above the middle. */
  lemma InStretch(v: seq<real>, a: int, b: int, k: int, mid: real)
    requires 0 <= a < k < b < |v| && v[a] > mid && v[k] <= mid
    ensures 0 < CountAbove(v[a..b], mid) < b - a
  {
    SomeAbove(v[a..b], mid, 0);
    SomeAbove(v[a..b], mid, k - a);
  }

  ghost predicate Bounds(m: Stats, v: seq<real>) {
    && (forall i :: 0 <= i < |v| ==> m.min <= v[i] <= m.max)
    && m.min in v && m.max in v && m.vpp == m.max - m.min
  }

  /** What the statistics of a trace promise. */
  ghost predicate StatsOk(m: Stats, v: seq<real>)
    requires |v| > 0
  {
    && Bounds(m, v) && m.mean == Sum(v) / |v| as real && m.square == SumOfSquares(v) / |v| as real
    && m.min <= m.mean <= m.max && m.mean * m.mean <= m.square
  }

  /** What a reported timing promises. */
  ghost predicate TimingOk(t: Timing, v: seq<real>, min: real, max: real) {
    && Due(t.rises, t.period, v, min, max) && t.first == t.rises[0] && t.last == t.rises[|t.rises| - 1]
    && WholeCycles(v, t.rises, min + (max - min) * LOW_PART, min + (max - min) * HIGH_PART)
    && 0 <= t.first < t.last < |v| && t.high == CountAbove(v[t.first..t.last], (min + max) / 2.0)
    && t.duty * (t.last - t.first) as real == t.high as real * 100.0
    && 0.0 < t.duty < 100.0
  }

  /** Enough crossings, far enough apart and regular, with that period between them. */
  ghost predicate Due(rises: seq<int>, period: real, v: seq<real>, min: real, max: real) {
    && |rises| >= MIN_RISES
    && Crossings(rises, v, min + (max - min) * LOW_PART, min + (max - min) * HIGH_PART, |v|)
    && period * (|rises| - 1) as real == (rises[|rises| - 1] - rises[0]) as real
    && period >= MIN_PERIOD && Regular(rises, period)
  }

  ghost predicate TimingDue(v: seq<real>, min: real, max: real) {
    exists rises: seq<int>, period: real :: Due(rises, period, v, min, max)
  }

  lemma {:induction false} NoMore(a: seq<int>, b: seq<int>)
    requires Ascending(a) && Ascending(b) && forall i :: i in a ==> i in b
    ensures |a| <= |b|
  {
    if a != [] {
      var x := a[|a| - 1];
      assert x in a;
      var p :| 0 <= p < |b| && b[p] == x;
      var front := a[..|a| - 1];
      forall i | i in front ensures i in b[..p] {
        assert i in a && i < x;
        var q :| 0 <= q < |b| && b[q] == i;
        assert b[..p][q] == i;
      }
      NoMore(front, b[..p]);
    }
  }

  /** The crossings of a trace are one sequence. */
  lemma {:induction false} CrossingsAreUnique(a: seq<int>, b: seq<int>)
    requires Ascending(a) && Ascending(b) && forall i :: i in a <==> i in b
    ensures a == b
  {
    NoMore(a, b);
    NoMore(b, a);
    if a != [] {
      assert a[|a| - 1] in a && b[|b| - 1] in b;
      var x, y := a[|a| - 1], b[|b| - 1];
      assert y in a && x in b;
      var front, back := a[..|a| - 1], b[..|b| - 1];
      forall i ensures i in front <==> i in back {
        assert i in front <==> i in a && i != x;
        assert i in back <==> i in b && i != y;
      }
      CrossingsAreUnique(front, back);
      assert a == front + [x] && b == back + [y];
    }
  }

  /** One pass over the samples: their statistics, if there are any, and whether any clips. */
  method Scan(v: seq<real>, raw: seq<int>) returns (stats: Option<Stats>, clipped: bool)
    requires |v| <= |raw|
    ensures stats.None? <==> v == []
    ensures stats.Some? ==> StatsOk(stats.value, v)
    ensures clipped <==> exists i :: 0 <= i < |v| && (raw[i] <= 1 || raw[i] >= 254)
  {
    hide Sum, SumOfSquares;
    NoSum();
    assert v[..0] == [];
    var min, max, sum, squares := 0.0, 0.0, 0.0, 0.0;
    clipped := false;
    var i := 0;
    while i < |v|
      invariant 0 <= i <= |v| && (i > 0 ==> min in v && max in v)
      invariant forall k :: 0 <= k < i ==> min <= v[k] <= max
      invariant sum == Sum(v[..i]) && squares == SumOfSquares(v[..i])
      invariant clipped <==> exists k :: 0 <= k < i && (raw[k] <= 1 || raw[k] >= 254)
    {
      SumNext(v, i);
      min := if i == 0 || v[i] < min then v[i] else min;
      max := if i == 0 || v[i] > max then v[i] else max;
      sum, squares := sum + v[i], squares + v[i] * v[i];
      if raw[i] <= 1 || raw[i] >= 254 {
        clipped := true;
      }
      i := i + 1;
    }
    assert v[..i] == v;
    if |v| == 0 {
      return None, clipped;
    }
    MeanBetween(v, min, max);
    MeanBelowRms(v);
    var n := |v| as real;
    stats := Some(Stats(min, max, max - min, sum / n, squares / n));
  }

  method IsRegular(rises: seq<int>, period: real) returns (regular: bool)
    ensures regular <==> Regular(rises, period)
  {
    var i := 1;
    while i < |rises|
      invariant 1 <= i <= Smallest(|rises|)
      invariant forall k :: 1 <= k < i && k < |rises| ==>
        Distance((rises[k] - rises[k - 1]) as real, period) <= Larger(2.0, period * 0.1)
    {
      if Distance((rises[i] - rises[i - 1]) as real, period) > Larger(2.0, period * 0.1) {
        return false;
      }
      i := i + 1;
    }
    regular := true;
  }

  function Smallest(n: nat): nat {
    if n < 1 then 1 else n
  }

  method Above(v: seq<real>, mid: real) returns (count: nat)
    ensures count == CountAbove(v, mid)
  {
    count := 0;
    var i := 0;
    while i < |v|
      invariant 0 <= i <= |v| && count == CountAbove(v[..i], mid)
    {
      assert v[..i + 1][..i] == v[..i];
      if v[i] > mid {
        count := count + 1;
      }
      i := i + 1;
    }
    assert v[..i] == v;
  }

  datatype Verdict = Timed(timing: Timing) | Not(flag: Flag, first: int)

  /** The timing part: crossings, period, regularity and duty, or why not. */
  method Time(v: seq<real>, min: real, max: real) returns (verdict: Verdict)
    requires max - min >= MIN_VPP
    ensures verdict.Timed? ==> TimingOk(verdict.timing, v, min, max)
    ensures verdict.Timed? <==> TimingDue(v, min, max)
    ensures verdict.Not? ==> Reason(verdict.flag)
  {
    hide Regular, CountAbove, Rises, TimingOk;
    var vpp := max - min;
    ghost var low, high := min + vpp * LOW_PART, min + vpp * HIGH_PART;
    var rises := RisingEdges(v, min, vpp);
    if |rises| < MIN_RISES {
      NotDue(v, rises, min, max, 0.0);
      return Not(TooFewCycles, -1);
    }
    CyclesAreWhole(v, rises, low, high);
    DutyInside(v, rises, low, (min + max) / 2.0, high);
    var first, last := rises[0], rises[|rises| - 1];
    var period := (last - first) as real / (|rises| - 1) as real;
    TimesQuotient((|rises| - 1) as real, (last - first) as real);
    if period < MIN_PERIOD {
      NotDue(v, rises, min, max, period);
      return Not(TooFewSamples, first);
    }
    var regular := IsRegular(rises, period);
    if !regular {
      NotDue(v, rises, min, max, period);
      return Not(IrregularPeriod, first);
    }
    var count := Above(v[first..last], (min + max) / 2.0);
    var duty := count as real * 100.0 / (last - first) as real;
    Share(count, last - first, duty);
    var timing := Timing(first, last, rises, period, count, duty);
    assert Due(rises, period, v, min, max);
    IsTiming(timing, v, min, max);
    verdict := Timed(timing);
  }

  lemma IsTiming(t: Timing, v: seq<real>, min: real, max: real)
    requires Due(t.rises, t.period, v, min, max) && t.first == t.rises[0] && t.last == t.rises[|t.rises| - 1]
    requires WholeCycles(v, t.rises, min + (max - min) * LOW_PART, min + (max - min) * HIGH_PART)
    requires 0 <= t.first < t.last < |v| && t.high == CountAbove(v[t.first..t.last], (min + max) / 2.0)
    requires t.duty * (t.last - t.first) as real == t.high as real * 100.0 && 0.0 < t.duty < 100.0
    ensures TimingOk(t, v, min, max)
  {
    hide Regular, CountAbove, Crossings, WholeCycles;
  }

  /** The whole measurement. */
  method Measure(v: seq<real>, raw: seq<int>, confirmed: bool) returns (m: Measurement)
    requires |v| <= |raw|
    ensures m.stats.None? <==> v == []
    ensures m.stats.Some? ==> StatsOk(m.stats.value, v)
    ensures m.timing.Some? ==>
      && m.stats.Some? && TimingOk(m.timing.value, v, m.stats.value.min, m.stats.value.max)
      && m.first == m.timing.value.first
    ensures m.timing.Some? <==>
      m.stats.Some? && m.stats.value.vpp >= MIN_VPP && TimingDue(v, m.stats.value.min, m.stats.value.max)
    ensures m.clipped <==> exists i :: 0 <= i < |v| && (raw[i] <= 1 || raw[i] >= 254)
    ensures m.clipped <==> InputClipped in m.flags
    ensures confirmed <==> ProbeUnconfirmed !in m.flags
    ensures m.timing.Some? <==> forall f :: f in m.flags ==> !Reason(f)
    ensures v == [] ==> m.first == -1 && !m.clipped && NoClearSignal in m.flags
  {
    hide Sum, SumOfSquares, TimingOk, TimingDue, StatsOk;
    var stats, clipped := Scan(v, raw);
    var flags := (if confirmed then [] else [ProbeUnconfirmed]) + (if clipped then [InputClipped] else []);
    if stats.None? || stats.value.vpp < MIN_VPP {
      m := Measurement(stats, clipped, -1, None, flags + [NoClearSignal]);
      assert NoClearSignal in m.flags;
      return;
    }
    StatsSpan(stats.value, v);
    var verdict := Time(v, stats.value.min, stats.value.max);
    match verdict {
      case Timed(timing) => m := Measurement(stats, clipped, timing.first, Some(timing), flags);
      case Not(flag, first) =>
        m := Measurement(stats, clipped, first, None, flags + [flag]);
        assert flag in m.flags;
    }
  }

  lemma StatsSpan(m: Stats, v: seq<real>)
    requires |v| > 0 && StatsOk(m, v)
    ensures m.vpp == m.max - m.min
  {
  }

  lemma Share(count: nat, of: int, duty: real)
    requires 0 < count < of && duty == count as real * 100.0 / of as real
    ensures duty * of as real == count as real * 100.0 && 0.0 < duty < 100.0
  {
  }

  /** Without enough, fast or regular crossings no timing is due. */
  lemma NotDue(v: seq<real>, rises: seq<int>, min: real, max: real, period: real)
    requires Crossings(rises, v, min + (max - min) * LOW_PART, min + (max - min) * HIGH_PART, |v|)
    requires |rises| >= MIN_RISES ==> period * (|rises| - 1) as real == (rises[|rises| - 1] - rises[0]) as real
    requires |rises| < MIN_RISES || period < MIN_PERIOD || !Regular(rises, period)
    ensures !TimingDue(v, min, max)
  {
    hide Regular;
    forall other: seq<int>, p: real ensures !Due(other, p, v, min, max) {
      if Crossings(other, v, min + (max - min) * LOW_PART, min + (max - min) * HIGH_PART, |v|) {
        CrossingsAreUnique(rises, other);
        if |rises| >= MIN_RISES && p * (|rises| - 1) as real == (rises[|rises| - 1] - rises[0]) as real {
          SamePeriod(period, p, (|rises| - 1) as real);
        }
      }
    }
  }

  lemma SamePeriod(a: real, b: real, n: real)
    requires n > 0.0 && a * n == b * n
    ensures a == b
  {
  }
}
