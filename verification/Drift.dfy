/** No unreported drift: what the journal last reported as settled stays close to what the
    meter has held steady at, over every history. */
module Drift {
  import opened Common
  import opened Journal
  import opened Detector
  import opened Bench

  // ---------------------------------------------------------------- the steady window

  lemma {:induction false} Bounds(first: Reading, w: seq<Reading>, x: Reading)
    requires x == first || x in w
    ensures Lowest(Base(first), w) <= Base(x) <= Highest(Base(first), w)
  {
    hide Base;
    if w != [] {
      var last := |w| - 1;
      Bounds(first, w[..last], first);
      if x != first && x != w[last] { Bounds(first, w[..last], x); }
    }
  }

  /** Any two readings of a steady value window are within the band of each other. */
  lemma WithinBand(r: Reading, w: seq<Reading>, x: Reading, y: Reading)
    requires |w| > 0 && Steady(r, w).Some? && Classify(r) == Value && (x == r || x in w) && (y == r || y in w)
    ensures Abs(Base(x) - Base(y)) <= Band(r, w)
  {
    hide Base, Lowest, Highest, Nearest, Band, Classify;
    Bounds(r, w, x);
    Bounds(r, w, y);
  }

  /** A steady window's band, told from its newest reading alone: 5 counts, or 1/199.5 of it. */
  function Spread(r: Reading): real {
    Max(SETTLE_BAND_COUNTS * Resolution(r), Abs(Base(r)) * 2.0 / 399.0)
  }

  lemma BandAt(counts: real, low: real, high: real, x: real)
    requires counts > 0.0 && low <= x <= high
    requires high - low <= Max(counts, SETTLE_BAND_REL * Abs((low + high) / 2.0))
    ensures Max(counts, SETTLE_BAND_REL * Abs((low + high) / 2.0)) <= Max(counts, Abs(x) * 2.0 / 399.0)
  {
  }

  lemma BandIsSpread(r: Reading, w: seq<Reading>)
    requires |w| > 0 && Steady(r, w).Some? && Classify(r) == Value
    ensures Band(r, w) <= Spread(r)
  {
    hide Base, Resolution, Lowest, Highest, Nearest, Classify, Max, Abs;
    Bounds(r, w, r);
    BandAt(SETTLE_BAND_COUNTS * Resolution(r), Lowest(Base(r), w), Highest(Base(r), w), Base(r));
  }

  // ---------------------------------------------------------------- one settled state

  /** The baseline after a steady value: of the same function, still a value, and within the
      change threshold of it; it moves exactly when a settled edge is reported. */
  lemma BaselineFollows(settled: Option<Reading>, at: Reading)
    requires Classify(at) == Value
    ensures var (b, kind) := Settle(settled, at);
      && b.Some? && Classify(b.value) == Value && b.value.measures == at.measures
      && Abs(Base(at) - Base(b.value)) <= Threshold(b.value, at)
      && (kind == Some(Settled) <==> b != settled) && (kind.None? <==> b == settled)
      && (kind.Some? ==> b == Some(at))
  {
    hide Classify, Resolution, Base;
  }

  /** An open or over-range window becomes the baseline; it is reported exactly when that ends
      a value (contact lost), or was not over range before (overload). */
  lemma BaselineLeaves(settled: Option<Reading>, at: Reading)
    requires Classify(at) != Value
    ensures var (b, kind) := Settle(settled, at);
      && b == Some(at)
      && (kind == Some(ContactLost) <==> Classify(at) == Open && settled.Some? && Classify(settled.value) == Value)
      && (kind == Some(Kind.Overload) <==> Classify(at) == Over && (settled.None? || Classify(settled.value) != Over))
      && kind != Some(Settled)
  {
    hide MovedBeyondThreshold;
  }

  /** Within the change threshold nothing is reported and the baseline stays, so that a slow drift
      adds up; beyond it, or after something other than a value of this function, the steady value
      is reported and becomes the baseline. The threshold is the larger of 20 counts and 2% of the
      baseline. */
  lemma ReportedExactly(settled: Option<Reading>, at: Reading)
    requires Classify(at) == Value
    ensures var (b, kind) := Settle(settled, at);
      if settled.Some? && Classify(settled.value) == Value && settled.value.measures == at.measures
         && (var drift := Abs(Base(at) - Base(settled.value));
             drift <= 20.0 * Resolution(at) || drift <= 0.02 * Abs(Base(settled.value)))
      then b == settled && kind.None?
      else b == Some(at) && kind == Some(Settled)
  {
    hide Classify, Resolution, Base, Abs;
  }

  /** Every prefix is a thousand of the one before. */
  lemma PrefixSteps()
    ensures 1000.0 * Scale("n") == Scale("µ") && 1000.0 * Scale("µ") == Scale("m") && 1000.0 * Scale("m") == Scale("")
    ensures 1000.0 * Scale("") == Scale("k") && 1000.0 * Scale("k") == Scale("M") && 1000.0 * Scale("M") == Scale("G")
    ensures Scale("") == 1.0
  {
  }

  /** A reading outside OHM that is not over range is no contact exactly when it is within 50 counts of
      zero; on OHM it never is. */
  lemma OpenWithinFiftyCounts(r: Reading)
    ensures Classify(r) == Over <==> r.overload
    ensures Classify(r) == Open <==> !r.overload && r.slot != "OHM" && Abs(Base(r)) <= 50.0 * Resolution(r)
  {
    hide Scale;
    hide Pow10, Abs, Base, Resolution;
    InCounts(r);
  }

  lemma InCounts(r: Reading)
    ensures Abs(r.value) * Pow10(r.decimals) <= 50.0 <==> Abs(Base(r)) <= 50.0 * Resolution(r)
  {
    hide Pow10, Abs, Scale;
    AbsScale(r.value, Scale(r.prefix), Base(r));
    assert Resolution(r) == (1.0 / Pow10(r.decimals)) * Scale(r.prefix);
    CountsScale(Abs(r.value), Pow10(r.decimals), Scale(r.prefix), Abs(Base(r)), Resolution(r));
  }

  lemma AbsScale(x: real, s: real, b: real)
    requires s > 0.0 && b == x * s
    ensures Abs(b) == Abs(x) * s
  {
  }

  lemma CountsScale(a: real, p: real, s: real, base: real, count: real)
    requires p >= 1.0 && s > 0.0 && base == a * s && count == (1.0 / p) * s
    ensures a * p <= 50.0 <==> base <= 50.0 * count
  {
    CountTimes(p, s);
    assert count * p == s;
    assert base * p == (a * p) * s && (50.0 * count) * p == 50.0 * s;
    if a * p <= 50.0 {
      Product(a * p, 50.0, s);
      Unscale(base, 50.0 * count, p);
    }
    if base <= 50.0 * count {
      Product(base, 50.0 * count, p);
      Unscale(a * p, 50.0, s);
    }
  }

  lemma Product(a: real, b: real, c: real)
    requires a <= b && c >= 0.0
    ensures a * c <= b * c
  {
  }

  lemma Unscale(a: real, b: real, s: real)
    requires s > 0.0 && a * s <= b * s
    ensures a <= b
  {
  }

  /** A power of ten by its recurrence: one count of a reading times that power is one unit. */
  lemma CountsMakeAUnit(r: Reading)
    ensures Resolution(r) * Pow10(r.decimals) == Scale(r.prefix)
  {
    hide Scale;
    CountTimes(Pow10(r.decimals), Scale(r.prefix));
  }

  lemma CountTimes(p: real, s: real)
    requires p >= 1.0
    ensures (1.0 / p) * s * p == s
  {
    assert (1.0 / p) * p == 1.0;
  }

  // ---------------------------------------------------------------- which window

  /** `w` is `all` cut from the front so that just one reading is as old as the cutoff. */
  ghost predicate CutAt(all: seq<Reading>, w: seq<Reading>, cutoff: int) {
    && 0 < |w| <= |all| && w == all[|all| - |w|..]
    && (|w| > 1 ==> w[1].time > cutoff)
    && (forall i :: 0 < i <= |all| - |w| ==> all[i].time <= cutoff)
  }

  /** What the window would be without a cut: started afresh when the function or the class changed. */
  predicate Carries(window: seq<Reading>, r: Reading) {
    && window != [] && window[|window| - 1].measures == r.measures
    && Classify(window[|window| - 1]) == Classify(r)
  }

  lemma CutMore(window: seq<Reading>, w: seq<Reading>, cutoff: int)
    requires |window| > 1 && window[1].time <= cutoff && CutAt(window[1..], w, cutoff)
    ensures CutAt(window, w, cutoff)
  {
    assert window[1..][|window| - 1 - |w|..] == window[|window| - |w|..];
    forall i | 0 < i <= |window| - |w| ensures window[i].time <= cutoff {
      if i > 1 { assert window[i] == window[1..][i - 1]; }
    }
  }

  lemma {:induction false} TrimExactly(window: seq<Reading>, cutoff: int)
    requires |window| > 0
    ensures CutAt(window, Trim(window, cutoff), cutoff)
  {
    if |window| > 1 && window[1].time <= cutoff {
      hide CutAt;
      TrimExactly(window[1..], cutoff);
      CutMore(window, Trim(window[1..], cutoff), cutoff);
    } else {
      assert Trim(window, cutoff) == window == window[0..];
    }
  }

  /** The window after a reading is the old one and the reading, or the reading alone, cut at a
      second before it. */
  lemma WindowExactly(window: seq<Reading>, r: Reading)
    ensures CutAt(if Carries(window, r) then window + [r] else [r], Track(window, r).0, r.time - 1_000_000_000)
  {
    hide Classify, Steady, CutAt, Trim;
    TrimExactly(Continued(window, r), r.time - SETTLE_TIME);
    assert Continued(window, r) == if Carries(window, r) then window + [r] else [r];
  }

  /** The ends of the window, however they are found: some reading has them, and none is beyond. */
  ghost predicate Ends(r: Reading, w: seq<Reading>, low: real, high: real) {
    && Attains(r, w, low) && Attains(r, w, high)
    && (forall x :: x == r || x in w ==> low <= Base(x) <= high)
  }

  ghost predicate Attains(r: Reading, w: seq<Reading>, value: real) {
    exists x :: (x == r || x in w) && Base(x) == value
  }

  lemma AttainsMore(r: Reading, w: seq<Reading>, value: real)
    requires w != []
    ensures Attains(r, w[..|w| - 1], value) || Base(w[|w| - 1]) == value ==> Attains(r, w, value)
  {
    hide Base;
    if Attains(r, w[..|w| - 1], value) {
      var x :| (x == r || x in w[..|w| - 1]) && Base(x) == value;
      assert x == r || x in w;
    } else if Base(w[|w| - 1]) == value {
      assert w[|w| - 1] in w;
    }
  }

  lemma {:induction false} Attained(r: Reading, w: seq<Reading>)
    ensures Attains(r, w, Lowest(Base(r), w)) && Attains(r, w, Highest(Base(r), w))
  {
    hide Base, Attains;
    if w == [] {
      OwnValue(r);
    } else {
      Attained(r, w[..|w| - 1]);
      AttainsMore(r, w, Lowest(Base(r), w));
      AttainsMore(r, w, Highest(Base(r), w));
    }
  }

  lemma OwnValue(r: Reading)
    ensures Attains(r, [], Base(r))
  {
    assert r == r && Base(r) == Base(r);
  }

  lemma {:induction false} NearestIs(first: Reading, w: seq<Reading>, centre: real, x: Reading)
    requires x == first || x in w
    ensures Abs(Base(Nearest(first, w, centre)) - centre) <= Abs(Base(x) - centre)
  {
    hide Base, Abs;
    if w != [] {
      var last := |w| - 1;
      NearestIs(first, w[..last], centre, first);
      if x != first && x != w[last] { NearestIs(first, w[..last], centre, x); }
    }
  }

  /** When a window is steady, and at which reading: it spans the settle time, and for a value its
      ends are no further apart than 5 counts or half a percent of their middle, whichever is more;
      the steady reading is a nearest one to that middle. */
  lemma SteadyExactly(r: Reading, w: seq<Reading>, low: real, high: real)
    requires |w| > 0 && Ends(r, w, low, high)
    ensures var at := Steady(r, w);
      && (at.Some? <==>
            && r.time - w[0].time >= 1_000_000_000
            && (Classify(r) == Value ==>
                  high - low <= 5.0 * Resolution(r) || high - low <= 0.005 * Abs((low + high) / 2.0)))
      && (at.Some? ==> at.value == r || at.value in w)
      && (at.Some? ==> forall x :: x == r || x in w ==>
            Abs(Base(at.value) - (low + high) / 2.0) <= Abs(Base(x) - (low + high) / 2.0))
  {
    hide Classify, Base, Abs, Resolution, Nearest, Lowest, Highest;
    Attained(r, w);
    EndsAre(r, w, low, high);
    NearestMember(r, w, Centre(r, w));
    if Steady(r, w).Some? {
      forall x | x == r || x in w
        ensures Abs(Base(Steady(r, w).value) - (low + high) / 2.0) <= Abs(Base(x) - (low + high) / 2.0)
      {
        NearestIs(r, w, Centre(r, w), x);
      }
    }
  }

  lemma EndsAre(r: Reading, w: seq<Reading>, low: real, high: real)
    requires Ends(r, w, low, high)
    ensures Lowest(Base(r), w) == low && Highest(Base(r), w) == high
  {
    hide Base, Lowest, Highest;
    Attained(r, w);
    var a :| (a == r || a in w) && Base(a) == low;
    var b :| (b == r || b in w) && Base(b) == high;
    Bounds(r, w, a);
    Bounds(r, w, b);
  }

  // ---------------------------------------------------------------- what the journal reports

  /** The newest settled value that nothing in the log has undone. */
  function Reported(log: seq<Edge>): Option<Reading> {
    if log == [] then None
    else
      var e := log[|log| - 1];
      match e.kind
      case Settled => e.reading
      case Connected => Reported(log[..|log| - 1])
      case HoldOn => Reported(log[..|log| - 1])
      case HoldOff => Reported(log[..|log| - 1])
      case _ => None
  }

  lemma ReportedNext(log: seq<Edge>, e: Edge)
    ensures Reported(log + [e])
         == if e.kind == Settled then e.reading
            else if e.kind == Connected || e.kind == HoldOn || e.kind == HoldOff then Reported(log) else None
  {
    assert (log + [e])[..|log|] == log;
  }

  predicate Close(reported: Reading, b: Reading) {
    reported.measures == b.measures && Abs(Base(reported) - Base(b)) <= Spread(reported)
  }

  /** The journal reports a settled value exactly when the baseline is one, and that one. */
  predicate Reports(reported: Option<Reading>, settled: Option<Reading>) {
    && (reported.Some? <==> settled.Some? && Classify(settled.value) == Value)
    && (reported.Some? ==> Close(reported.value, settled.value))
  }

  lemma PanelReports(log: seq<Edge>, m: Meter, r: Reading)
    requires Reports(Reported(log), m.settled)
    ensures var (m', edges) := DialStep(m, r); Reports(Reported(log + edges), m'.settled)
    ensures var (m', edges) := HoldStep(m, r); Reports(Reported(log + edges), m'.settled)
    ensures var (m', edges) := RelStep(m, r); Reports(Reported(log + edges), m'.settled)
  {
    hide Reported, Classify, Close, Label;
    assert log + [] == log;
    ReportedNext(log, Emit(Dial, r));
    ReportedNext(log, Emit(if "hold" in r.flags then HoldOn else HoldOff, r));
    ReportedNext(log, Emit(if "rel" in r.flags then RelOn else RelOff, r));
  }

  /** The reading an edge carries is the newest of the window, not the settled one: close. */
  lemma EdgeIsClose(window: seq<Reading>, r: Reading)
    requires Alike(window) && Track(window, r).1.Some? && Classify(r) == Value
    ensures Close(r, Track(window, r).1.value)
  {
    hide Alike, Classify, Steady, Band, Trim, Continued, Spread, Abs, Base;
    SteadyAlike(window, r);
    var (w, at) := Track(window, r);
    WithinBand(r, w, r, at.value);
    BandIsSpread(r, w);
  }

  lemma SettleReports(log: seq<Edge>, m: Meter, r: Reading)
    requires Reports(Reported(log), m.settled) && Alike(m.window)
    ensures var (m', edges) := SettleStep(m, r); Reports(Reported(log + edges), m'.settled)
  {
    hide Reported, Classify, Close, Track, Settle, Alike, Threshold, Abs;
    assert log + [] == log;
    SteadyAlike(m.window, r);
    var at := Track(m.window, r).1;
    if at.Some? {
      var kind := Settle(m.settled, at.value).1;
      if kind.Some? { ReportedNext(log, Emit(kind.value, r)); }
      if Classify(at.value) == Value {
        BaselineFollows(m.settled, at.value);
        EdgeIsClose(m.window, r);
      } else {
        BaselineLeaves(m.settled, at.value);
        SettleKind(m.settled, at.value);
      }
    }
  }

  /** The state the settling step of an observation starts from. */
  function Panel(m: Meter, r: Reading): Meter {
    RelStep(HoldStep(DialStep(m, r).0, r).0, r).0
  }

  lemma ObserveReports(log: seq<Edge>, m: Meter, r: Reading)
    requires Reports(Reported(log), m.settled) && Alike(m.window) && m.connected
    ensures var (m', edges) := Observe(m, r); Reports(Reported(log + edges), m'.settled)
    ensures Alike(Panel(m, r).window)
  {
    hide Reports, Reported, Alike, DialStep, HoldStep, RelStep, SettleStep;
    var (m1, e1) := DialStep(m, r);
    var (m2, e2) := HoldStep(m1, r);
    var (m3, e3) := RelStep(m2, r);
    PanelReports(log, m, r);
    PanelReports(log + e1, m1, r);
    PanelReports(log + e1 + e2, m2, r);
    FlagsAlike(m, r);
    FlagsAlike(m1, r);
    FlagsAlike(m2, r);
    SettleReports(log + e1 + e2 + e3, m3, r);
    FourJoin(log, e1, e2, e3, SettleStep(m3, r).1);
  }

  lemma LinkReports(log: seq<Edge>, m: Meter, on: bool, at: int)
    requires Reports(Reported(log), m.settled)
    ensures var (m', edges) := SetConnected(m, on, at); Reports(Reported(log + edges), m'.settled)
  {
    hide Reported, Classify, Close;
    assert log + [] == log;
    if on != m.connected { ReportedNext(log, SetConnected(m, on, at).1[0]); }
  }

  /** Over every history, the journal's newest standing settled edge is there exactly when the
      baseline is a value, and close to it. */
  lemma {:induction false} JournalReportsBaseline(inputs: seq<Input>)
    ensures var (m, log) := Run(inputs); Reports(Reported(log), m.settled)
  {
    hide Reports, Alike, Tells, Observe, SetConnected, Reported;
    if inputs == [] {
      NothingReported();
    } else {
      var before := inputs[..|inputs| - 1];
      var (m, log) := Run(before);
      JournalReportsBaseline(before);
      ReplayReproduces(before);
      match inputs[|inputs| - 1] {
        case Link(on, at) => LinkReports(log, m, on, at);
        case Sample(r) =>
          if m.connected { ObserveReports(log, m, r); } else { OffObserves(log, m, r); }
      }
    }
  }

  lemma NothingReported()
    ensures Reports(Reported([]), OFF.settled)
  {
  }

  lemma OffObserves(log: seq<Edge>, m: Meter, r: Reading)
    requires !m.connected
    ensures Observe(m, r).0 == m && log + Observe(m, r).1 == log
  {
  }

  /** The reading would complete a steady window of a value. */
  predicate CompletesValue(m: Meter, r: Reading) {
    m.connected && Classify(r) == Value && Track(Panel(m, r).window, r).1.Some?
  }

  /** No drift goes unreported: over every history, whenever a reading completes a steady value
      window, every reading of that window (which spans the settle time) is within the band of
      the steady reading, the baseline is within the change threshold of it, and the journal's
      newest standing report is of the same function and close to that baseline. */
  lemma NoUnreportedDrift(inputs: seq<Input>, r: Reading)
    ensures CompletesValue(Run(inputs).0, r) ==>
      var (w, at) := Track(Panel(Run(inputs).0, r).window, r);
      var (m, log) := Run(inputs + [Sample(r)]);
      && |w| > 0 && m.window == w && r.time - w[0].time >= SETTLE_TIME
      && (forall x :: x in w ==> Abs(Base(x) - Base(at.value)) <= Band(r, w))
      && m.settled.Some? && m.settled.value.measures == r.measures
      && Abs(Base(at.value) - Base(m.settled.value)) <= Threshold(m.settled.value, at.value)
      && Reported(log).Some? && Close(Reported(log).value, m.settled.value)
  {
    hide Alike, Tells, Run, Track, Panel, Classify, Threshold, Band, Abs, Base, Reported, Close;
    var m0 := Run(inputs).0;
    if CompletesValue(m0, r) {
      ReplayReproduces(inputs);
      JournalReportsBaseline(inputs + [Sample(r)]);
      RunNext(inputs, Sample(r));
      PanelAlike(m0, r);
      AfterSteady(m0, r);
      SteadyIsClose(Panel(m0, r).window, r);
    }
  }

  function Ohms(time: int): Reading {
    Reading(time, "resistance", "", 5.0, false, [], "OHM", 0)
  }

  /** There is such a history: two equal readings a settle time apart. */
  lemma SomethingSettles()
    ensures CompletesValue(Run([Link(true, 0), Sample(Ohms(0))]).0, Ohms(SETTLE_TIME))
  {
    hide Observe, Run, CompletesValue, Ohms;
    var linked := OFF.(connected := true);
    assert [] + [Link(true, 0)] == [Link(true, 0)];
    assert [Link(true, 0)] + [Sample(Ohms(0))] == [Link(true, 0), Sample(Ohms(0))];
    RunNone();
    RunNext([], Link(true, 0));
    RunNext([Link(true, 0)], Sample(Ohms(0)));
    FirstReading(linked);
    SecondReading(Observe(linked, Ohms(0)).0);
  }

  lemma RunNone()
    ensures Run([]).0 == OFF
  {
  }

  lemma FirstReading(m: Meter)
    requires m == OFF.(connected := true)
    ensures Observe(m, Ohms(0)).0 == m.(seen := true, slot := "OHM", window := [Ohms(0)])
  {
    hide Settle, Steady;
    var m1 := m.(seen := true, slot := "OHM");
    assert DialStep(m, Ohms(0)).0 == m1 by { hide Track; }
    assert HoldStep(m1, Ohms(0)).0 == m1 && RelStep(m1, Ohms(0)).0 == m1;
    FirstWindow();
    hide DialStep, HoldStep, RelStep, Track, Ohms;
  }

  lemma FirstWindow()
    ensures Track([], Ohms(0)) == ([Ohms(0)], None)
  {
    hide Classify, Base, Band, Centre, Nearest, Lowest, Highest, Steady;
    var r := Ohms(0);
    assert Continued([], r) == [r] && Trim([r], r.time - SETTLE_TIME) == [r];
    TooShort(r, [r]);
  }

  lemma TooShort(r: Reading, w: seq<Reading>)
    requires |w| > 0 && r.time - w[0].time < SETTLE_TIME
    ensures Steady(r, w).None?
  {
    hide Classify, Base, Band, Centre, Nearest, Lowest, Highest;
  }

  lemma BandPositive(r: Reading, w: seq<Reading>)
    ensures Band(r, w) > 0.0
  {
    hide Resolution, Centre;
  }

  lemma SecondReading(m: Meter)
    requires m == OFF.(connected := true, seen := true, slot := "OHM", window := [Ohms(0)])
    ensures CompletesValue(m, Ohms(SETTLE_TIME))
  {
    var r := Ohms(SETTLE_TIME);
    OhmsAreValues(0);
    OhmsAreValues(SETTLE_TIME);
    hide Classify, Base, Band, Nearest, Lowest, Highest;
    SamePanel(m, r);
    SecondWindow();
    SameValue(r, [Ohms(0), r]);
  }

  lemma OhmsAreValues(time: int)
    ensures Classify(Ohms(time)) == Value && Base(Ohms(time)) == 5.0
  {
  }

  lemma SamePanel(m: Meter, r: Reading)
    requires m.seen && m.slot == Label(r) && !m.hold && !m.rel && r.flags == []
    ensures Panel(m, r) == m
  {
  }

  lemma SecondWindow()
    ensures Track([Ohms(0)], Ohms(SETTLE_TIME)).0 == [Ohms(0), Ohms(SETTLE_TIME)]
  {
    OhmsAreValues(0);
    OhmsAreValues(SETTLE_TIME);
    hide Classify, Base, Steady;
    assert Continued([Ohms(0)], Ohms(SETTLE_TIME)) == [Ohms(0), Ohms(SETTLE_TIME)];
  }

  lemma {:induction false} Level(first: real, w: seq<Reading>)
    requires forall x :: x in w ==> Base(x) == first
    ensures Lowest(first, w) == first == Highest(first, w)
  {
    hide Base;
    if w != [] { Level(first, w[..|w| - 1]); }
  }

  lemma SameValue(r: Reading, w: seq<Reading>)
    requires r == Ohms(SETTLE_TIME) && w == [Ohms(0), r]
    ensures Steady(r, w).Some?
  {
    hide Nearest, Resolution, Base, Classify, Lowest, Highest, Band, Centre;
    OhmsAreValues(0);
    OhmsAreValues(SETTLE_TIME);
    Level(Base(r), w);
    BandPositive(r, w);
  }

  lemma RunNext(inputs: seq<Input>, i: Input)
    ensures Run(inputs + [i]).0 == Next(Run(inputs).0, i).0
  {
    hide Next;
    assert (inputs + [i])[..|inputs|] == inputs;
  }

  lemma PanelAlike(m: Meter, r: Reading)
    requires Alike(m.window)
    ensures Alike(Panel(m, r).window)
  {
    hide Alike, DialStep, HoldStep, RelStep;
    FlagsAlike(m, r);
    FlagsAlike(DialStep(m, r).0, r);
    FlagsAlike(HoldStep(DialStep(m, r).0, r).0, r);
  }

  lemma SteadyIsClose(window: seq<Reading>, r: Reading)
    requires Alike(window) && Classify(r) == Value && Track(window, r).1.Some?
    ensures var (w, at) := Track(window, r);
      && |w| > 0 && r.time - w[0].time >= SETTLE_TIME && Classify(at.value) == Value && at.value.measures == r.measures
      && forall x :: x in w ==> Abs(Base(x) - Base(at.value)) <= Band(r, w)
  {
    hide Alike, Classify, Band, Trim, Continued, Abs, Base, Lowest, Highest, Nearest;
    SteadyAlike(window, r);
    var (w, at) := Track(window, r);
    forall x | x in w ensures Abs(Base(x) - Base(at.value)) <= Band(r, w) {
      WithinBand(r, w, x, at.value);
    }
  }

  lemma AfterSteady(m: Meter, r: Reading)
    requires m.connected && Alike(Panel(m, r).window)
    requires Classify(r) == Value && Track(Panel(m, r).window, r).1.Some?
    ensures var (w, at) := Track(Panel(m, r).window, r);
      var m' := Observe(m, r).0;
      && m'.window == w && m'.settled == Settle(Panel(m, r).settled, at.value).0
      && m'.settled.Some? && m'.settled.value.measures == r.measures && Classify(m'.settled.value) == Value
      && Abs(Base(at.value) - Base(m'.settled.value)) <= Threshold(m'.settled.value, at.value)
  {
    hide Alike, Classify, Track, Settle, DialStep, HoldStep, RelStep, Abs, Base, Threshold;
    SteadyAlike(Panel(m, r).window, r);
    BaselineFollows(Panel(m, r).settled, Track(Panel(m, r).window, r).1.value);
  }
}
