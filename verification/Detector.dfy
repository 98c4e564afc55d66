/** The multimeter's edge detector: what one reading or one connection change does to its
    state, and which edges come of it. */
module Detector {
  import opened Common
  import opened Journal

  const SETTLE_TIME := 1_000_000_000
  const SETTLE_BAND_COUNTS := 5.0
  const SETTLE_BAND_REL := 0.005
  const CHANGE_COUNTS := 20.0
  const CHANGE_REL := 0.02
  const ZERO_COUNTS := 50.0

  datatype Class = Value | Open | Over

  function Abs(x: real): real {
    if x < 0.0 then -x else x
  }

  function Max(x: real, y: real): real {
    if x < y then y else x
  }

  function Min(x: real, y: real): real {
    if y < x then y else x
  }

  function Pow10(n: nat): (r: real)
    ensures r >= 1.0
  {
    if n == 0 then 1.0 else 10.0 * Pow10(n - 1)
  }

  function Scale(prefix: string): (s: real)
    ensures s > 0.0
  {
    if prefix == "n" then 0.000000001
    else if prefix == "µ" then 0.000001
    else if prefix == "m" then 0.001
    else if prefix == "k" then 1000.0
    else if prefix == "M" then 1000000.0
    else if prefix == "G" then 1000000000.0
    else 1.0
  }

  /** The reading in its unprefixed unit. */
  function Base(r: Reading): real {
    r.value * Scale(r.prefix)
  }

  /** One display count in the unprefixed unit. */
  function Resolution(r: Reading): (c: real)
    ensures c > 0.0
  {
    (1.0 / Pow10(r.decimals)) * Scale(r.prefix)
  }

  function Classify(r: Reading): Class {
    if r.overload then Over
    else if r.slot != "OHM" && Abs(r.value) * Pow10(r.decimals) <= ZERO_COUNTS then Open
    else Value
  }

  function Threshold(prev: Reading, r: Reading): real {
    Max(CHANGE_COUNTS * Resolution(r), CHANGE_REL * Abs(Base(prev)))
  }

  predicate MovedBeyondThreshold(prev: Reading, r: Reading) {
    Abs(Base(r) - Base(prev)) > Threshold(prev, r)
  }

  function Label(r: Reading): string {
    if r.slot != "" then r.slot else r.measures
  }

  // ---------------------------------------------------------------- state

  datatype Meter = Meter(connected: bool, seen: bool, slot: string, hold: bool, rel: bool,
                         window: seq<Reading>, settled: Option<Reading>)

  const OFF := Meter(false, false, "", false, false, [], None)

  function Reset(m: Meter): Meter {
    m.(window := [], settled := None)
  }

  /** Edges are numbered by the journal; here they carry 0. */
  function Emit(kind: Kind, r: Reading): Edge {
    Edge(0, kind, r.time, r.slot, Some(r))
  }

  function SetConnected(m: Meter, on: bool, at: int): (Meter, seq<Edge>) {
    if on == m.connected then (m, [])
    else if on then (m.(connected := true), [Edge(0, Connected, at, "", None)])
    else (OFF, [Edge(0, Disconnected, at, "", None)])
  }

  // ---------------------------------------------------------------- steadiness window

  function Continued(window: seq<Reading>, r: Reading): seq<Reading> {
    if |window| > 0 && (window[|window| - 1].measures != r.measures || Classify(window[|window| - 1]) != Classify(r))
    then [r] else window + [r]
  }

  /** Keep one reading at or before the cutoff. */
  function Trim(window: seq<Reading>, cutoff: int): (w: seq<Reading>)
    ensures |w| <= |window| && (|window| > 0 ==> |w| > 0)
  {
    if |window| > 1 && window[1].time <= cutoff then Trim(window[1..], cutoff) else window
  }

  /** What is cut is cut from the front. */
  lemma {:induction false} TrimIsSuffix(window: seq<Reading>, cutoff: int)
    ensures Trim(window, cutoff) == window[|window| - |Trim(window, cutoff)|..]
  {
    if |window| > 1 && window[1].time <= cutoff {
      TrimIsSuffix(window[1..], cutoff);
    }
  }

  function Lowest(first: real, w: seq<Reading>): real {
    if w == [] then first else Min(Lowest(first, w[..|w| - 1]), Base(w[|w| - 1]))
  }

  function Highest(first: real, w: seq<Reading>): real {
    if w == [] then first else Max(Highest(first, w[..|w| - 1]), Base(w[|w| - 1]))
  }

  function Nearest(first: Reading, w: seq<Reading>, centre: real): Reading {
    if w == [] then first
    else
      var best := Nearest(first, w[..|w| - 1], centre);
      if Abs(Base(w[|w| - 1]) - centre) < Abs(Base(best) - centre) then w[|w| - 1] else best
  }

  function Centre(r: Reading, w: seq<Reading>): real {
    (Lowest(Base(r), w) + Highest(Base(r), w)) / 2.0
  }

  function Band(r: Reading, w: seq<Reading>): real {
    Max(SETTLE_BAND_COUNTS * Resolution(r), SETTLE_BAND_REL * Abs(Centre(r, w)))
  }

  /** The reading nearest the centre of a window that has held steady long enough. */
  function Steady(r: Reading, w: seq<Reading>): Option<Reading>
    requires |w| > 0
  {
    if r.time - w[0].time < SETTLE_TIME then None
    else if Classify(r) == Value && Highest(Base(r), w) - Lowest(Base(r), w) > Band(r, w) then None
    else Some(Nearest(r, w, Centre(r, w)))
  }

  function Track(window: seq<Reading>, r: Reading): (seq<Reading>, Option<Reading>) {
    var w := Trim(Continued(window, r), r.time - SETTLE_TIME);
    (w, Steady(r, w))
  }

  // ---------------------------------------------------------------- settling

  /** The new baseline, and the edge it is reported with. */
  function Settle(settled: Option<Reading>, at: Reading): (Option<Reading>, Option<Kind>) {
    match Classify(at)
    case Over => (Some(at), if settled.Some? && settled.value.overload then None else Some(Kind.Overload))
    case Open => (Some(at), if settled.Some? && Classify(settled.value) == Value then Some(ContactLost) else None)
    case Value =>
      if settled.None? || Classify(settled.value) != Value || settled.value.measures != at.measures
         || MovedBeyondThreshold(settled.value, at)
      then (Some(at), Some(Settled))
      else (settled, None)
  }

  // ---------------------------------------------------------------- one reading

  function DialStep(m: Meter, r: Reading): (Meter, seq<Edge>) {
    if !m.seen || Label(r) != m.slot then (Reset(m.(seen := true, slot := Label(r))), [Emit(Dial, r)]) else (m, [])
  }

  function HoldStep(m: Meter, r: Reading): (Meter, seq<Edge>) {
    var on := "hold" in r.flags;
    if on == m.hold then (m, []) else (m.(hold := on), [Emit(if on then HoldOn else HoldOff, r)])
  }

  function RelStep(m: Meter, r: Reading): (Meter, seq<Edge>) {
    var on := "rel" in r.flags;
    if on == m.rel then (m, []) else (Reset(m.(rel := on)), [Emit(if on then RelOn else RelOff, r)])
  }

  function SettleStep(m: Meter, r: Reading): (Meter, seq<Edge>) {
    var (w, at) := Track(m.window, r);
    if at.None? then (m.(window := w), [])
    else
      var (settled, kind) := Settle(m.settled, at.value);
      (m.(window := w, settled := settled), if kind.Some? then [Emit(kind.value, r)] else [])
  }

  function Observe(m: Meter, r: Reading): (Meter, seq<Edge>) {
    if !m.connected then (m, [])
    else
      var (m1, e1) := DialStep(m, r);
      var (m2, e2) := HoldStep(m1, r);
      var (m3, e3) := RelStep(m2, r);
      var (m4, e4) := SettleStep(m3, r);
      (m4, e1 + e2 + e3 + e4)
  }

  // ---------------------------------------------------------------- runs

  datatype Input = Link(on: bool, at: int) | Sample(reading: Reading)

  function Next(m: Meter, i: Input): (Meter, seq<Edge>) {
    match i
    case Link(on, at) => SetConnected(m, on, at)
    case Sample(r) => Observe(m, r)
  }

  /** The state and the whole log after a history of inputs. */
  function Run(inputs: seq<Input>): (Meter, seq<Edge>) {
    if inputs == [] then (OFF, [])
    else
      var (m, log) := Run(inputs[..|inputs| - 1]);
      var (m', edges) := Next(m, inputs[|inputs| - 1]);
      (m', log + edges)
  }
}
