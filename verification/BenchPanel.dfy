/** What the journal's reader knows of the meter's panel: over every history, the dial position and
    the two flags are those of the newest reading of the connection that is up. */
module BenchPanel {
  import opened Common
  import opened Journal
  import opened Detector
  import opened Bench
  import Drift

  /** Whether the last connection change was a connect. */
  function LinkUp(inputs: seq<Input>): bool {
    if inputs == [] then false
    else
      match inputs[|inputs| - 1]
      case Link(on, _) => on
      case Sample(_) => LinkUp(inputs[..|inputs| - 1])
  }

  /** The newest reading taken while the connection that is up now has been up. */
  function Newest(inputs: seq<Input>): Option<Reading> {
    if inputs == [] || !LinkUp(inputs) then None
    else
      var before := inputs[..|inputs| - 1];
      match inputs[|inputs| - 1]
      case Link(_, _) => Newest(before)
      case Sample(r) => Some(r)
  }

  /** A reading's dial position: its slot, or what it measures when it names none. */
  function Position(r: Reading): string {
    if r.slot == "" then r.measures else r.slot
  }

  /** The flag is set, as far as this reading tells; before any reading it is not. */
  predicate Flagged(r: Option<Reading>, flag: string) {
    r.Some? && flag in r.value.flags
  }

  ghost predicate Shows(m: Meter, up: bool, newest: Option<Reading>) {
    && m.connected == up && m.seen == newest.Some?
    && (newest.Some? ==> m.slot == Position(newest.value))
    && m.hold == Flagged(newest, "hold") && m.rel == Flagged(newest, "rel")
    && (!m.connected ==> m == OFF)
  }

  lemma ObserveShows(m: Meter, newest: Option<Reading>, r: Reading)
    requires Shows(m, true, newest)
    ensures Shows(Observe(m, r).0, true, Some(r))
  {
    hide Track, Settle;
  }

  lemma NewestNext(inputs: seq<Input>, i: Input)
    ensures LinkUp(inputs + [i]) == if i.Link? then i.on else LinkUp(inputs)
    ensures Newest(inputs + [i])
         == if !LinkUp(inputs + [i]) then None else if i.Sample? then Some(i.reading) else Newest(inputs)
  {
    assert (inputs + [i])[..|inputs|] == inputs;
  }

  /** Over every history the detector's panel is that of the newest reading. */
  lemma {:induction false} PanelShowsNewest(inputs: seq<Input>)
    ensures Shows(Run(inputs).0, LinkUp(inputs), Newest(inputs))
  {
    if inputs != [] {
      var before, i := inputs[..|inputs| - 1], inputs[|inputs| - 1];
      assert inputs == before + [i];
      PanelShowsNewest(before);
      NewestNext(before, i);
      var m := Run(before).0;
      hide Observe, Newest, LinkUp, Position;
      if i.Sample? && m.connected { ObserveShows(m, Newest(before), i.reading); }
      if i.Sample? && !m.connected { Drift.OffObserves([], m, i.reading); }
    }
  }

  /** So a reader who replays the whole journal knows the panel of the newest reading: the dial
      position it was taken at, and hold and rel exactly if it carried them. */
  lemma StoryShowsNewest(inputs: seq<Input>)
    ensures var story, newest := Replay(Run(inputs).1), Newest(inputs);
      && story.Some? && story.value.connected == LinkUp(inputs)
      && story.value.dial.Some? == newest.Some?
      && (newest.Some? ==> Position(story.value.dial.value) == Position(newest.value))
      && (story.value.hold <==> newest.Some? && "hold" in newest.value.flags)
      && (story.value.rel <==> newest.Some? && "rel" in newest.value.flags)
  {
    hide Replay, Run, Newest, LinkUp;
    ReplayReproduces(inputs);
    PanelShowsNewest(inputs);
  }

  // ---------------------------------------------------------------- what one reading changes

  function Kinds(edges: seq<Edge>): set<Kind> {
    set e | e in edges :: e.kind
  }

  /** Every edge carries this reading. */
  ghost predicate Told(edges: seq<Edge>, r: Reading) {
    forall e :: e in edges ==> e.reading == Some(r) && e.at == r.time && e.slot == r.slot
  }

  /** The panel edges of a reading tell exactly what it changed since the newest one before it, and
      every edge carries that reading. */
  lemma PanelEdges(inputs: seq<Input>, r: Reading)
    requires LinkUp(inputs)
    ensures var edges, newest := Observe(Run(inputs).0, r).1, Newest(inputs);
      && Told(edges, r)
      && (Dial in Kinds(edges) <==> newest.None? || Position(newest.value) != Position(r))
      && (HoldOn in Kinds(edges) <==> "hold" in r.flags && !Flagged(newest, "hold"))
      && (HoldOff in Kinds(edges) <==> "hold" !in r.flags && Flagged(newest, "hold"))
      && (RelOn in Kinds(edges) <==> "rel" in r.flags && !Flagged(newest, "rel"))
      && (RelOff in Kinds(edges) <==> "rel" !in r.flags && Flagged(newest, "rel"))
  {
    hide Run, Newest, LinkUp, Observe, Kinds, Flagged;
    PanelShowsNewest(inputs);
    ObserveKinds(Run(inputs).0, r);
  }

  lemma KindsJoin(a: seq<Edge>, b: seq<Edge>, r: Reading)
    ensures Kinds(a + b) == Kinds(a) + Kinds(b)
    ensures Told(a, r) && Told(b, r) ==> Told(a + b, r)
  {
  }

  lemma DialKinds(m: Meter, r: Reading)
    ensures var (m', edges) := DialStep(m, r);
      && Told(edges, r) && m'.hold == m.hold && m'.rel == m.rel
      && Kinds(edges) == if !m.seen || m.slot != Position(r) then {Dial} else {}
  {
  }

  lemma HoldKinds(m: Meter, r: Reading)
    ensures var (m', edges) := HoldStep(m, r);
      && Told(edges, r) && m'.rel == m.rel
      && Kinds(edges) == if ("hold" in r.flags) == m.hold then {} else if m.hold then {HoldOff} else {HoldOn}
  {
  }

  lemma RelKinds(m: Meter, r: Reading)
    ensures var (m', edges) := RelStep(m, r);
      && Told(edges, r)
      && Kinds(edges) == if ("rel" in r.flags) == m.rel then {} else if m.rel then {RelOff} else {RelOn}
  {
  }

  lemma SettlingKinds(m: Meter, r: Reading)
    ensures var edges := SettleStep(m, r).1;
      Told(edges, r) && Kinds(edges) <= {Settled, ContactLost, Kind.Overload}
  {
    hide Track, Settle;
    var at := Track(m.window, r).1;
    if at.Some? { SettleKind(m.settled, at.value); }
  }

  lemma ObserveKinds(m: Meter, r: Reading)
    requires m.connected
    ensures var edges := Observe(m, r).1;
      && Told(edges, r)
      && (Dial in Kinds(edges) <==> !m.seen || m.slot != Position(r))
      && (HoldOn in Kinds(edges) <==> "hold" in r.flags && !m.hold)
      && (HoldOff in Kinds(edges) <==> "hold" !in r.flags && m.hold)
      && (RelOn in Kinds(edges) <==> "rel" in r.flags && !m.rel)
      && (RelOff in Kinds(edges) <==> "rel" !in r.flags && m.rel)
  {
    hide DialStep, HoldStep, RelStep, SettleStep, Label, Kinds, Told;
    var (m1, e1) := DialStep(m, r);
    var (m2, e2) := HoldStep(m1, r);
    var (m3, e3) := RelStep(m2, r);
    DialKinds(m, r);
    HoldKinds(m1, r);
    RelKinds(m2, r);
    SettlingKinds(m3, r);
    KindsJoin(e1, e2, r);
    KindsJoin(e1 + e2, e3, r);
    KindsJoin(e1 + e2 + e3, SettleStep(m3, r).1, r);
  }

  /** The window and the baseline survive the panel steps exactly when the dial and rel are as
      they were: a change of hold alone wipes neither. */
  lemma BaselineSurvives(inputs: seq<Input>, r: Reading)
    requires LinkUp(inputs)
    ensures var m, newest := Run(inputs).0, Newest(inputs);
      var p := Drift.Panel(m, r);
      if newest.Some? && Position(newest.value) == Position(r)
         && ("rel" in r.flags <==> "rel" in newest.value.flags)
      then p.window == m.window && p.settled == m.settled
      else p.window == [] && p.settled.None?
  {
    hide Run, Newest, LinkUp;
    PanelShowsNewest(inputs);
    NothingUnseen(inputs);
  }

  /** Before the first reading there is no window and no baseline. */
  lemma {:induction false} NothingUnseen(inputs: seq<Input>)
    ensures var m := Run(inputs).0; !m.seen ==> m.window == [] && m.settled.None? && !m.rel
  {
    hide Track, Settle;
    if inputs != [] {
      NothingUnseen(inputs[..|inputs| - 1]);
    }
  }
}
