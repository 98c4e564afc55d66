/** What the change journal says about the bench, over every history of readings, connects
    and disconnects. */
module Bench {
  import opened Common
  import opened Journal
  import opened Detector

  // ---------------------------------------------------------------- replaying the journal

  /** What a reader of the journal knows: whether the meter is connected, the reading that
      came with the last dial edge, and the two flags. */
  datatype Story = Story(connected: bool, dial: Option<Reading>, hold: bool, rel: bool)

  const START := Story(false, None, false, false)

  /** The edge is a reading's, on the dial position the reader knows. */
  predicate OnDial(s: Story, e: Edge) {
    && s.connected && s.dial.Some? && e.reading.Some?
    && Label(e.reading.value) == Label(s.dial.value) && e.slot == e.reading.value.slot
  }

  /** One edge continues the story, or is out of place. */
  function Tell(s: Story, e: Edge): Option<Story> {
    match e.kind
    case Connected => if s.connected then None else Some(Story(true, None, false, false))
    case Disconnected => if s.connected then Some(START) else None
    case Dial =>
      if s.connected && e.reading.Some? && e.slot == e.reading.value.slot
         && (s.dial.Some? ==> Label(s.dial.value) != Label(e.reading.value))
      then Some(s.(dial := e.reading)) else None
    case HoldOn => if OnDial(s, e) && !s.hold then Some(s.(hold := true)) else None
    case HoldOff => if OnDial(s, e) && s.hold then Some(s.(hold := false)) else None
    case RelOn => if OnDial(s, e) && !s.rel then Some(s.(rel := true)) else None
    case RelOff => if OnDial(s, e) && s.rel then Some(s.(rel := false)) else None
    case Settled => if OnDial(s, e) && Classify(e.reading.value) == Value then Some(s) else None
    case ContactLost => if OnDial(s, e) && Classify(e.reading.value) == Open then Some(s) else None
    case Overload => if OnDial(s, e) && Classify(e.reading.value) == Over then Some(s) else None
  }

  function Replay(log: seq<Edge>): Option<Story> {
    if log == [] then Some(START)
    else
      match Replay(log[..|log| - 1])
      case None => None
      case Some(s) => Tell(s, log[|log| - 1])
  }

  lemma ReplayNext(log: seq<Edge>, e: Edge)
    ensures Replay(log + [e]) == (match Replay(log) case None => None case Some(s) => Tell(s, e))
  {
    assert (log + [e])[..|log|] == log;
  }

  /** The replayed story is the detector's state. */
  ghost predicate Agrees(s: Story, m: Meter) {
    && s.connected == m.connected && s.hold == m.hold && s.rel == m.rel
    && (m.seen <==> s.dial.Some?) && (m.seen ==> m.slot == Label(s.dial.value))
    && (!m.connected ==> m == OFF)
  }

  ghost predicate Tells(log: seq<Edge>, m: Meter) {
    Replay(log).Some? && Agrees(Replay(log).value, m)
  }

  lemma DialTells(log: seq<Edge>, m: Meter, r: Reading)
    requires Tells(log, m) && m.connected
    ensures var (m', edges) := DialStep(m, r); Tells(log + edges, m') && m'.connected && m'.seen && m'.slot == Label(r)
  {
    if DialStep(m, r).1 == [] { assert log + [] == log; } else { ReplayNext(log, Emit(Dial, r)); }
  }

  lemma HoldTells(log: seq<Edge>, m: Meter, r: Reading)
    requires Tells(log, m) && m.connected && m.seen && m.slot == Label(r)
    ensures var (m', edges) := HoldStep(m, r); Tells(log + edges, m') && m'.connected && m'.seen && m'.slot == Label(r)
  {
    if HoldStep(m, r).1 == [] { assert log + [] == log; } else { ReplayNext(log, HoldStep(m, r).1[0]); }
  }

  lemma RelTells(log: seq<Edge>, m: Meter, r: Reading)
    requires Tells(log, m) && m.connected && m.seen && m.slot == Label(r)
    ensures var (m', edges) := RelStep(m, r); Tells(log + edges, m') && m'.connected && m'.seen && m'.slot == Label(r)
  {
    if RelStep(m, r).1 == [] { assert log + [] == log; } else { ReplayNext(log, RelStep(m, r).1[0]); }
  }

  // ---------------------------------------------------------------- the window

  /** A window holds readings of one function and one class. */
  ghost predicate Alike(w: seq<Reading>) {
    forall i, j :: 0 <= i < j < |w| ==> w[i].measures == w[j].measures && Classify(w[i]) == Classify(w[j])
  }

  lemma {:induction false} NearestMember(first: Reading, w: seq<Reading>, centre: real)
    ensures Nearest(first, w, centre) == first || Nearest(first, w, centre) in w
  {
    if w != [] { NearestMember(first, w[..|w| - 1], centre); }
  }

  lemma ContinuedAlike(window: seq<Reading>, r: Reading)
    requires Alike(window)
    ensures var w := Continued(window, r); |w| > 0 && w[|w| - 1] == r && Alike(w)
  {
    hide Classify;
  }

  lemma TrimAlike(window: seq<Reading>, cutoff: int)
    requires Alike(window) && |window| > 0
    ensures var w := Trim(window, cutoff); |w| > 0 && w[|w| - 1] == window[|window| - 1] && Alike(w)
  {
    hide Trim, Classify;
    TrimIsSuffix(window, cutoff);
  }

  lemma SteadyMember(w: seq<Reading>, r: Reading)
    requires |w| > 0 && w[|w| - 1] == r
    ensures Steady(r, w).Some? ==> Steady(r, w).value in w
  {
    hide Nearest, Lowest, Highest, Band, Classify;
    NearestMember(r, w, Centre(r, w));
  }

  lemma MemberAlike(w: seq<Reading>, a: Reading)
    requires Alike(w) && a in w
    ensures a.measures == w[|w| - 1].measures && Classify(a) == Classify(w[|w| - 1])
  {
    hide Classify;
  }

  /** The window ends in the newest reading and stays of one kind, and so is what it settles at. */
  lemma SteadyAlike(window: seq<Reading>, r: Reading)
    requires Alike(window)
    ensures var (w, at) := Track(window, r);
      && |w| > 0 && w[|w| - 1] == r && Alike(w)
      && (at.Some? ==> at.value in w && at.value.measures == r.measures && Classify(at.value) == Classify(r))
  {
    hide Alike, Continued, Trim, Steady, Classify;
    ContinuedAlike(window, r);
    TrimAlike(Continued(window, r), r.time - SETTLE_TIME);
    var (w, at) := Track(window, r);
    SteadyMember(w, r);
    if at.Some? { MemberAlike(w, at.value); }
  }

  // ---------------------------------------------------------------- one observation

  predicate SettlesAs(kind: Kind, c: Class) {
    (kind == Settled && c == Value) || (kind == ContactLost && c == Open) || (kind == Kind.Overload && c == Over)
  }

  lemma SettleKind(settled: Option<Reading>, at: Reading)
    ensures var k := Settle(settled, at).1; k.Some? ==> SettlesAs(k.value, Classify(at))
  {
    hide Classify, MovedBeyondThreshold;
  }

  /** Settling touches the window and the baseline only, and reports at most one edge. */
  lemma SettleEdges(m: Meter, r: Reading)
    requires Alike(m.window)
    ensures var (m', edges) := SettleStep(m, r);
      && Alike(m'.window) && m' == m.(window := m'.window, settled := m'.settled)
      && (edges == [] || exists k :: edges == [Emit(k, r)] && SettlesAs(k, Classify(r)))
  {
    hide Alike, Track, Settle, Classify, SettlesAs;
    SteadyAlike(m.window, r);
    var at := Track(m.window, r).1;
    if at.Some? { SettleKind(m.settled, at.value); }
  }

  lemma SettleTells(log: seq<Edge>, m: Meter, r: Reading)
    requires Tells(log, m) && m.connected && m.seen && m.slot == Label(r) && Alike(m.window)
    ensures var (m', edges) := SettleStep(m, r); Tells(log + edges, m') && Alike(m'.window)
  {
    hide SettleStep, Alike, Replay, Classify;
    SettleEdges(m, r);
    var edges := SettleStep(m, r).1;
    if edges == [] { assert log + [] == log; } else { ReplayNext(log, edges[0]); }
  }

  lemma FourJoin(log: seq<Edge>, a: seq<Edge>, b: seq<Edge>, c: seq<Edge>, d: seq<Edge>)
    ensures log + (a + b + c + d) == log + a + b + c + d
  {
  }

  /** The steps before settling keep the window or empty it. */
  lemma FlagsAlike(m: Meter, r: Reading)
    requires Alike(m.window)
    ensures Alike(DialStep(m, r).0.window) && Alike(HoldStep(m, r).0.window) && Alike(RelStep(m, r).0.window)
  {
    hide Alike, Label;
    EmptyAlike();
  }

  /** The three steps that look at the dial and the flags. */
  lemma PanelTells(log: seq<Edge>, m: Meter, r: Reading)
    requires Tells(log, m) && Alike(m.window) && m.connected
    ensures var (m1, e1) := DialStep(m, r);
      var (m2, e2) := HoldStep(m1, r);
      var (m3, e3) := RelStep(m2, r);
      && Tells(log + e1 + e2 + e3, m3) && m3.connected && m3.seen && m3.slot == Label(r) && Alike(m3.window)
  {
    hide Tells, Alike, DialStep, HoldStep, RelStep, Label;
    var (m1, e1) := DialStep(m, r);
    var (m2, e2) := HoldStep(m1, r);
    DialTells(log, m, r);
    FlagsAlike(m, r);
    HoldTells(log + e1, m1, r);
    FlagsAlike(m1, r);
    RelTells(log + e1 + e2, m2, r);
    FlagsAlike(m2, r);
  }

  lemma ObserveTells(log: seq<Edge>, m: Meter, r: Reading)
    requires Tells(log, m) && Alike(m.window)
    ensures var (m', edges) := Observe(m, r); Tells(log + edges, m') && Alike(m'.window)
  {
    hide Tells, Alike, DialStep, HoldStep, RelStep, SettleStep, Label;
    if m.connected {
      var (m1, e1) := DialStep(m, r);
      var (m2, e2) := HoldStep(m1, r);
      var (m3, e3) := RelStep(m2, r);
      PanelTells(log, m, r);
      SettleTells(log + e1 + e2 + e3, m3, r);
      FourJoin(log, e1, e2, e3, SettleStep(m3, r).1);
    } else {
      assert log + [] == log;
    }
  }

  lemma EmptyAlike()
    ensures Alike([])
  {
  }

  lemma LinkTells(log: seq<Edge>, m: Meter, on: bool, at: int)
    requires Tells(log, m) && Alike(m.window)
    ensures var (m', edges) := SetConnected(m, on, at); Tells(log + edges, m') && Alike(m'.window)
  {
    if on == m.connected { assert log + [] == log; } else { ReplayNext(log, SetConnected(m, on, at).1[0]); }
  }

  /** Over every history: the journal follows its grammar (a connect, then a dial edge before
      any other reading edge, dial edges that differ, flags that alternate starting with on,
      then a disconnect), and replaying the whole log gives the detector's state. */
  lemma {:induction false} ReplayReproduces(inputs: seq<Input>)
    ensures var (m, log) := Run(inputs); Tells(log, m) && Alike(m.window)
  {
    if inputs == [] {
      assert Replay([]) == Some(START);
    } else {
      var (m, log) := Run(inputs[..|inputs| - 1]);
      ReplayReproduces(inputs[..|inputs| - 1]);
      match inputs[|inputs| - 1] {
        case Link(on, at) => LinkTells(log, m, on, at);
        case Sample(r) => ObserveTells(log, m, r);
      }
    }
  }

  // ---------------------------------------------------------------- the grammar of a log

  lemma {:induction false} ReplayPrefix(log: seq<Edge>, k: nat)
    requires Replay(log).Some? && k <= |log|
    ensures Replay(log[..k]).Some?
  {
    if k == |log| {
      assert log[..k] == log;
    } else {
      ReplayPrefix(log[..|log| - 1], k);
      assert log[..|log| - 1][..k] == log[..k];
    }
  }

  /** Between a dial edge and the next one, or the disconnect, the reader stays on that dial. */
  lemma {:induction false} DialStands(log: seq<Edge>, i: nat, j: nat)
    requires i < j <= |log| && Replay(log[..j]).Some? && log[i].kind == Dial
    requires forall k :: i < k < j ==> log[k].kind != Dial && log[k].kind != Disconnected
    ensures var s := Replay(log[..j]).value; s.connected && s.dial == log[i].reading && s.dial.Some?
  {
    hide Classify, Label, Replay;
    ReplayStep(log, j - 1);
    if i < j - 1 { DialStands(log, i, j - 1); }
  }

  lemma ReplayStep(log: seq<Edge>, k: nat)
    requires k < |log| && Replay(log[..k + 1]).Some?
    ensures Replay(log[..k]).Some? && Replay(log[..k + 1]) == Tell(Replay(log[..k]).value, log[k])
  {
    hide Tell;
    assert log[..k + 1][..k] == log[..k];
  }

  /** Consecutive dial edges of one connection name different positions. */
  lemma DialsDiffer(log: seq<Edge>, i: nat, j: nat)
    requires i < j < |log| && Replay(log).Some? && log[i].kind == Dial && log[j].kind == Dial
    requires forall k :: i < k < j ==> log[k].kind != Dial && log[k].kind != Disconnected
    ensures log[i].reading.Some? && log[j].reading.Some?
    ensures Label(log[i].reading.value) != Label(log[j].reading.value)
  {
    hide Classify, Label, Replay;
    ReplayPrefix(log, j);
    ReplayPrefix(log, j + 1);
    ReplayStep(log, j);
    DialStands(log, i, j);
  }

  predicate FlagEdge(rel: bool, k: Kind) {
    if rel then k == RelOn || k == RelOff else k == HoldOn || k == HoldOff
  }

  predicate TurnsOn(rel: bool, k: Kind) {
    k == if rel then RelOn else HoldOn
  }

  function Flag(rel: bool, s: Story): bool {
    if rel then s.rel else s.hold
  }

  /** A flag edge of a log turns its flag, and no other edge but a disconnect does. */
  lemma FlagTurns(log: seq<Edge>, k: nat, rel: bool)
    requires k < |log| && Replay(log[..k + 1]).Some?
    ensures Replay(log[..k]).Some?
    ensures var before, after := Flag(rel, Replay(log[..k]).value), Flag(rel, Replay(log[..k + 1]).value);
      && (FlagEdge(rel, log[k].kind) ==> before == !TurnsOn(rel, log[k].kind) && after == TurnsOn(rel, log[k].kind))
      && (!FlagEdge(rel, log[k].kind) && log[k].kind != Disconnected && log[k].kind != Connected ==> before == after)
  {
    hide Classify, Label, Replay;
    ReplayStep(log, k);
  }

  lemma {:induction false} FlagStands(log: seq<Edge>, i: nat, j: nat, rel: bool)
    requires i < j <= |log| && Replay(log[..j]).Some? && FlagEdge(rel, log[i].kind)
    requires forall k :: i < k < j ==>
      !FlagEdge(rel, log[k].kind) && log[k].kind != Disconnected && log[k].kind != Connected
    ensures Flag(rel, Replay(log[..j]).value) == TurnsOn(rel, log[i].kind)
  {
    hide FlagEdge, TurnsOn, Flag, Replay;
    FlagTurns(log, j - 1, rel);
    if i < j - 1 { FlagStands(log, i, j - 1, rel); }
  }

  /** Within a connection the edges of each flag strictly alternate. */
  lemma FlagsAlternate(log: seq<Edge>, i: nat, j: nat, rel: bool)
    requires i < j < |log| && Replay(log).Some? && FlagEdge(rel, log[i].kind) && FlagEdge(rel, log[j].kind)
    requires forall k :: i < k < j ==>
      !FlagEdge(rel, log[k].kind) && log[k].kind != Disconnected && log[k].kind != Connected
    ensures log[i].kind != log[j].kind
  {
    hide Replay, Flag;
    ReplayPrefix(log, j + 1);
    FlagTurns(log, j, rel);
    FlagStands(log, i, j, rel);
  }

  /** The first edge of a flag after a connect turns it on. */
  lemma {:induction false} FlagsStartOn(log: seq<Edge>, i: nat, j: nat, rel: bool)
    requires i < j < |log| && Replay(log).Some? && log[i].kind == Connected && FlagEdge(rel, log[j].kind)
    requires forall k :: i < k < j ==> !FlagEdge(rel, log[k].kind) && log[k].kind != Disconnected
    ensures TurnsOn(rel, log[j].kind)
  {
    hide Replay, Flag;
    ReplayPrefix(log, j + 1);
    FlagTurns(log, j, rel);
    FlagOffSince(log, i, j, rel);
  }

  lemma {:induction false} FlagOffSince(log: seq<Edge>, i: nat, j: nat, rel: bool)
    requires i < j <= |log| && Replay(log[..j]).Some? && log[i].kind == Connected
    requires forall k :: i < k < j ==> !FlagEdge(rel, log[k].kind) && log[k].kind != Disconnected
    ensures Replay(log[..j]).value.connected && !Flag(rel, Replay(log[..j]).value)
  {
    hide Replay, Classify, Label;
    ReplayStep(log, j - 1);
    if i < j - 1 { FlagOffSince(log, i, j - 1, rel); }
  }

  // ---------------------------------------------------------------- asking for a state

  predicate Wanted(e: Edge, slot: string, nonzero: bool) {
    && (slot == "" || e.slot == slot)
    && ((!nonzero && e.kind == Dial) ||
      (nonzero && e.kind == Settled && e.reading.Some? && e.reading.value.value != 0.0))
  }

  predicate Undoes(e: Edge, nonzero: bool) {
    || e.kind == Disconnected || e.kind == Dial
    || (nonzero && (e.kind == Settled || e.kind == ContactLost || e.kind == Overload))
  }

  /** `lastMatch`: the newest wanted edge that no later one has undone. */
  function LastMatch(edges: seq<Edge>, slot: string, nonzero: bool): Option<Edge> {
    if edges == [] then None
    else
      var e := edges[|edges| - 1];
      if Wanted(e, slot, nonzero) then Some(e)
      else if Undoes(e, nonzero) then None
      else LastMatch(edges[..|edges| - 1], slot, nonzero)
  }

  /** What is asked for stands at `i`: a dial edge that no later dial or disconnect follows, or a
      settled edge with a reading that is not zero, that no later settled, lost-contact, overload,
      dial or disconnect edge follows. */
  ghost predicate StandsAt(edges: seq<Edge>, i: nat, slot: string, nonzero: bool) {
    && i < |edges| && (slot == "" || edges[i].slot == slot)
    && (if nonzero then edges[i].kind == Settled && edges[i].reading.Some? && edges[i].reading.value.value != 0.0
        else edges[i].kind == Dial)
    && (forall j :: i < j < |edges| ==>
          && edges[j].kind != Dial && edges[j].kind != Disconnected
          && (nonzero ==> edges[j].kind != Settled && edges[j].kind != ContactLost && edges[j].kind != Overload))
  }

  /** Exactly what stands is found: there is a match if and only if something stands, and then the
      match is that edge, the only one. */
  lemma {:induction false} MatchExactly(edges: seq<Edge>, slot: string, nonzero: bool)
    ensures var found := LastMatch(edges, slot, nonzero);
      && (found.Some? <==> exists i: nat :: StandsAt(edges, i, slot, nonzero))
      && (forall i: nat :: StandsAt(edges, i, slot, nonzero) ==> found == Some(edges[i]))
  {
    if edges != [] {
      var last := |edges| - 1;
      MatchExactly(edges[..last], slot, nonzero);
      if Wanted(edges[last], slot, nonzero) {
        assert StandsAt(edges, last, slot, nonzero);
      } else if !Undoes(edges[last], nonzero) {
        forall i: nat ensures StandsAt(edges, i, slot, nonzero) <==> StandsAt(edges[..last], i, slot, nonzero) {
          StandsBefore(edges, i, slot, nonzero);
        }
      }
    }
  }

  /** An edge that neither is wanted nor undoes anything changes nothing. */
  lemma StandsBefore(edges: seq<Edge>, i: nat, slot: string, nonzero: bool)
    requires edges != [] && !Wanted(edges[|edges| - 1], slot, nonzero) && !Undoes(edges[|edges| - 1], nonzero)
    ensures StandsAt(edges, i, slot, nonzero) <==> StandsAt(edges[..|edges| - 1], i, slot, nonzero)
  {
    var front := edges[..|edges| - 1];
    if StandsAt(front, i, slot, nonzero) {
      forall j | i < j < |edges|
        ensures edges[j].kind != Dial && edges[j].kind != Disconnected
        ensures nonzero ==> edges[j].kind != Settled && edges[j].kind != ContactLost && edges[j].kind != Overload
      {
        if j < |front| { assert edges[j] == front[j]; }
      }
    }
    if StandsAt(edges, i, slot, nonzero) && i < |front| {
      forall j | i < j < |front|
        ensures front[j].kind != Dial && front[j].kind != Disconnected
        ensures nonzero ==> front[j].kind != Settled && front[j].kind != ContactLost && front[j].kind != Overload
      {
        assert edges[j] == front[j];
      }
    }
  }

  /** After any part of the log, the match names the dial position the story has reached. */
  lemma {:induction false} MatchHolds(before: seq<Edge>, edges: seq<Edge>, slot: string, nonzero: bool)
    requires Replay(before + edges).Some? && LastMatch(edges, slot, nonzero).Some?
    ensures var s, e := Replay(before + edges).value, LastMatch(edges, slot, nonzero).value;
      && e in edges && Wanted(e, slot, nonzero) && e.reading.Some? && e.slot == e.reading.value.slot
      && s.connected && s.dial.Some? && Label(s.dial.value) == Label(e.reading.value)
      && (!nonzero ==> s.dial == e.reading)
  {
    var last := |edges| - 1;
    assert before + edges == (before + edges[..last]) + [edges[last]];
    ReplayNext(before + edges[..last], edges[last]);
    if !Wanted(edges[last], slot, nonzero) {
      MatchHolds(before, edges[..last], slot, nonzero);
    }
  }

  /** The log the journal keeps is the detector's, with numbers. */
  function Plain(log: seq<Edge>): (p: seq<Edge>)
    ensures |p| == |log| && forall i :: 0 <= i < |log| ==> p[i] == log[i].(number := 0)
  {
    seq(|log|, i requires 0 <= i < |log| => log[i].(number := 0))
  }

  lemma TellPlain(s: Story, e: Edge)
    ensures Tell(s, e.(number := 0)) == Tell(s, e)
  {
    hide Classify, Label;
  }

  lemma {:induction false} ReplayPlain(log: seq<Edge>)
    ensures Replay(log) == Replay(Plain(log))
  {
    hide Tell, Plain;
    if log != [] {
      var last := |log| - 1;
      ReplayPlain(log[..last]);
      assert Plain(log)[..last] == Plain(log[..last]);
      if Replay(log[..last]).Some? { TellPlain(Replay(log[..last]).value, log[last]); }
    }
  }

  /** A dial or settled answer is sound: whatever was evicted and whatever the cursor, if
      `lastMatch` succeeds between observations, the meter is connected and its dial is on the
      position of the edge it returns; asked for a slot, it is on that slot. */
  lemma DialAnswerIsSound(inputs: seq<Input>, log: seq<Edge>, base: int, cursor: int, slot: string, nonzero: bool)
    requires Plain(log) == Run(inputs).1
    requires LastMatch(ChangesSince(log, base, cursor).edges, slot, nonzero).Some?
    ensures var m, e := Run(inputs).0, LastMatch(ChangesSince(log, base, cursor).edges, slot, nonzero).value;
      && m.connected && m.seen && e.reading.Some? && m.slot == Label(e.reading.value)
      && (slot != "" ==> m.slot == slot)
  {
    hide ChangesSince, Alike, LastMatch, Run, Replay, Plain;
    ReplayReproduces(inputs);
    ReplayPlain(log);
    var told := ChangesSince(log, base, cursor).edges;
    var before := log[..|log| - |told|];
    assert before + told == log;
    MatchHolds(before, told, slot, nonzero);
  }

  /** With the full history at hand the dial answer is exact: it succeeds if and only if the
      meter is connected and the reading that set the dial came from that slot. */
  lemma {:induction false} DialAnswerIsExact(log: seq<Edge>, slot: string)
    requires Replay(log).Some?
    ensures var s := Replay(log).value;
      LastMatch(log, slot, false).Some? <==> s.connected && s.dial.Some? && (slot == "" || s.dial.value.slot == slot)
  {
    if log != [] {
      var last := |log| - 1;
      ReplayNext(log[..last], log[last]);
      assert log == log[..last] + [log[last]];
      DialAnswerIsExact(log[..last], slot);
      OffHasNoDial(log);
      OffHasNoDial(log[..last]);
    }
  }

  lemma {:induction false} OffHasNoDial(log: seq<Edge>)
    requires Replay(log).Some?
    ensures !Replay(log).value.connected ==> Replay(log).value == START
  {
    if log != [] {
      OffHasNoDial(log[..|log| - 1]);
    }
  }
}
