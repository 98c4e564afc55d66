/** The multimeter's one-slot watch as a state machine. Its steps are the critical sections of
    the slot and of the journal, and the waits between them, so every interleaving of arming,
    stopping, edges and timers is a run. */
module Watch {
  import opened Common
  import opened Journal
  import opened Bench

  datatype Want = DialOn(slot: string) | SettledOn(slot: string) | AnyEdge

  /** What a watch types into the terminal: the edge that fired it, the state it found the
      meter already in, or that its time ran out. */
  datatype Line = Matched(edge: Edge) | AlreadySo | TimedOut

  /** Where a watching goroutine is. `Waiting` remembers how long the log was at its look. */
  datatype Phase =
    | Taking
    | Looking(channel: nat)
    | Waiting(channel: nat, looked: nat)
    | Firing(line: Line)
    | Delivering(line: Line)
    | Finished

  datatype Watcher = Watcher(want: Want, cursor: int, phase: Phase, cancelled: bool, delivered: seq<Line>)

  datatype Board = Board(log: seq<Edge>, base: int, changed: Option<nat>, channels: nat, closed: set<nat>)

  datatype State = State(board: Board, cur: Option<nat>, watchers: seq<Watcher>)

  // ---------------------------------------------------------------- steps

  /** The journal's own answer to a watch: no claim about it is made when the condition may
      hold without an edge. */
  function JournalMatch(b: Board, want: Want, cursor: int): Option<Edge> {
    var edges := ChangesSince(b.log, b.base, cursor).edges;
    match want
    case DialOn(slot) => LastMatch(edges, slot, false)
    case SettledOn(slot) => LastMatch(edges, slot, true)
    case AnyEdge => if |edges| > 0 then Some(edges[0]) else None
  }

  datatype Step =
    | AddEdge(edge: Edge)
    | Arm(want: Want, cursor: int)
    | Stop
    | TakeChannel(i: nat)
    | Look(i: nat, holdsNow: bool)
    | WakeCancelled(i: nat)
    | WakeTimer(i: nat)
    | WakeChanged(i: nat)
    | Release(i: nat)
    | Deliver(i: nat)

  predicate Enabled(s: State, step: Step) {
    match step
    case AddEdge(e) => e.number == s.board.base + |s.board.log| + 1
    case Arm(_, cursor) => s.board.base <= cursor <= s.board.base + |s.board.log|
    case Stop => true
    case TakeChannel(i) => i < |s.watchers| && s.watchers[i].phase.Taking?
    case Look(i, holdsNow) =>
      i < |s.watchers| && s.watchers[i].phase.Looking? && !(holdsNow && s.watchers[i].want.AnyEdge?)
    case WakeCancelled(i) => i < |s.watchers| && s.watchers[i].phase.Waiting? && s.watchers[i].cancelled
    case WakeTimer(i) => i < |s.watchers| && s.watchers[i].phase.Waiting?
    case WakeChanged(i) =>
      i < |s.watchers| && s.watchers[i].phase.Waiting? && s.watchers[i].phase.channel in s.board.closed
    case Release(i) => i < |s.watchers| && s.watchers[i].phase.Firing?
    case Deliver(i) => i < |s.watchers| && s.watchers[i].phase.Delivering?
  }

  /** Adding an edge closes the channel the waiters hold. */
  function Added(b: Board, e: Edge): Board {
    b.(log := b.log + [e], changed := None,
       closed := if b.changed.Some? then b.closed + {b.changed.value} else b.closed)
  }

  function Taken(b: Board): (Board, nat) {
    if b.changed.Some? then (b, b.changed.value)
    else (b.(changed := Some(b.channels), channels := b.channels + 1), b.channels)
  }

  /** `swap`: the displaced watch is cancelled. */
  function Displace(cur: Option<nat>, watchers: seq<Watcher>): (w: seq<Watcher>)
    ensures |w| == |watchers|
  {
    if cur.Some? && cur.value < |watchers| then watchers[cur.value := watchers[cur.value].(cancelled := true)]
    else watchers
  }

  function Looked(b: Board, w: Watcher, holdsNow: bool): Phase
    requires w.phase.Looking?
  {
    var found := JournalMatch(b, w.want, w.cursor);
    if found.Some? then Firing(Matched(found.value))
    else if holdsNow then Firing(AlreadySo)
    else Waiting(w.phase.channel, |b.log|)
  }

  function At(s: State, i: nat, phase: Phase): State
    requires i < |s.watchers|
  {
    s.(watchers := s.watchers[i := s.watchers[i].(phase := phase)])
  }

  function Apply(s: State, step: Step): State
    requires Enabled(s, step)
  {
    match step
    case AddEdge(e) => s.(board := Added(s.board, e))
    case Arm(want, cursor) =>
      s.(cur := Some(|s.watchers|),
         watchers := Displace(s.cur, s.watchers) + [Watcher(want, cursor, Taking, false, [])])
    case Stop => s.(cur := None, watchers := Displace(s.cur, s.watchers))
    case TakeChannel(i) =>
      var (b, c) := Taken(s.board);
      At(s, i, Looking(c)).(board := b)
    case Look(i, holdsNow) => At(s, i, Looked(s.board, s.watchers[i], holdsNow))
    case WakeCancelled(i) => At(s, i, Finished)
    case WakeTimer(i) => At(s, i, Firing(TimedOut))
    case WakeChanged(i) => At(s, i, Taking)
    case Release(i) =>
      if s.cur == Some(i) then At(s, i, Delivering(s.watchers[i].phase.line)).(cur := None) else At(s, i, Finished)
    case Deliver(i) =>
      var w := s.watchers[i];
      s.(watchers := s.watchers[i := w.(phase := Finished, delivered := w.delivered + [w.phase.line])])
  }

  ghost predicate Legal(s: State, steps: seq<Step>)
    decreases |steps|
  {
    steps == [] || (Enabled(s, steps[0]) && Legal(Apply(s, steps[0]), steps[1..]))
  }

  ghost function After(s: State, steps: seq<Step>): State
    requires Legal(s, steps)
    decreases |steps|
  {
    if steps == [] then s else After(Apply(s, steps[0]), steps[1..])
  }

  function Start(base: int): State {
    State(Board([], base, None, 0, {}), None, [])
  }

  ghost predicate Reachable(s: State) {
    exists base: int, steps: seq<Step> :: Legal(Start(base), steps) && After(Start(base), steps) == s
  }

  // ---------------------------------------------------------------- the invariant

  predicate BoardOk(b: Board) {
    && (b.changed.Some? ==> b.changed.value < b.channels && b.changed.value !in b.closed)
    && forall c :: c in b.closed ==> c < b.channels
  }

  /** An open channel in hand is the one the next edge will close. */
  predicate ChannelOk(b: Board, w: Watcher) {
    && (w.phase.Looking? || w.phase.Waiting? ==> w.phase.channel in b.closed || b.changed == Some(w.phase.channel))
    && (w.phase.Waiting? && w.phase.channel !in b.closed ==>
          w.phase.looked == |b.log| && JournalMatch(b, w.want, w.cursor).None?)
  }

  /** Still to decide whether it speaks. */
  predicate Active(p: Phase) {
    p.Taking? || p.Looking? || p.Waiting? || p.Firing?
  }

  /** A watch holds the slot exactly while it is active and nothing has displaced it; once
      displaced it is silent, and it speaks at most once. */
  predicate SlotOk(cur: Option<nat>, i: nat, w: Watcher) {
    && (cur == Some(i) <==> !w.cancelled && Active(w.phase))
    && (w.cancelled ==> !w.phase.Delivering? && w.delivered == [])
    && (Active(w.phase) || w.phase.Delivering? ==> w.delivered == [])
    && (w.phase.Finished? && !w.cancelled ==> |w.delivered| == 1)
    && |w.delivered| <= 1
  }

  ghost predicate Inv(s: State) {
    && BoardOk(s.board)
    && (s.cur.Some? ==> s.cur.value < |s.watchers|)
    && (forall i :: 0 <= i < |s.watchers| ==> ChannelOk(s.board, s.watchers[i]))
    && (forall i :: 0 <= i < |s.watchers| ==> SlotOk(s.cur, i, s.watchers[i]))
  }

  lemma BoardKept(s: State, step: Step)
    requires Inv(s) && Enabled(s, step)
    ensures BoardOk(Apply(s, step).board)
    ensures var s' := Apply(s, step); s'.cur.Some? ==> s'.cur.value < |s'.watchers|
  {
    hide ChannelOk, SlotOk, Looked;
  }

  /** What a step does to the channels other watchers hold. */
  lemma ChannelsKept(s: State, step: Step, w: Watcher)
    requires BoardOk(s.board) && ChannelOk(s.board, w) && Enabled(s, step)
    ensures ChannelOk(Apply(s, step).board, w)
  {
    hide Looked, Displace;
    if step.TakeChannel? { SameMatch(s.board, Taken(s.board).0, w.want, w.cursor); }
    hide JournalMatch;
  }

  lemma SameMatch(b: Board, b': Board, want: Want, cursor: int)
    requires b'.log == b.log && b'.base == b.base
    ensures JournalMatch(b', want, cursor) == JournalMatch(b, want, cursor)
  {
  }

  lemma NewPhaseOk(s: State, step: Step, i: nat)
    requires BoardOk(s.board) && Enabled(s, step) && i < |s.watchers| && ChannelOk(s.board, s.watchers[i])
    ensures ChannelOk(Apply(s, step).board, Apply(s, step).watchers[i])
  {
    var s' := Apply(s, step);
    hide JournalMatch;
    ChannelsKept(s, step, s.watchers[i]);
  }

  lemma SlotKept(s: State, step: Step, i: nat)
    requires (s.cur.Some? ==> s.cur.value < |s.watchers|) && Enabled(s, step)
    requires i < |s.watchers| && SlotOk(s.cur, i, s.watchers[i])
    ensures SlotOk(Apply(s, step).cur, i, Apply(s, step).watchers[i])
  {
    hide JournalMatch, Added, Taken;
  }

  lemma Keeps(s: State, step: Step)
    requires Inv(s) && Enabled(s, step)
    ensures Inv(Apply(s, step)) && |s.watchers| <= |Apply(s, step).watchers|
  {
    hide ChannelOk, SlotOk, BoardOk;
    var s' := Apply(s, step);
    BoardKept(s, step);
    forall i | 0 <= i < |s'.watchers| ensures ChannelOk(s'.board, s'.watchers[i]) && SlotOk(s'.cur, i, s'.watchers[i]) {
      if i < |s.watchers| {
        NewPhaseOk(s, step, i);
        SlotKept(s, step, i);
      } else {
        NewWatcherOk(s, step);
      }
    }
  }

  lemma NewWatcherOk(s: State, step: Step)
    requires step.Arm? && Enabled(s, step)
    ensures var s' := Apply(s, step);
      |s'.watchers| == |s.watchers| + 1 && ChannelOk(s'.board, s'.watchers[|s.watchers|])
      && SlotOk(s'.cur, |s.watchers|, s'.watchers[|s.watchers|])
  {
  }

  lemma {:induction false} InvAfter(s: State, steps: seq<Step>)
    requires Inv(s) && Legal(s, steps)
    ensures Inv(After(s, steps)) && |s.watchers| <= |After(s, steps).watchers|
    decreases |steps|
  {
    hide Inv, Apply, Enabled;
    if steps != [] {
      Keeps(s, steps[0]);
      InvAfter(Apply(s, steps[0]), steps[1..]);
    }
  }

  lemma ReachableInv(s: State)
    requires Reachable(s)
    ensures Inv(s)
  {
    var base, steps :| Legal(Start(base), steps) && After(Start(base), steps) == s;
    InvAfter(Start(base), steps);
  }

  // ---------------------------------------------------------------- theorems

  /** No lost wake-up: a watcher blocked on a channel nobody has closed has looked at every edge
      now in the journal, and none of them is what it waits for. */
  lemma BlockedHasSeenAll(s: State, i: nat)
    requires Reachable(s) && i < |s.watchers| && s.watchers[i].phase.Waiting?
    requires s.watchers[i].phase.channel !in s.board.closed
    ensures s.watchers[i].phase.looked == |s.board.log|
    ensures JournalMatch(s.board, s.watchers[i].want, s.watchers[i].cursor).None?
  {
    hide JournalMatch, Reachable;
    ReachableInv(s);
  }

  /** ... and the next edge, whatever it is, wakes it. */
  lemma NextEdgeWakes(s: State, e: Edge, i: nat)
    requires Reachable(s) && Enabled(s, AddEdge(e)) && i < |s.watchers| && s.watchers[i].phase.Waiting?
    ensures Enabled(Apply(s, AddEdge(e)), WakeChanged(i))
  {
    hide JournalMatch, Reachable;
    ReachableInv(s);
  }

  /** At most one watch is armed, and each has spoken at most once. */
  lemma OneArmed(s: State, i: nat, j: nat)
    requires Reachable(s) && i < |s.watchers| && j < |s.watchers|
    ensures |s.watchers[i].delivered| <= 1
    ensures (!s.watchers[i].cancelled && Active(s.watchers[i].phase)
             && !s.watchers[j].cancelled && Active(s.watchers[j].phase)) ==> i == j
  {
    hide ChannelOk, Reachable;
    ReachableInv(s);
  }

  /** Every watch ends in exactly one way: it still holds the slot, it was displaced and said
      nothing, or it fired and its line is on its way or delivered once. */
  lemma EveryWatchAccounted(s: State, i: nat)
    requires Reachable(s) && i < |s.watchers|
    ensures var w := s.watchers[i];
      var armed, displaced, fired := s.cur == Some(i), w.cancelled, w.phase.Delivering? || |w.delivered| == 1;
      (armed || displaced || fired) && !(armed && displaced) && !(armed && fired) && !(displaced && fired)
  {
    hide ChannelOk, Reachable;
    ReachableInv(s);
  }

  lemma {:induction false} CancelledStays(s: State, steps: seq<Step>, i: nat)
    requires Inv(s) && Legal(s, steps) && i < |s.watchers| && s.watchers[i].cancelled
    ensures i < |After(s, steps).watchers| && After(s, steps).watchers[i].cancelled
    decreases |steps|
  {
    hide Inv, JournalMatch, Added, Taken;
    if steps != [] {
      Keeps(s, steps[0]);
      CancelledStays(Apply(s, steps[0]), steps[1..], i);
    }
  }

  /** A displaced watch never delivers, now or later. */
  lemma DisplacedNeverDelivers(s: State, steps: seq<Step>, i: nat)
    requires Reachable(s) && Legal(s, steps) && i < |s.watchers| && s.watchers[i].cancelled
    ensures var s' := After(s, steps);
      i < |s'.watchers| && s'.watchers[i].delivered == [] && !s'.watchers[i].phase.Delivering?
  {
    hide ChannelOk, Reachable, Apply, Enabled, After, Legal;
    ReachableInv(s);
    CancelledStays(s, steps, i);
    InvAfter(s, steps);
  }

  /** Stopping, or arming another, displaces the watch in the slot. */
  lemma SwapDisplaces(s: State, step: Step, i: nat)
    requires Reachable(s) && s.cur == Some(i) && (step.Stop? || step.Arm?) && Enabled(s, step)
    ensures i < |s.watchers| && Apply(s, step).watchers[i].cancelled && Apply(s, step).cur != Some(i)
  {
    hide ChannelOk, Reachable;
    ReachableInv(s);
  }

  predicate Fired(w: Watcher, line: Line) {
    w.phase == Delivering(line) || w.delivered == [line]
  }

  lemma FiredStep(s: State, step: Step, i: nat, line: Line)
    requires Inv(s) && Enabled(s, step) && i < |s.watchers| && Fired(s.watchers[i], line)
    ensures i < |Apply(s, step).watchers| && Fired(Apply(s, step).watchers[i], line)
  {
    hide ChannelOk, BoardOk, JournalMatch, Added, Taken;
    assert SlotOk(s.cur, i, s.watchers[i]);
  }

  /** Once released, a watch's line is not cut off: whatever is stopped or armed afterwards, that
      line is still on its way or was delivered, and it is never displaced. */
  lemma {:induction false} FiredIsNotCutOff(s: State, steps: seq<Step>, i: nat, line: Line)
    requires Inv(s) && Legal(s, steps) && i < |s.watchers| && Fired(s.watchers[i], line)
    ensures var s' := After(s, steps); i < |s'.watchers| && Fired(s'.watchers[i], line) && !s'.watchers[i].cancelled
    decreases |steps|
  {
    hide Apply, Enabled, ChannelOk;
    if steps != [] {
      FiredStep(s, steps[0], i, line);
      hide Fired, Inv;
      Keeps(s, steps[0]);
      FiredIsNotCutOff(Apply(s, steps[0]), steps[1..], i, line);
    } else {
      assert SlotOk(s.cur, i, s.watchers[i]);
    }
  }

  // ---------------------------------------------------------------- what a watch says

  /** The edge is what the watch waits for. */
  predicate Fits(want: Want, e: Edge) {
    match want
    case DialOn(slot) => e.kind == Dial && (slot == "" || e.slot == slot)
    case SettledOn(slot) =>
      && e.kind == Settled && e.reading.Some? && e.reading.value.value != 0.0 && (slot == "" || e.slot == slot)
    case AnyEdge => true
  }

  /** A line that names an edge names one that happened after the watch's cursor and fits. */
  ghost predicate TrueLine(log: seq<Edge>, want: Want, cursor: int, line: Line) {
    line.Matched? ==> line.edge in log && cursor < line.edge.number && Fits(want, line.edge)
  }

  ghost predicate Truthful(b: Board, w: Watcher) {
    && b.base <= w.cursor <= b.base + |b.log|
    && (w.phase.Firing? || w.phase.Delivering? ==> TrueLine(b.log, w.want, w.cursor, w.phase.line))
    && (forall k :: 0 <= k < |w.delivered| ==> TrueLine(b.log, w.want, w.cursor, w.delivered[k]))
  }

  ghost predicate AllTruthful(s: State) {
    Numbered(s.board.log, s.board.base) && forall i :: 0 <= i < |s.watchers| ==> Truthful(s.board, s.watchers[i])
  }

  /** The journal's answer fits, and is after the cursor. */
  lemma MatchIsTrue(b: Board, want: Want, cursor: int)
    requires Numbered(b.log, b.base) && b.base <= cursor <= b.base + |b.log|
    ensures var found := JournalMatch(b, want, cursor);
      found.Some? ==> found.value in b.log && cursor < found.value.number && Fits(want, found.value)
  {
    hide LastMatch;
    var edges := ChangesSince(b.log, b.base, cursor).edges;
    var from := |b.log| - |edges|;
    assert forall i :: 0 <= i < |edges| ==> edges[i] == b.log[from + i];
    if want.DialOn? { MatchExactly(edges, want.slot, false); }
    if want.SettledOn? { MatchExactly(edges, want.slot, true); }
  }

  lemma LongerIsTrue(b: Board, b': Board, w: Watcher)
    requires Truthful(b, w) && b.base == b'.base && b.log <= b'.log
    ensures Truthful(b', w)
  {
    assert forall e :: e in b.log ==> e in b'.log;
  }

  lemma TruthfulStep(s: State, step: Step, i: nat)
    requires AllTruthful(s) && Enabled(s, step) && i < |s.watchers|
    ensures i < |Apply(s, step).watchers| && Truthful(Apply(s, step).board, Apply(s, step).watchers[i])
  {
    hide JournalMatch, TrueLine, Numbered;
    var w := s.watchers[i];
    assert Truthful(s.board, w);
    match step {
      case AddEdge(e) => LongerIsTrue(s.board, Added(s.board, e), w);
      case Look(j, holdsNow) => if j == i { LookedIsTrue(s.board, w, holdsNow); }
      case WakeTimer(_) => TimeoutIsTrue(s.board.log, w.want, w.cursor);
      case _ =>
    }
  }

  lemma TimeoutIsTrue(log: seq<Edge>, want: Want, cursor: int)
    ensures TrueLine(log, want, cursor, TimedOut)
  {
  }

  lemma LookedIsTrue(b: Board, w: Watcher, holdsNow: bool)
    requires w.phase.Looking? && Numbered(b.log, b.base) && b.base <= w.cursor <= b.base + |b.log|
    ensures var p := Looked(b, w, holdsNow); p.Firing? ==> TrueLine(b.log, w.want, w.cursor, p.line)
  {
    hide JournalMatch;
    MatchIsTrue(b, w.want, w.cursor);
  }

  lemma AllTruthfulStep(s: State, step: Step)
    requires AllTruthful(s) && Enabled(s, step)
    ensures AllTruthful(Apply(s, step))
  {
    hide Truthful, JournalMatch;
    var s' := Apply(s, step);
    forall i | 0 <= i < |s'.watchers| ensures Truthful(s'.board, s'.watchers[i]) {
      if i < |s.watchers| { TruthfulStep(s, step, i); } else { NewIsTruthful(s.board, step.want, step.cursor); }
    }
  }

  lemma NewIsTruthful(b: Board, want: Want, cursor: int)
    requires b.base <= cursor <= b.base + |b.log|
    ensures Truthful(b, Watcher(want, cursor, Taking, false, []))
  {
  }

  lemma {:induction false} AllTruthfulAfter(s: State, steps: seq<Step>)
    requires AllTruthful(s) && Legal(s, steps)
    ensures AllTruthful(After(s, steps))
    decreases |steps|
  {
    hide AllTruthful, Apply, Enabled;
    if steps != [] {
      AllTruthfulStep(s, steps[0]);
      AllTruthfulAfter(Apply(s, steps[0]), steps[1..]);
    }
  }

  /** Over every run, a watch that speaks of an edge speaks of one that came after its cursor and is
      what it was armed for. */
  lemma DeliveredIsTrue(s: State, i: nat, line: Line)
    requires Reachable(s) && i < |s.watchers| && Fired(s.watchers[i], line) && line.Matched?
    ensures line.edge in s.board.log && s.watchers[i].cursor < line.edge.number
    ensures Fits(s.watchers[i].want, line.edge)
  {
    hide Legal, After, Fits;
    var base, steps :| Legal(Start(base), steps) && After(Start(base), steps) == s;
    AllTruthfulAfter(Start(base), steps);
    var w := s.watchers[i];
    assert Truthful(s.board, w);
    if w.delivered == [line] { assert w.delivered[0] == line; }
  }

  /** And a watcher blocked on an open channel has nothing to say yet: nothing the journal still
      holds from after its cursor stands as what it waits for. */
  lemma BlockedHasNothing(s: State, i: nat, k: nat)
    requires Reachable(s) && i < |s.watchers| && s.watchers[i].phase.Waiting?
    requires s.watchers[i].phase.channel !in s.board.closed
    ensures var edges := ChangesSince(s.board.log, s.board.base, s.watchers[i].cursor).edges;
      match s.watchers[i].want
      case DialOn(slot) => !StandsAt(edges, k, slot, false)
      case SettledOn(slot) => !StandsAt(edges, k, slot, true)
      case AnyEdge => edges == []
  {
    hide Reachable, LastMatch, ChangesSince, StandsAt;
    BlockedHasSeenAll(s, i);
    var edges := ChangesSince(s.board.log, s.board.base, s.watchers[i].cursor).edges;
    match s.watchers[i].want {
      case DialOn(slot) => MatchExactly(edges, slot, false);
      case SettledOn(slot) => MatchExactly(edges, slot, true);
      case AnyEdge =>
    }
  }

  // ---------------------------------------------------------------- arming

  /** The cursor a watch is armed with: without a usable one only what happens from now on
      counts, and a cursor from another run is not usable. */
  function StartCursor(b: Board, asked: Option<int>): (c: int) {
    if asked.Some? && asked.value != 0 && !ChangesSince(b.log, b.base, asked.value).reset then asked.value
    else ChangesSince(b.log, b.base, 0).cursor
  }

  /** A watch always starts from a place in this run, and one armed without a usable cursor
      does not fire on anything that happened before. */
  lemma NothingReplayed(b: Board, asked: Option<int>, want: Want)
    ensures b.base <= StartCursor(b, asked) <= b.base + |b.log|
    ensures (asked.None? || asked.value == 0 || Foreign(b.log, b.base, asked.value)) ==>
      JournalMatch(b, want, StartCursor(b, asked)).None?
    ensures (asked.Some? && asked.value != 0 && !Foreign(b.log, b.base, asked.value)) ==>
      StartCursor(b, asked) == asked.value
  {
  }

  // ---------------------------------------------------------------- the slot

  class ArmedWatch {
    const want: Want
    const cursor: int
    var cancelled: bool

    constructor (want: Want, cursor: int)
      ensures this.want == want && this.cursor == cursor && !cancelled
    {
      this.want, this.cursor, cancelled := want, cursor, false;
    }
  }

  /** The slot itself. `armed` remembers every watch it has held, so its promise can be said of
      all of them. */
  class WatchState {
    var cur: ArmedWatch?
    ghost var armed: seq<ArmedWatch>
    ghost var released: set<ArmedWatch>

    /** Of all the watches armed so far, exactly those that neither fired nor hold the slot have
        been cancelled. */
    ghost predicate Valid()
      reads this, armed
    {
      && (forall i, j :: 0 <= i < j < |armed| ==> armed[i] != armed[j])
      && (cur != null ==> cur in armed && cur !in released)
      && (forall a :: a in armed ==> (a.cancelled <==> a != cur && a !in released))
      && (forall a :: a in released ==> a in armed)
    }

    constructor ()
      ensures Valid() && cur == null && armed == [] && released == {}
    {
      cur, armed, released := null, [], {};
    }

    method Swap(next: ArmedWatch?) returns (prev: ArmedWatch?)
      requires Valid() && (next != null ==> next !in armed && !next.cancelled)
      modifies this`cur, this`armed, armed
      ensures Valid() && cur == next && prev == old(cur) && released == old(released)
      ensures armed == old(armed) + (if next == null then [] else [next])
      ensures prev != null ==> prev.cancelled
      ensures forall a :: a in old(armed) && a != prev ==> a.cancelled == old(a.cancelled)
    {
      prev := cur;
      cur := next;
      if prev != null {
        prev.cancelled := true;
      }
      if next != null {
        armed := armed + [next];
      }
    }

    /** A firing watch may speak if and only if nothing has displaced it. */
    method Release(a: ArmedWatch) returns (ok: bool)
      requires Valid() && a in armed && a !in released
      modifies this`cur, this`released
      ensures Valid() && armed == old(armed)
      ensures ok <==> !a.cancelled
      ensures released == if ok then old(released) + {a} else old(released)
      ensures cur == if ok then null else old(cur)
    {
      if cur != a {
        return false;
      }
      cur := null;
      released := released + {a};
      ok := true;
    }
  }
}
