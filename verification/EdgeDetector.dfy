/** The multimeter's edge detector as the program has it: an object whose fields change with
    every reading, with loops over the steadiness window, proved against the functions of
    `Detector` over the whole history of what it was fed. */
module DetectorObject {
  import opened Common
  import opened Journal
  import opened Detector
  import opened Bench

  const NO_READING := Reading(0, "", "", 0.0, false, [], "", 0)

  datatype FlagKind = FlagKind(name: string, on: Kind, off: Kind)

  /** The table of flags, in the order they are looked at. */
  function FlagAt(i: nat): FlagKind {
    if i == 1 then FlagKind("rel", RelOn, RelOff) else FlagKind("hold", HoldOn, HoldOff)
  }

  function FlagOf(flags: map<string, bool>, name: string): bool {
    name in flags && flags[name]
  }

  /** The state and edges after the first `n` flags of the table. */
  function AfterFlags(m: Meter, r: Reading, n: nat): (Meter, seq<Edge>)
    requires n <= 2
  {
    var (m1, e1) := HoldStep(m, r);
    var (m2, e2) := RelStep(m1, r);
    if n == 0 then (m, []) else if n == 1 then (m1, e1) else (m2, e1 + e2)
  }

  lemma AfterOneMore(m: Meter, r: Reading, i: nat)
    requires i < 2
    ensures AfterFlags(m, r, 0) == (m, [])
    ensures var (m', told) := AfterFlags(m, r, i);
      var (m'', more) := if i == 1 then RelStep(m', r) else HoldStep(m', r);
      AfterFlags(m, r, i + 1).0 == m'' && AfterFlags(m, r, i + 1).1 == told + more
  {
    hide HoldStep, RelStep;
  }

  lemma LogJoin(log: seq<Edge>, out: seq<Edge>, more: seq<Edge>)
    ensures log + (out + more) == log + out + more
  {
  }

  lemma PlainJoin(a: seq<Edge>, b: seq<Edge>)
    ensures Plain(a + b) == Plain(a) + Plain(b)
  {
  }

  /** `match` is tracked forward by the loop, and told backward by `LastMatch`. */
  lemma MatchNext(edges: seq<Edge>, i: nat, slot: string, nonzero: bool)
    requires i < |edges|
    ensures LastMatch(edges[..i + 1], slot, nonzero)
         == if Wanted(edges[i], slot, nonzero) then Some(edges[i])
            else if Undoes(edges[i], nonzero) then None else LastMatch(edges[..i], slot, nonzero)
  {
    assert edges[..i + 1][..i] == edges[..i];
  }

  lemma PlainNone()
    ensures Plain([]) == []
  {
  }

  /** One more input moves the run by its step. */
  lemma RunOne(inputs: seq<Input>, i: Input, log: seq<Edge>, out: seq<Edge>)
    requires Run(inputs).1 == Plain(log) && Next(Run(inputs).0, i).1 == Plain(out)
    ensures Run(inputs + [i]).0 == Next(Run(inputs).0, i).0 && Run(inputs + [i]).1 == Plain(log + out)
  {
    hide Next, Plain;
    assert (inputs + [i])[..|inputs|] == inputs;
    PlainJoin(log, out);
  }

  lemma TrimNext(w: seq<Reading>, cutoff: int)
    requires |w| > 1 && w[1].time <= cutoff
    ensures Trim(w, cutoff) == Trim(w[1..], cutoff)
  {
  }

  lemma TrimDone(w: seq<Reading>, cutoff: int)
    requires |w| <= 1 || w[1].time > cutoff
    ensures Trim(w, cutoff) == w
  {
  }

  class EdgeDetector {
    const journal: ChangeJournal
    var connected: bool
    var seen: bool
    var slot: string
    var flags: map<string, bool>
    var window: seq<Reading>
    var settled: Reading
    var haveSettled: bool
    ghost var inputs: seq<Input>

    ghost function Baseline(): Option<Reading>
      reads this
    {
      if haveSettled then Some(settled) else None
    }

    ghost function State(): Meter
      reads this
    {
      Meter(connected, seen, slot, FlagOf(flags, "hold"), FlagOf(flags, "rel"), window, Baseline())
    }

    /** The object is where the history of its inputs leads. */
    ghost predicate Valid()
      reads this, journal
    {
      journal.Valid() && Run(inputs).0 == State() && Run(inputs).1 == Plain(journal.log)
    }

    constructor ()
      ensures Valid() && fresh(journal) && inputs == [] && journal.log == []
    {
      journal := new ChangeJournal();
      connected, seen, slot, flags, window := false, false, "", map[], [];
      settled, haveSettled, inputs := NO_READING, false, [];
    }

    method ResetSettle()
      modifies this`window, this`haveSettled
      ensures State() == Reset(old(State()))
    {
      window, haveSettled := [], false;
    }

    /** Add one edge to the journal; the caller is told of it with its number. */
    method Emit(e: Edge, now: int) returns (told: seq<Edge>)
      requires journal.Valid() && now > 0 && e.number == 0
      modifies journal
      ensures journal.Valid() && Plain(told) == [e]
      ensures journal.log == old(journal.log) + told
    {
      var added := journal.Add(e, now);
      told := [added];
    }

    method SetConnected(on: bool, at: int, now: int) returns (out: seq<Edge>)
      requires Valid() && now > 0
      modifies this, journal
      ensures Valid() && inputs == old(inputs) + [Link(on, at)]
      ensures journal.log == old(journal.log) + out
      ensures (State(), Plain(out)) == Detector.SetConnected(old(State()), on, at)
    {
      hide Run, Plain;
      ghost var log := journal.log;
      out := [];
      PlainNone();
      if on != connected {
        connected := on;
        if on {
          out := Emit(Edge(0, Connected, at, "", None), now);
        } else {
          seen, slot, flags := false, "", map[];
          ResetSettle();
          out := Emit(Edge(0, Disconnected, at, "", None), now);
        }
      }
      RunOne(inputs, Link(on, at), log, out);
      inputs := inputs + [Link(on, at)];
    }

    method NoteDial(r: Reading, now: int) returns (out: seq<Edge>)
      requires journal.Valid() && now > 0
      modifies this`seen, this`slot, this`window, this`haveSettled, journal
      ensures journal.Valid() && journal.log == old(journal.log) + out
      ensures (State(), Plain(out)) == DialStep(old(State()), r)
    {
      hide Plain, Label;
      out := [];
      PlainNone();
      var position := Label(r);
      if !seen || position != slot {
        seen, slot := true, position;
        ResetSettle();
        out := Emit(Detector.Emit(Dial, r), now);
      }
    }

    method NoteFlag(i: nat, r: Reading, now: int) returns (out: seq<Edge>)
      requires journal.Valid() && now > 0 && i < 2
      modifies this`flags, this`window, this`haveSettled, journal
      ensures journal.Valid() && journal.log == old(journal.log) + out
      ensures var (m, told) := if i == 1 then RelStep(old(State()), r) else HoldStep(old(State()), r);
        State() == m && Plain(out) == told
    {
      hide Plain;
      out := [];
      PlainNone();
      var f := FlagAt(i);
      var on := f.name in r.flags;
      if on != FlagOf(flags, f.name) {
        flags := flags[f.name := on];
        if f.name == "rel" {
          ResetSettle();
        }
        out := Emit(Detector.Emit(if on then f.on else f.off, r), now);
      }
    }

    method NoteFlags(r: Reading, now: int) returns (out: seq<Edge>)
      requires journal.Valid() && now > 0
      modifies this`flags, this`window, this`haveSettled, journal
      ensures journal.Valid() && journal.log == old(journal.log) + out
      ensures State() == AfterFlags(old(State()), r, 2).0 && Plain(out) == AfterFlags(old(State()), r, 2).1
    {
      hide HoldStep, RelStep, Plain, AfterFlags;
      ghost var m := State();
      out := [];
      PlainNone();
      AfterOneMore(m, r, 0);
      var i := 0;
      while i < 2
        invariant 0 <= i <= 2
        invariant journal.Valid() && journal.log == old(journal.log) + out
        invariant State() == AfterFlags(m, r, i).0 && Plain(out) == AfterFlags(m, r, i).1
      {
        AfterOneMore(m, r, i);
        var more := NoteFlag(i, r, now);
        PlainJoin(out, more);
        LogJoin(old(journal.log), out, more);
        out := out + more;
        i := i + 1;
      }
    }

    /** The window's lowest and highest readings, by one pass. */
    method Extremes(r: Reading) returns (low: real, high: real)
      ensures low == Lowest(Base(r), window) && high == Highest(Base(r), window)
    {
      low, high := Base(r), Base(r);
      var i := 0;
      while i < |window|
        invariant 0 <= i <= |window|
        invariant low == Lowest(Base(r), window[..i]) && high == Highest(Base(r), window[..i])
      {
        assert window[..i + 1][..i] == window[..i];
        low, high := Min(low, Base(window[i])), Max(high, Base(window[i]));
        i := i + 1;
      }
      assert window[..i] == window;
    }

    method Closest(r: Reading, centre: real) returns (best: Reading)
      ensures best == Nearest(r, window, centre)
    {
      hide Base;
      best := r;
      var i := 0;
      while i < |window|
        invariant 0 <= i <= |window|
        invariant best == Nearest(r, window[..i], centre)
      {
        assert window[..i + 1][..i] == window[..i];
        if Abs(Base(window[i]) - centre) < Abs(Base(best) - centre) {
          best := window[i];
        }
        i := i + 1;
      }
      assert window[..i] == window;
    }

    method Extend(r: Reading)
      modifies this`window
      ensures |window| > 0 && window == Continued(old(window), r)
    {
      hide Classify;
      var n := |window|;
      if n > 0 && (window[n - 1].measures != r.measures || Classify(window[n - 1]) != Classify(r)) {
        window := [];
      }
      window := window + [r];
    }

    /** Keep one reading at or before the cutoff, so the span covers the settle time. */
    method Cut(cutoff: int)
      requires |window| > 0
      modifies this`window
      ensures |window| > 0 && window == Trim(old(window), cutoff)
    {
      hide Trim;
      while |window| > 1 && window[1].time <= cutoff
        invariant |window| > 0 && Trim(window, cutoff) == Trim(old(window), cutoff)
        decreases |window|
      {
        TrimNext(window, cutoff);
        window := window[1..];
      }
      TrimDone(window, cutoff);
    }

    method Track(r: Reading) returns (at: Option<Reading>)
      modifies this`window
      ensures (window, at) == Detector.Track(old(window), r)
    {
      hide Trim, Continued, Lowest, Highest, Nearest, Base, Resolution, Classify;
      Extend(r);
      Cut(r.time - SETTLE_TIME);
      if r.time - window[0].time < SETTLE_TIME {
        return None;
      }
      var low, high := Extremes(r);
      var centre := (low + high) / 2.0;
      var band := Max(SETTLE_BAND_COUNTS * Resolution(r), SETTLE_BAND_REL * Abs(centre));
      if Classify(r) == Value && high - low > band {
        return None;
      }
      var best := Closest(r, centre);
      at := Some(best);
    }

    method Settle(r: Reading) returns (kind: Option<Kind>)
      modifies this`settled, this`haveSettled
      ensures (Baseline(), kind) == Detector.Settle(old(Baseline()), r)
    {
      hide Classify, MovedBeyondThreshold;
      var prev, had := settled, haveSettled;
      if Classify(r) == Over {
        settled, haveSettled := r, true;
        kind := if had && prev.overload then None else Some(Kind.Overload);
      } else if Classify(r) == Open {
        settled, haveSettled := r, true;
        kind := if had && Classify(prev) == Value then Some(ContactLost) else None;
      } else if !had || Classify(prev) != Value || prev.measures != r.measures || MovedBeyondThreshold(prev, r) {
        settled, haveSettled := r, true;
        kind := Some(Settled);
      } else {
        kind := None;
      }
    }

    method NoteSettled(r: Reading, now: int) returns (out: seq<Edge>)
      requires journal.Valid() && now > 0
      modifies this`window, this`settled, this`haveSettled, journal
      ensures journal.Valid() && journal.log == old(journal.log) + out
      ensures (State(), Plain(out)) == SettleStep(old(State()), r)
    {
      hide Detector.Track, Detector.Settle, Plain;
      out := [];
      PlainNone();
      var at := Track(r);
      if at.Some? {
        var kind := Settle(at.value);
        if kind.Some? {
          out := Emit(Detector.Emit(kind.value, r), now);
        }
      }
    }

    /** Feed one reading: the state, the journal and the answer all follow the functions of
        `Detector`, so every theorem about runs holds of this object. */
    method Observe(r: Reading, now: int) returns (out: seq<Edge>)
      requires Valid() && now > 0
      modifies this, journal
      ensures Valid() && inputs == old(inputs) + [Sample(r)]
      ensures journal.log == old(journal.log) + out
      ensures (State(), Plain(out)) == Detector.Observe(old(State()), r)
    {
      hide DialStep, HoldStep, RelStep, SettleStep, Run, Plain;
      ghost var m, log := State(), journal.log;
      out := [];
      PlainNone();
      if connected {
        var dial := NoteDial(r, now);
        var panel := NoteFlags(r, now);
        var settle := NoteSettled(r, now);
        out := dial + panel + settle;
        PlainJoin(dial, panel);
        PlainJoin(dial + panel, settle);
        assert journal.log == log + out;
        ghost var (m1, e1) := DialStep(m, r);
        ghost var (m2, e2) := HoldStep(m1, r);
        ghost var (m3, e3) := RelStep(m2, r);
        assert e1 + (e2 + e3) == e1 + e2 + e3;
      }
      RunOne(inputs, Sample(r), log, out);
      inputs := inputs + [Sample(r)];
    }

    /** The newest edge after the cursor that shows the wanted state and that nothing has undone;
        if there is one, the meter is in that state now. */
    method LastMatch(cursor: int, wanted: string, nonzero: bool, now: int) returns (found: Option<Edge>)
      requires Valid() && now > 0
      modifies journal`base, journal`head
      ensures Valid()
      ensures found == Bench.LastMatch(ChangesSince(journal.log, journal.base, cursor).edges, wanted, nonzero)
      ensures found.Some? ==> connected && seen && (wanted != "" ==> slot == wanted)
    {
      hide ChangesSince, Run, Plain, Bench.LastMatch, Wanted, Undoes;
      var told := journal.Since(cursor, now);
      var edges := told.edges;
      found := NoMatch(wanted, nonzero);
      var i := 0;
      while i < |edges|
        invariant 0 <= i <= |edges|
        invariant journal.Valid() && told == ChangesSince(journal.log, journal.base, cursor)
        invariant found == Bench.LastMatch(edges[..i], wanted, nonzero)
      {
        MatchNext(edges, i, wanted, nonzero);
        if Wanted(edges[i], wanted, nonzero) {
          found := Some(edges[i]);
        } else if Undoes(edges[i], nonzero) {
          found := None;
        }
        i := i + 1;
      }
      assert edges[..i] == edges;
      if found.Some? {
        DialAnswerIsSound(inputs, journal.log, journal.base, cursor, wanted, nonzero);
      }
    }

    static method NoMatch(wanted: string, nonzero: bool) returns (found: Option<Edge>)
      ensures found.None? && found == Bench.LastMatch([], wanted, nonzero)
    {
      found := None;
    }
  }
}
