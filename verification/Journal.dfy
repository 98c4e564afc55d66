/** The multimeter's change journal: a bounded log with cursors. The class keeps the last
    `JOURNAL_SIZE` edges; its specification is over the whole run's log, which only a ghost
    field remembers. */
module Journal {
  import opened Common

  const JOURNAL_SIZE := 200

  datatype Kind =
    | Connected | Disconnected | Dial | Settled | ContactLost | Overload
    | HoldOn | HoldOff | RelOn | RelOff

  /** One decoded measurement. Times are in nanoseconds; `value` is in the displayed unit. */
  datatype Reading = Reading(time: int, measures: string, prefix: string, value: real, overload: bool,
                             flags: seq<string>, slot: string, decimals: nat)

  datatype Edge = Edge(number: int, kind: Kind, at: int, slot: string, reading: Option<Reading>)

  datatype Changes = Changes(edges: seq<Edge>, cursor: int, missed: int, reset: bool)

  // ---------------------------------------------------------------- specification

  function Newest(log: seq<Edge>): seq<Edge> {
    if |log| <= JOURNAL_SIZE then log else log[|log| - JOURNAL_SIZE..]
  }

  ghost predicate Numbered(log: seq<Edge>, base: int) {
    forall i :: 0 <= i < |log| ==> log[i].number == base + 1 + i
  }

  predicate Foreign(log: seq<Edge>, base: int, cursor: int) {
    cursor < base || cursor > base + |log|
  }

  /** The cursor a query effectively starts from: one from another run asks for everything. */
  function Effective(log: seq<Edge>, base: int, cursor: int): (c: int)
    ensures base <= c <= base + |log|
  {
    if Foreign(log, base, cursor) then base else cursor
  }

  /** What happened after `cursor`, told from the whole log: the edges after it that the
      journal still holds, and how many it has lost. */
  function ChangesSince(log: seq<Edge>, base: int, cursor: int): (c: Changes)
    ensures |c.edges| + c.missed == base + |log| - Effective(log, base, cursor)
    ensures 0 <= c.missed && |c.edges| <= JOURNAL_SIZE
    ensures c.missed > 0 ==> |c.edges| == JOURNAL_SIZE
    ensures c.edges == log[|log| - |c.edges|..] && c.cursor == base + |log|
  {
    var from := Effective(log, base, cursor) - base;
    var kept := |log| - |Newest(log)|;
    var first := if from < kept then kept else from;
    Changes(log[first..], base + |log|, first - from, Foreign(log, base, cursor) && cursor != 0)
  }

  /** A cursor from another run asks for everything this run has had, and is told so, unless it is the
      0 of a client that has none yet. */
  lemma ForeignCursorResets(log: seq<Edge>, base: int, cursor: int)
    ensures var told := ChangesSince(log, base, cursor);
      if cursor < base || cursor > base + |log|
      then told == ChangesSince(log, base, base).(reset := cursor != 0) else !told.reset
  {
  }

  // ---------------------------------------------------------------- a polling client

  /** A client that always passes the cursor it got last: `lengths` is how long the log was
      at each of its polls. The result is every edge it was given, in order. */
  ghost function Polled(log: seq<Edge>, base: int, lengths: seq<nat>): seq<Edge>
    requires forall i :: 0 <= i < |lengths| ==> lengths[i] <= |log|
  {
    if lengths == [] then []
    else
      Polled(log, base, lengths[..|lengths| - 1])
      + ChangesSince(log[..lengths[|lengths| - 1]], base, CursorAfter(base, lengths[..|lengths| - 1])).edges
  }

  ghost function CursorAfter(base: int, lengths: seq<nat>): int {
    if lengths == [] then base else base + lengths[|lengths| - 1]
  }

  ghost function MissedCount(log: seq<Edge>, base: int, lengths: seq<nat>): int
    requires forall i :: 0 <= i < |lengths| ==> lengths[i] <= |log|
  {
    if lengths == [] then 0
    else
      MissedCount(log, base, lengths[..|lengths| - 1])
      + ChangesSince(log[..lengths[|lengths| - 1]], base, CursorAfter(base, lengths[..|lengths| - 1])).missed
  }

  /** The polls happen one after another. */
  ghost predicate Growing(lengths: seq<nat>) {
    forall i, j :: 0 <= i <= j < |lengths| ==> lengths[i] <= lengths[j]
  }

  ghost predicate StrictlyNumbered(edges: seq<Edge>, after: int, upTo: int) {
    && (forall i :: 0 <= i < |edges| ==> after < edges[i].number <= upTo)
    && (forall i, j :: 0 <= i < j < |edges| ==> edges[i].number < edges[j].number)
  }

  /** One poll of the log as it was when `n` edges had happened. */
  lemma PollNumbers(log: seq<Edge>, base: int, n: nat, cursor: int)
    requires Numbered(log, base) && n <= |log| && base <= cursor <= base + n
    ensures var told := ChangesSince(log[..n], base, cursor).edges;
      StrictlyNumbered(told, cursor, base + n) && forall e :: e in told ==> e in log
  {
    var told := ChangesSince(log[..n], base, cursor).edges;
    var from := n - |told|;
    assert told == log[..n][from..] == log[from..n];
  }

  lemma NumberedJoin(a: seq<Edge>, b: seq<Edge>, low: int, mid: int, high: int)
    requires StrictlyNumbered(a, low, mid) && StrictlyNumbered(b, mid, high) && low <= mid <= high
    ensures StrictlyNumbered(a + b, low, high)
  {
  }

  /** Every edge is given at most once and in order, and the ones it was not given are exactly
      those counted as missed. */
  lemma {:induction false} PollingSeesEachOnce(log: seq<Edge>, base: int, lengths: seq<nat>)
    requires Numbered(log, base) && Growing(lengths)
    requires forall i :: 0 <= i < |lengths| ==> lengths[i] <= |log|
    ensures |Polled(log, base, lengths)| + MissedCount(log, base, lengths) == CursorAfter(base, lengths) - base
    ensures StrictlyNumbered(Polled(log, base, lengths), base, CursorAfter(base, lengths))
    ensures forall e :: e in Polled(log, base, lengths) ==> e in log
  {
    hide ChangesSince, StrictlyNumbered, Numbered;
    if lengths != [] {
      var last := |lengths| - 1;
      var before, n := lengths[..last], lengths[last];
      PollingSeesEachOnce(log, base, before);
      if before != [] { assert before[last - 1] == lengths[last - 1] <= n; }
      var cursor := CursorAfter(base, before);
      PollNumbers(log, base, n, cursor);
      NumberedJoin(Polled(log, base, before), ChangesSince(log[..n], base, cursor).edges, base, cursor, base + n);
    } else {
      NothingNumbered(base);
    }
  }

  lemma NothingNumbered(base: int)
    ensures StrictlyNumbered([], base, base)
  {
  }

  /** Up to a journal's worth of edges between polls, nothing is missed. */
  lemma FrequentPollsMissNothing(log: seq<Edge>, base: int, cursor: int)
    requires base <= cursor <= base + |log| <= cursor + JOURNAL_SIZE
    ensures ChangesSince(log, base, cursor).missed == 0
    ensures ChangesSince(log, base, cursor).edges == log[cursor - base..]
  {
  }

  lemma KeptNumbers(log: seq<Edge>, base: int, from: int, first: nat)
    requires Numbered(log, base) && base <= from <= base + |log|
    requires first == if from - base < |log| - |Newest(log)| then 0 else from - base - (|log| - |Newest(log)|)
    ensures first <= |Newest(log)|
    ensures forall i :: 0 <= i < |Newest(log)| ==> (Newest(log)[i].number > from <==> i >= first)
    ensures |Newest(log)| > 0 ==> Newest(log)[0].number == base + |log| - |Newest(log)| + 1
  {
  }

  /** Where the answer to a query starts among the kept edges. */
  lemma FirstAfter(log: seq<Edge>, base: int, cursor: int) returns (first: nat)
    requires Numbered(log, base)
    ensures var kept, from := Newest(log), Effective(log, base, cursor);
      && first <= |kept| && (forall i :: 0 <= i < |kept| ==> (kept[i].number > from <==> i >= first))
      && ChangesSince(log, base, cursor)
         == Changes(kept[first..], base + |log|,
                    if |kept| > 0 && kept[0].number > from + 1 then kept[0].number - from - 1 else 0,
                    Foreign(log, base, cursor) && cursor != 0)
  {
    var from := Effective(log, base, cursor);
    var dropped := |log| - |Newest(log)|;
    first := if from - base < dropped then 0 else from - base - dropped;
    KeptNumbers(log, base, from, first);
    assert Newest(log)[first..] == log[dropped + first..];
  }

  /** The scan of a query: the edges numbered above `from`. */
  method Later(edges: seq<Edge>, from: int, ghost first: nat) returns (told: seq<Edge>)
    requires first <= |edges| && forall i :: 0 <= i < |edges| ==> (edges[i].number > from <==> i >= first)
    ensures told == edges[first..]
  {
    told := [];
    var i := 0;
    while i < |edges|
      invariant 0 <= i <= |edges|
      invariant told == if i <= first then [] else edges[first..i]
    {
      if edges[i].number > from {
        told := told + [edges[i]];
      }
      i := i + 1;
    }
  }

  /** What the journal keeps after one more edge. */
  lemma NewestNext(log: seq<Edge>, e: Edge)
    ensures |Newest(log)| <= JOURNAL_SIZE
    ensures Newest(log + [e]) == (if |Newest(log)| == JOURNAL_SIZE then Newest(log)[1..] else Newest(log)) + [e]
  {
  }

  // ---------------------------------------------------------------- the class

  /** A channel is known by the number it was made with. */
  class ChangeJournal {
    var edges: seq<Edge>
    var base: int
    var head: int
    var changed: Option<nat>
    var channels: nat
    ghost var closed: set<nat>
    ghost var log: seq<Edge>

    ghost predicate Valid()
      reads this
    {
      && 0 <= base && (base == 0 ==> log == [])
      && head == base + |log| && edges == Newest(log) && Numbered(log, base)
      && (forall c :: c in closed ==> c < channels)
      && (changed.Some? ==> changed.value < channels && changed.value !in closed)
      && (forall c :: 0 <= c < channels ==> c in closed || changed == Some(c))
    }

    constructor ()
      ensures Valid() && log == [] && base == 0 && changed.None? && channels == 0
    {
      edges, base, head, changed, channels := [], 0, 0, None, 0;
      closed, log := {}, [];
    }

    /** The first use fixes where the run's numbering starts. */
    method Seed(now: int)
      requires Valid() && now > 0
      modifies this`base, this`head
      ensures Valid() && base > 0 && base == if old(base) == 0 then now else old(base)
    {
      if base == 0 {
        base := now;
        head := base;
      }
    }

    method Add(e: Edge, now: int) returns (added: Edge)
      requires Valid() && now > 0
      modifies this
      ensures Valid() && base == if old(base) == 0 then now else old(base)
      ensures added == e.(number := base + |log|) && log == old(log) + [added]
      ensures changed.None? && channels == old(channels)
      ensures old(changed).Some? ==> old(changed).value in closed
      ensures old(closed) <= closed
    {
      Seed(now);
      head := head + 1;
      added := e.(number := head);
      NewestNext(log, added);
      hide Newest;
      if |edges| == JOURNAL_SIZE {
        edges := edges[1..];
      }
      edges := edges + [added];
      log := log + [added];
      if changed.Some? {
        closed := closed + {changed.value};
        changed := None;
      }
    }

    /** The scan over the kept edges finds what the whole log says. */
    method Since(cursor: int, now: int) returns (out: Changes)
      requires Valid() && now > 0
      modifies this`base, this`head
      ensures Valid() && base == if old(base) == 0 then now else old(base)
      ensures out == ChangesSince(log, base, cursor)
    {
      Seed(now);
      var reset := false;
      var from := cursor;
      if cursor < base || cursor > head {
        reset := cursor != 0;
        from := base;
      }
      var missed := 0;
      if |edges| > 0 && edges[0].number > from + 1 {
        missed := edges[0].number - from - 1;
      }
      hide ChangesSince, Newest;
      ghost var first := FirstAfter(log, base, cursor);
      var told := Later(edges, from, first);
      out := Changes(told, head, missed, reset);
    }

    /** The channel that closes when the next edge is added. */
    method Changed() returns (c: nat)
      requires Valid()
      modifies this`changed, this`channels
      ensures Valid() && changed == Some(c) && c !in closed
      ensures old(changed).Some? ==> changed == old(changed) && channels == old(channels)
      ensures old(changed).None? ==> c == old(channels)
    {
      if changed.None? {
        changed := Some(channels);
        channels := channels + 1;
      }
      c := changed.value;
    }
  }
}
