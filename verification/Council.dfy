/** How the council plugin's calls to the host get their replies: calls come and go on their own,
    one reader routes replies by id, and the stream can end at any time. The steps are the locked
    sections and the channel operations between them. */
module Council {
  import opened Common
  import opened Pointer

  // ---------------------------------------------------------------- ids

  /** An id as the host may write it back. */
  datatype RawId = Text(s: string) | Number(n: real) | OtherJson(text: string)

  function Truncate(r: real): int {
    if r >= 0.0 then r.Floor else -(-r).Floor
  }

  function IdKey(raw: RawId): string {
    match raw
    case Text(s) => s
    case Number(n) => IntText(Truncate(n))
    case OtherJson(text) => text
  }

  function CallKey(n: nat): string {
    "cap-" + Decimal(n)
  }

  lemma CallKeysDiffer(a: nat, b: nat)
    ensures CallKey(a) == CallKey(b) ==> a == b
  {
    hide Decimal, Pointer.Number;
    DecimalReads(a);
    DecimalReads(b);
    assert CallKey(a)[4..] == Decimal(a) && CallKey(b)[4..] == Decimal(b);
  }

  /** No number the host writes can be taken for the id of a call. */
  lemma NumbersNeverMatch(n: real, call: nat)
    ensures IdKey(Number(n)) != CallKey(call)
  {
    var text := IntText(Truncate(n));
    assert text[0] in text && CallKey(call)[0] == 'c';
  }

  // ---------------------------------------------------------------- state

  /** One reply line; lines are numbered as the reader takes them. */
  datatype Line = Line(number: nat, key: string)

  datatype Result = Got(line: Line) | StreamClosed | TimedOut | NotSent | NoRoute

  datatype Phase = Registered | Waiting | Leaving(result: Result) | Returned(result: Result)

  /** A call with its channel, which holds at most one line. */
  datatype Call = Call(id: nat, phase: Phase, buffer: Option<Line>, closed: bool)

  datatype Reader = Idle | Holding(call: nat, line: Line) | Ended

  datatype State = State(nextID: nat, calls: seq<Call>, pending: map<string, nat>, gone: bool,
    reader: Reader, heard: nat)

  const START := State(0, [], map[], false, Idle, 0)

  datatype Step =
    | Begin
    | Send(i: nat, ok: bool)
    | Receive(i: nat)
    | SeeClosed(i: nat)
    | TimeOut(i: nat)
    | Leave(i: nat)
    | Take(key: string)
    | Offer
    | End

  predicate Enabled(s: State, step: Step) {
    match step
    case Begin => true
    case Send(i, _) => i < |s.calls| && s.calls[i].phase.Registered?
    case Receive(i) => i < |s.calls| && s.calls[i].phase.Waiting? && s.calls[i].buffer.Some?
    case SeeClosed(i) => i < |s.calls| && s.calls[i].phase.Waiting? && s.calls[i].buffer.None? && s.calls[i].closed
    case TimeOut(i) => i < |s.calls| && s.calls[i].phase.Waiting?
    case Leave(i) => i < |s.calls| && s.calls[i].phase.Leaving?
    case Take(_) => s.reader.Idle?
    case Offer => s.reader.Holding? && s.reader.call < |s.calls|
    case End => s.reader.Idle?
  }

  function At(s: State, i: nat, c: Call): State
    requires i < |s.calls|
  {
    s.(calls := s.calls[i := c])
  }

  /** `closed` closes the channel of every pending call. */
  function CloseAll(calls: seq<Call>, pending: map<string, nat>): (closed: seq<Call>)
    ensures |closed| == |calls|
    ensures forall i :: 0 <= i < |calls| ==>
      closed[i] == if CallKey(calls[i].id) in pending && pending[CallKey(calls[i].id)] == i
        then calls[i].(closed := true) else calls[i]
  {
    seq(|calls|, i requires 0 <= i < |calls| =>
      if CallKey(calls[i].id) in pending && pending[CallKey(calls[i].id)] == i then calls[i].(closed := true)
      else calls[i])
  }

  function Apply(s: State, step: Step): State
    requires Enabled(s, step)
  {
    match step
    case Begin =>
      if s.gone then s.(calls := s.calls + [Call(0, Returned(NoRoute), None, false)])
      else
        s.(nextID := s.nextID + 1, calls := s.calls + [Call(s.nextID + 1, Registered, None, false)],
           pending := s.pending[CallKey(s.nextID + 1) := |s.calls|])
    case Send(i, ok) => At(s, i, s.calls[i].(phase := if ok then Waiting else Leaving(NotSent)))
    case Receive(i) => At(s, i, s.calls[i].(phase := Leaving(Got(s.calls[i].buffer.value)), buffer := None))
    case SeeClosed(i) => At(s, i, s.calls[i].(phase := Leaving(StreamClosed)))
    case TimeOut(i) => At(s, i, s.calls[i].(phase := Leaving(TimedOut)))
    case Leave(i) =>
      At(s, i,
        s.calls[i].(phase := Returned(s.calls[i].phase.result))).(pending := s.pending - {CallKey(s.calls[i].id)})
    case Take(key) =>
      s.(reader := if key in s.pending then Holding(s.pending[key], Line(s.heard, key)) else Idle, heard := s.heard + 1)
    case Offer =>
      var c := s.calls[s.reader.call];
      (if c.buffer.None? then At(s, s.reader.call, c.(buffer := Some(s.reader.line))) else s).(reader := Idle)
    case End => s.(calls := CloseAll(s.calls, s.pending), pending := map[], gone := true, reader := Ended)
  }

  ghost predicate Legal(s: State, steps: seq<Step>)
    decreases |steps|
  {
    steps == [] || (Enabled(s, steps[0]) && Legal(Apply(s, steps[0]), steps[1..]))
  }

  ghost function After(s: State, steps: seq<Step>): State
    requires Legal(s, steps)
    decreases |steps|
  {
    if steps == [] then s else After(Apply(s, steps[0]), steps[1..])
  }

  ghost predicate Reachable(s: State) {
    exists steps: seq<Step> :: Legal(START, steps) && After(START, steps) == s
  }

  // ---------------------------------------------------------------- the invariant

  predicate Open(p: Phase) {
    p.Registered? || p.Waiting? || p.Leaving?
  }

  predicate Refused(c: Call) {
    c.phase == Returned(NoRoute)
  }

  /** The lines a call holds or got: its own, and heard before now. */
  predicate LineOk(c: Call, heard: nat) {
    && (c.buffer.Some? ==> c.buffer.value.key == CallKey(c.id) && c.buffer.value.number < heard)
    && (c.phase.Leaving? && c.phase.result.Got? ==>
          c.phase.result.line.key == CallKey(c.id) && c.phase.result.line.number < heard)
    && (c.phase.Returned? && c.phase.result.Got? ==>
          c.phase.result.line.key == CallKey(c.id) && c.phase.result.line.number < heard)
  }

  /** A call is pending under its id exactly while it is open and the stream lives; the end of the
      stream closes every channel still waited on. */
  predicate CallOk(c: Call, i: nat, s: State) {
    && LineOk(c, s.heard)
    && (Refused(c) ==> c.buffer.None?)
    && (!Refused(c) ==> 1 <= c.id <= s.nextID)
    && (c.phase.Leaving? ==> c.phase.result != NoRoute)
    && (Open(c.phase) && !s.gone ==> CallKey(c.id) in s.pending && s.pending[CallKey(c.id)] == i)
    && (Open(c.phase) && s.gone ==> c.closed)
    && (c.closed ==> s.gone)
  }

  ghost predicate PendingOk(s: State) {
    forall k :: k in s.pending ==>
      && !s.gone && s.pending[k] < |s.calls|
      && k == CallKey(s.calls[s.pending[k]].id) && Open(s.calls[s.pending[k]].phase)
  }

  ghost predicate IdsDiffer(calls: seq<Call>) {
    forall i, j :: 0 <= i < j < |calls| && !Refused(calls[i]) && !Refused(calls[j]) ==> calls[i].id < calls[j].id
  }

  /** The reader holds a line for the call of its id, and no channel is closed under it. */
  predicate ReaderOk(s: State) {
    && (s.reader.Ended? <==> s.gone)
    && (s.reader.Holding? ==>
          && s.reader.call < |s.calls| && !Refused(s.calls[s.reader.call])
          && s.reader.line.key == CallKey(s.calls[s.reader.call].id) && s.reader.line.number < s.heard)
  }

  /** Every line a call holds or got, by number. */
  predicate Has(c: Call, number: nat) {
    || (c.buffer.Some? && c.buffer.value.number == number)
    || ((c.phase.Leaving? || c.phase.Returned?) && c.phase.result.Got? && c.phase.result.line.number == number)
  }

  /** Nobody has the line in the reader's hand yet. */
  ghost predicate HandIsNew(s: State) {
    s.reader.Holding? ==> forall i :: 0 <= i < |s.calls| ==> !Has(s.calls[i], s.reader.line.number)
  }

  ghost predicate LinesDiffer(calls: seq<Call>) {
    forall i, j, n :: 0 <= i < j < |calls| && Has(calls[i], n) ==> !Has(calls[j], n)
  }

  ghost predicate Inv(s: State) {
    && (forall i :: 0 <= i < |s.calls| ==> CallOk(s.calls[i], i, s))
    && PendingOk(s) && IdsDiffer(s.calls) && ReaderOk(s) && HandIsNew(s) && LinesDiffer(s.calls)
  }

  // ---------------------------------------------------------------- every step keeps it

  lemma OtherPending(s: State, i: nat, j: nat)
    requires IdsDiffer(s.calls) && i < |s.calls| && j < |s.calls|
    requires i != j && !Refused(s.calls[i]) && !Refused(s.calls[j])
    ensures CallKey(s.calls[i].id) != CallKey(s.calls[j].id)
  {
    hide CallKey;
    CallKeysDiffer(s.calls[i].id, s.calls[j].id);
  }

  lemma NewKey(s: State, i: nat)
    requires i < |s.calls| && CallOk(s.calls[i], i, s) && !Refused(s.calls[i])
    ensures CallKey(s.calls[i].id) != CallKey(s.nextID + 1)
  {
    hide CallKey, LineOk;
    CallKeysDiffer(s.calls[i].id, s.nextID + 1);
  }

  lemma LineKept(s: State, step: Step, i: nat)
    requires Inv(s) && Enabled(s, step) && i < |s.calls|
    ensures LineOk(Apply(s, step).calls[i], Apply(s, step).heard)
  {
    hide CallKey, HandIsNew, LinesDiffer, Has, PendingOk, IdsDiffer;
    assert CallOk(s.calls[i], i, s);
  }

  lemma CallKept(s: State, step: Step, i: nat)
    requires Inv(s) && Enabled(s, step) && i < |s.calls|
    ensures CallOk(Apply(s, step).calls[i], i, Apply(s, step))
  {
    hide CallKey, HandIsNew, LinesDiffer, Has, LineOk;
    LineKept(s, step, i);
    assert CallOk(s.calls[i], i, s);
    OfferKept(s, step, i);
    if step.Begin? && !s.gone && !Refused(s.calls[i]) {
      NewKey(s, i);
    }
    if step.Leave? && step.i != i && !Refused(s.calls[i]) && !Refused(s.calls[step.i]) {
      OtherPending(s, i, step.i);
    }
  }

  lemma NewCallOk(s: State)
    requires Inv(s)
    ensures var s' := Apply(s, Begin);
      |s'.calls| == |s.calls| + 1 && CallOk(s'.calls[|s.calls|], |s.calls|, s')
  {
    hide CallKey;
  }

  lemma PendingKept(s: State, step: Step)
    requires Inv(s) && Enabled(s, step)
    ensures PendingOk(Apply(s, step))
  {
    hide CallKey, HandIsNew, LinesDiffer, Has, IdsDiffer, LineOk;
    var s' := Apply(s, step);
    forall k | k in s'.pending
      ensures !s'.gone && s'.pending[k] < |s'.calls|
      ensures k == CallKey(s'.calls[s'.pending[k]].id) && Open(s'.calls[s'.pending[k]].phase)
    {
      if step.Begin? && k == CallKey(s.nextID + 1) {
      } else {
        assert k in s.pending;
      }
    }
  }

  lemma IdsKept(s: State, step: Step)
    requires Inv(s) && Enabled(s, step)
    ensures IdsDiffer(Apply(s, step).calls)
  {
    hide CallKey, HandIsNew, LinesDiffer, Has, LineOk, PendingOk;
    var s' := Apply(s, step);
    forall i, j | 0 <= i < j < |s'.calls| && !Refused(s'.calls[i]) && !Refused(s'.calls[j])
      ensures s'.calls[i].id < s'.calls[j].id
    {
      assert CallOk(s.calls[i], i, s);
      assert !step.Leave? ==> (j < |s.calls| ==> Refused(s.calls[j]) == Refused(s'.calls[j]));
    }
  }

  lemma ReaderKept(s: State, step: Step)
    requires Inv(s) && Enabled(s, step)
    ensures ReaderOk(Apply(s, step))
  {
    hide CallKey, HandIsNew, LinesDiffer, Has, LineOk, IdsDiffer;
    if step.Take? && step.key in s.pending {
      assert CallOk(s.calls[s.pending[step.key]], s.pending[step.key], s);
    }
  }

  lemma OfferKept(s: State, step: Step, i: nat)
    requires Inv(s) && Enabled(s, step) && i < |s.calls|
    ensures step.Offer? && Refused(s.calls[i]) ==> Apply(s, step).calls[i] == s.calls[i]
  {
    hide CallKey, HandIsNew, LinesDiffer, Has, PendingOk, IdsDiffer;
  }

  /** A step gives a call no line but the one in the reader's hand. */
  lemma HasKept(s: State, step: Step, i: nat, n: nat)
    requires Enabled(s, step) && i < |Apply(s, step).calls| && Has(Apply(s, step).calls[i], n)
    ensures (step.Offer? && i == s.reader.call && n == s.reader.line.number) || (i < |s.calls| && Has(s.calls[i], n))
  {
    hide CallKey;
  }

  lemma HasIsHeard(s: State, i: nat, n: nat)
    requires Inv(s) && i < |s.calls| && Has(s.calls[i], n)
    ensures n < s.heard
  {
    hide CallKey, HandIsNew, LinesDiffer, PendingOk, IdsDiffer;
    assert CallOk(s.calls[i], i, s);
  }

  lemma HandKept(s: State, step: Step)
    requires Inv(s) && Enabled(s, step)
    ensures HandIsNew(Apply(s, step))
  {
    hide CallKey, LinesDiffer, PendingOk, IdsDiffer, Has, LineOk;
    var s' := Apply(s, step);
    if s'.reader.Holding? {
      forall i | 0 <= i < |s'.calls| ensures !Has(s'.calls[i], s'.reader.line.number) {
        if Has(s'.calls[i], s'.reader.line.number) {
          HasKept(s, step, i, s'.reader.line.number);
          HasIsHeard(s, i, s'.reader.line.number);
        }
      }
    }
  }

  lemma LinesKept(s: State, step: Step)
    requires Inv(s) && Enabled(s, step)
    ensures LinesDiffer(Apply(s, step).calls)
  {
    hide CallKey, PendingOk, IdsDiffer, Has, LineOk, Apply;
    var s' := Apply(s, step);
    forall i, j, n | 0 <= i < j < |s'.calls| && Has(s'.calls[i], n) ensures !Has(s'.calls[j], n) {
      if Has(s'.calls[j], n) {
        HasKept(s, step, i, n);
        HasKept(s, step, j, n);
      }
    }
  }

  lemma Keeps(s: State, step: Step)
    requires Inv(s) && Enabled(s, step)
    ensures Inv(Apply(s, step))
  {
    hide CallKey, PendingOk, IdsDiffer, LinesDiffer, HandIsNew, CallOk, ReaderOk;
    PendingKept(s, step);
    IdsKept(s, step);
    ReaderKept(s, step);
    HandKept(s, step);
    LinesKept(s, step);
    var s' := Apply(s, step);
    forall i | 0 <= i < |s'.calls| ensures CallOk(s'.calls[i], i, s') {
      if i < |s.calls| { CallKept(s, step, i); } else { NewCallOk(s); }
    }
  }

  lemma {:induction false} InvAfter(s: State, steps: seq<Step>)
    requires Inv(s) && Legal(s, steps)
    ensures Inv(After(s, steps))
    decreases |steps|
  {
    hide Inv, Apply, Enabled;
    if steps != [] {
      Keeps(s, steps[0]);
      InvAfter(Apply(s, steps[0]), steps[1..]);
    }
  }

  lemma ReachableInv(s: State)
    requires Reachable(s)
    ensures Inv(s)
  {
    hide Legal, After;
    var steps :| Legal(START, steps) && After(START, steps) == s;
    InvAfter(START, steps);
  }

  // ---------------------------------------------------------------- theorems

  predicate GotLine(c: Call, line: Line) {
    c.phase == Returned(Got(line))
  }

  /** A call returns only a reply with its own id, and no reply goes to two calls. */
  lemma OnlyItsOwnReply(s: State, i: nat, j: nat, line: Line)
    requires Reachable(s) && i < |s.calls| && j < |s.calls| && GotLine(s.calls[i], line)
    ensures line.key == CallKey(s.calls[i].id) && line.number < s.heard
    ensures GotLine(s.calls[j], line) ==> i == j
  {
    hide CallKey, PendingOk, IdsDiffer, Reachable;
    ReachableInv(s);
    assert CallOk(s.calls[i], i, s);
    if i < j {
      assert Has(s.calls[i], line.number) ==> !Has(s.calls[j], line.number);
    } else if j < i {
      assert Has(s.calls[j], line.number) ==> !Has(s.calls[i], line.number);
    }
  }

  /** Ids are never reused: no two calls that asked the host anything share one. */
  lemma IdsNeverReused(s: State, i: nat, j: nat)
    requires Reachable(s) && i < |s.calls| && j < |s.calls| && i != j && !Refused(s.calls[i]) && !Refused(s.calls[j])
    ensures CallKey(s.calls[i].id) != CallKey(s.calls[j].id)
  {
    hide CallKey, Reachable, PendingOk, HandIsNew, LinesDiffer;
    ReachableInv(s);
    OtherPending(s, i, j);
  }

  /** Delivery never blocks the reader, and never meets a closed channel: a line in hand can be
      offered at once, and nothing closes a channel while the reader holds a line for it. */
  lemma DeliveryNeverBlocks(s: State)
    requires Reachable(s) && s.reader.Holding?
    ensures Enabled(s, Offer) && Apply(s, Offer).reader.Idle? && !s.calls[s.reader.call].closed
  {
    hide CallKey, Reachable, PendingOk, HandIsNew, LinesDiffer, IdsDiffer;
    ReachableInv(s);
    assert CallOk(s.calls[s.reader.call], s.reader.call, s);
  }

  /** A reply that repeats a call's id as a string reaches that call while it is open. */
  lemma EchoReachesItsCall(s: State, i: nat)
    requires Reachable(s) && s.reader.Idle? && i < |s.calls| && Open(s.calls[i].phase)
    ensures !s.gone && var s' := Apply(s, Take(IdKey(Text(CallKey(s.calls[i].id)))));
      s'.reader == Holding(i, Line(s.heard, CallKey(s.calls[i].id))) && s'.heard == s.heard + 1
  {
    hide CallKey, Reachable, HandIsNew, LinesDiffer, IdsDiffer;
    ReachableInv(s);
    assert CallOk(s.calls[i], i, s);
  }

  /** A late, repeated or unknown reply touches no call: nothing waits under its id. */
  lemma UnclaimedReplyIsDropped(s: State, key: string)
    requires Reachable(s) && s.reader.Idle?
    requires forall i :: 0 <= i < |s.calls| && Open(s.calls[i].phase) ==> CallKey(s.calls[i].id) != key
    ensures Apply(s, Take(key)) == s.(heard := s.heard + 1)
  {
    hide CallKey, Reachable, HandIsNew, LinesDiffer, IdsDiffer;
    ReachableInv(s);
  }

  /** A call that was given `line`: it waits in the channel until the call stops waiting, and no
      other reply is what the call leaves or returns with. */
  predicate Settled(c: Call, line: Line) {
    if c.phase.Leaving? || c.phase.Returned? then c.phase.result.Got? ==> c.phase.result.line == line
    else c.buffer == Some(line)
  }

  lemma SettledStays(s: State, step: Step, i: nat, line: Line)
    requires Enabled(s, step) && i < |s.calls| && Settled(s.calls[i], line)
    ensures i < |Apply(s, step).calls| && Settled(Apply(s, step).calls[i], line)
  {
    hide CallKey;
  }

  /** A second reply for a call that has its answer changes no call while the first one is in the
      channel, and whenever it comes, over every continuation, the first reply is the answer. */
  lemma {:induction false} DuplicateIsDropped(s: State, steps: seq<Step>, i: nat, line: Line)
    requires Legal(s, steps) && i < |s.calls| && Settled(s.calls[i], line)
    ensures s.reader.Holding? && s.reader.call == i && s.calls[i].buffer.Some? ==> Apply(s, Offer).calls == s.calls
    ensures i < |After(s, steps).calls| && Settled(After(s, steps).calls[i], line)
    decreases |steps|
  {
    hide Settled, CallKey, CloseAll;
    if steps != [] {
      SettledStays(s, steps[0], i, line);
      DuplicateIsDropped(Apply(s, steps[0]), steps[1..], i, line);
    }
  }

  /** The first reply delivered to a call that still waits is the only one it can return. */
  lemma FirstReplyWins(s: State, steps: seq<Step>, got: Line)
    requires Enabled(s, Offer) && Legal(Apply(s, Offer), steps)
    requires var c := s.calls[s.reader.call];
      c.buffer.None? && (c.phase.Registered? || c.phase.Waiting?)
    ensures var (i, s') := (s.reader.call, After(Apply(s, Offer), steps));
      i < |s'.calls| && (GotLine(s'.calls[i], got) ==> got == s.reader.line)
  {
    hide Legal, After;
    DuplicateIsDropped(Apply(s, Offer), steps, s.reader.call, s.reader.line);
  }

  /** After the stream ends every waiting call can return at once: what was already delivered to
      it, or the failure. */
  lemma EndReleasesEveryone(s: State, i: nat)
    requires Reachable(s) && s.gone && i < |s.calls| && s.calls[i].phase.Waiting?
    ensures s.calls[i].buffer.Some? ==> Enabled(s, Receive(i))
    ensures s.calls[i].buffer.None? ==> Enabled(s, SeeClosed(i))
    ensures s.pending == map[] && s.reader.Ended?
  {
    hide CallKey, Reachable, HandIsNew, LinesDiffer, IdsDiffer;
    ReachableInv(s);
    assert CallOk(s.calls[i], i, s);
    NothingPending(s);
  }

  lemma NothingPending(s: State)
    requires Inv(s) && s.gone
    ensures s.pending == map[]
  {
    hide CallKey, HandIsNew, LinesDiffer, IdsDiffer;
    assert forall k :: k !in s.pending;
  }

  predicate WithoutReply(c: Call) {
    c.buffer.None? && !((c.phase.Leaving? || c.phase.Returned?) && c.phase.result.Got?)
  }

  /** ... and no call gets a reply after that which it did not have when the stream ended: every
      later call is refused outright. */
  lemma {:induction false} NothingAfterTheEnd(s: State, steps: seq<Step>, i: nat)
    requires Inv(s) && s.gone && Legal(s, steps) && i < |After(s, steps).calls|
    requires i < |s.calls| ==> WithoutReply(s.calls[i])
    ensures After(s, steps).gone && WithoutReply(After(s, steps).calls[i])
    ensures i >= |s.calls| ==> Refused(After(s, steps).calls[i])
    decreases |steps|
  {
    hide CallKey, HandIsNew, LinesDiffer, IdsDiffer, PendingOk, CallOk;
    if steps != [] {
      Keeps(s, steps[0]);
      EndStep(s, steps[0], i);
      hide Apply, Inv;
      if i == |s.calls| && |Apply(s, steps[0]).calls| > i {
        RefusedStays(Apply(s, steps[0]), steps[1..], i);
      }
      NothingAfterTheEnd(Apply(s, steps[0]), steps[1..], i);
    }
  }

  lemma EndStep(s: State, step: Step, i: nat)
    requires Inv(s) && s.gone && Enabled(s, step)
    ensures var s' := Apply(s, step);
      && s'.gone && |s.calls| <= |s'.calls| <= |s.calls| + 1
      && (i < |s.calls| && WithoutReply(s.calls[i]) ==> WithoutReply(s'.calls[i]))
      && (i == |s.calls| < |s'.calls| ==> Refused(s'.calls[i]) && WithoutReply(s'.calls[i]))
  {
    hide CallKey, HandIsNew, LinesDiffer, IdsDiffer, PendingOk, CallOk;
  }

  lemma {:induction false} RefusedStays(s: State, steps: seq<Step>, i: nat)
    requires Legal(s, steps) && i < |s.calls| && Refused(s.calls[i]) && s.gone && s.reader.Ended?
    ensures i < |After(s, steps).calls| && Refused(After(s, steps).calls[i])
    decreases |steps|
  {
    hide CallKey;
    if steps != [] {
      RefusedStays(Apply(s, steps[0]), steps[1..], i);
    }
  }
}
