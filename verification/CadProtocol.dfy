/** The CAD worker's admission, cancellation and recovery protocol as a transition
    system. One step is one critical section of the runner mutex (`mu`) or of the
    registration mutex (`inflightMu`), or one unlocked action between two of them: the
    pump's channel receive, a return from the bridge, a change of a context.

    `cancelEvaluation` is several steps, because the pump receives from the queue without
    `mu` and can slip between two iterations of the rotation loop.

    Contexts are monotone "cancelled" bits. A branch taken because an unlocked read of such
    a bit (or of `OwnedRetired`) was false is allowed even if the bit has risen since; where
    nothing follows such a look, as when the pump keeps a reservation, the step is the look. */
module CadProtocol {
  import opened Common

  const MAX_WORKER_TASKS := 16
  const MAX_WORKER_BYTES := 0x200_0000

  /** Root is the process lifetime; every registered evaluation derives its own context
      from it. Foreign covers the contexts of every other caller. */
  datatype Ctx = Root | Foreign(id: nat) | Derived(eval: nat)

  datatype Verb = Evaluate | Other

  /** `captured` is the epoch of the `epochCaller` that the reservation came through, which never
      rebinds it; 0 when it came through none. */
  datatype Ticket = Ticket(bytes: nat, owned: bool, epoch: nat, completed: bool, cancelled: bool, captured: nat)

  /** The part of a task that never changes; its reservation names it. */
  datatype Task = Task(ticket: nat, ctx: Ctx, verb: Verb, bytes: nat, epoch: nat)

  datatype Outcome = Success | Crashed | Failed

  /** Where the pump goroutine stands in `run`. The runner's `active` task is the pump's own
      from Starting to Called, and only the pump assigns it; `gen` and `stop` are that
      task's `generation` and `interruption`. */
  datatype Pump =
    | Idle
    | Hand(task: Task)                                   // received, nothing decided
    | Starting(task: Task)                               // active, StartOwned running
    | Started(task: Task, gen: nat, err: bool)           // StartOwned has returned
    | Calling(task: Task, gen: nat, stop: Option<nat>)   // committed, CallOwned running
    | Called(task: Task, gen: nat, committed: bool, outcome: Outcome, hold: bool, stop: Option<nat>)
    | Done(task: Task, gen: nat, outcome: Outcome, hold: bool, stop: Option<nat>)
    | Retiring(task: Task, gen: nat, outcome: Outcome, hold: bool)   // the pump's own RetireOwned
    | Settled(task: Task, outcome: Outcome, hold: bool, stop: Option<nat>)
    | Replied(task: Task, hold: bool, stop: Option<nat>)
    | Waiting(stop: Option<nat>)                         // until the recovery is done
    | Stopping
    | Draining
    | DrainHand(task: Task)
    | Exited

  /** The recovery goroutine of one interruption. */
  datatype Phase =
    | Fresh                       // interruption recorded, goroutine not spawned yet
    | RetiringOld                 // RetireOwned running
    | RetiredOld(err: bool)
    | StartingNew                 // nativeDone closed, StartOwned running
    | StartedNew(gen: nat, err: bool)
    | Closing                     // nativeDone closed, done about to close
    | Closed

  datatype Stop = Stop(gen: nat, phase: Phase, replacement: nat)

  /** Why the holder of `inflightMu` cancels: a newer registration under the same
      request_id, or a cancel control. */
  datatype Purpose = Supersede(newer: nat) | CancelRequest

  /** What the rotation loop has seen so far. `entry` is the queue at entry; `kept` are the
      tasks sent back, `dropped` those answered, `taken` what the pump received meanwhile. */
  datatype Scan = Scan(entry: seq<Task>, rounds: nat, hand: Option<Task>,
                       kept: seq<Task>, dropped: seq<Task>, taken: Option<Task>)

  /** Who holds `inflightMu` and how far its cancellation is. `mu` is held exactly in
      Rotating and Fencing. */
  datatype Control =
    | Free
    | Entering(why: Purpose, victim: nat)
    | Rotating(why: Purpose, victim: nat, scan: Scan)
    | Fencing(why: Purpose, victim: nat, interruption: nat)
    | Decided(why: Purpose, victim: nat, answer: bool, receipt: Option<nat>)

  datatype EvalPhase = Reserved | Registered | Bound | Ended

  datatype Eval = Eval(ticket: nat, key: string, phase: EvalPhase, result: Option<bool>)

  /** The reservation accounts: `count`, `bytes` and the queue are the runner's own; `held`
      and `released` record where the other reservations went. */
  datatype Book = Book(tickets: seq<Ticket>, count: int, bytes: int, queue: seq<Task>,
                       held: seq<Task>, released: multiset<nat>)

  datatype Fence = Fence(epoch: nat, failed: bool, stopped: bool)

  datatype Registry = Registry(evals: seq<Eval>, inflight: map<string, nat>,
                               revoked: set<nat>, published: set<nat>)

  datatype World = World(down: bool, ended: set<Ctx>, retired: set<nat>)

  datatype Admission = Admission(epoch: nat, ctx: Ctx)

  datatype Commitment = Commitment(gen: nat, epoch: nat)

  /** When the runner refused to run a task: the epoch of the refusal, and the task's context if
      that had ended. */
  datatype Refusal = Refusal(epoch: nat, ended: Option<Ctx>)

  /** Observations about reservations that no step reads: the epoch and context a task was
      admitted with, the generation and epoch it was committed to, the runner's refusal to run it, the
      generation in trouble under it, and its reply (true for a result). */
  datatype History = History(admitted: map<nat, Admission>, committed: map<nat, Commitment>,
                             refused: map<nat, Refusal>, troubled: map<nat, nat>, replies: map<nat, bool>)

  datatype State = State(book: Book, fence: Fence, pump: Pump, stops: seq<Stop>, control: Control,
                         registry: Registry, world: World, history: History)

  function Init(): State {
    State(Book([], 0, 0, [], [], multiset{}), Fence(1, false, false), Idle, [], Free,
          Registry([], map[], {}, {}), World(false, {}, {}),
          History(map[], map[], map[], map[], map[]))
  }

  predicate Cancelled(w: World, ctx: Ctx) {
    match ctx
    case Root => w.down
    case Foreign(_) => ctx in w.ended
    case Derived(_) => w.down || ctx in w.ended
  }

  predicate MuFree(c: Control) {
    !c.Rotating? && !c.Fencing?
  }

  /** The two channels of an interruption: `nativeDone` is closed from here on, `done` only
      in Closed. */
  predicate NativeDone(p: Phase) {
    p.StartingNew? || p.StartedNew? || p.Closing? || p.Closed?
  }

  function PumpTask(p: Pump): Option<Task> {
    match p
    case Idle => None
    case Waiting(_) => None
    case Stopping => None
    case Draining => None
    case Exited => None
    case _ => Some(p.task)
  }

  function Active(p: Pump): Option<Task> {
    if p.Starting? || p.Started? || p.Calling? || p.Called? then Some(p.task) else None
  }

  // ---------------------------------------------------------------- steps

  datatype Step =
    | Env(env: EnvStep)
    | Caller(caller: CallerStep)
    | Registering(registering: RegistryStep)
    | Cancel(cancel: CancelStep)
    | Pumping(pumping: PumpStep)
    | Recovery(index: nat, recovery: RecoveryStep)

  datatype EnvStep = Shutdown | EndForeign(id: nat) | GenerationDies(gen: nat)

  datatype CallerStep =
    | Reserve(size: nat, ctx: Ctx, fence: nat)
    | Rebind(ticket: nat)
    | ReleaseUnused(ticket: nat)
    | Admit(ticket: nat, ctx: Ctx, verb: Verb, size: nat)

  datatype RegistryStep =
    | EvalReserve(key: string, size: nat)
    | Begin(eval: nat)
    | Bind(eval: nat)
    | EvalAdmit(eval: nat, size: nat)
    | EvalReturns(eval: nat, ok: bool)
    | End(eval: nat)
    | CancelControl(key: string)
    | Conclude

  datatype CancelStep = Enter | Take | Put | Decide | FenceDrop | Spawn

  datatype PumpStep =
    | Dequeue | StopIdle | DropDown | DropEnded | Refuse | Activate
    | NoWorker | StartReturns(gen: nat, err: bool) | Commit
    | StartFault(crash: bool, seenRetired: bool) | CallReturns(outcome: Outcome)
    | Complete | SeeInterruption | BeginRetire | Settle
    | RetireReturns(err: bool, seenRetired: bool)
    | Reply(ok: bool) | SkipReply | GiveBack | Keep | Resume
    | MarkStopped | DrainTake | DrainRelease | DrainEnd

  datatype RecoveryStep =
    | OldRetired(err: bool) | NoteRetired | NewStarted(gen: nat, err: bool) | NoteStarted | CloseDone

  predicate Enabled(s: State, step: Step) {
    match step
    case Env(e) => true
    case Caller(c) => CallerEnabled(s, c)
    case Registering(r) => RegistryEnabled(s, r)
    case Cancel(k) => CancelEnabled(s, k)
    case Pumping(p) => PumpEnabled(s, p)
    case Recovery(i, r) => i < |s.stops| && RecoveryEnabled(s, i, r)
  }

  function Apply(s: State, step: Step): State
    requires Enabled(s, step)
  {
    match step
    case Env(e) => s.(world := EnvApply(s.world, e))
    case Caller(c) => CallerApply(s, c)
    case Registering(r) => RegistryApply(s, r)
    case Cancel(k) => CancelApply(s, k)
    case Pumping(p) => PumpApply(s, p)
    case Recovery(i, r) => RecoveryApply(s, i, r)
  }

  // ---------------------------------------------------------------- environment

  function EnvApply(w: World, e: EnvStep): World {
    match e
    case Shutdown => w.(down := true)
    case EndForeign(id) => w.(ended := w.ended + {Foreign(id)})
    case GenerationDies(gen) => w.(retired := w.retired + {gen})
  }

  // ---------------------------------------------------------------- tickets

  /** Every refusal of `reserveEpoch`; a fence of 0 asks for no particular epoch. */
  predicate CanReserve(s: State, size: nat, ctx: Ctx, fence: nat) {
    && !Cancelled(s.world, ctx)
    && !s.fence.stopped && !s.world.down && !s.fence.failed
    && (fence == 0 || fence == s.fence.epoch)
    && s.book.count < MAX_WORKER_TASKS && size <= MAX_WORKER_BYTES - s.book.bytes
  }

  function DoReserve(b: Book, size: nat, epoch: nat, captured: nat): Book {
    b.(tickets := b.tickets + [Ticket(size, true, epoch, false, false, captured)],
       count := b.count + 1, bytes := b.bytes + size)
  }

  function DoBind(b: Book, t: nat, epoch: nat): Book
    requires t < |b.tickets|
  {
    b.(tickets := b.tickets[t := b.tickets[t].(epoch := epoch)])
  }

  function DoReleaseUnused(b: Book, t: nat): Book
    requires t < |b.tickets|
  {
    if b.tickets[t].owned then
      b.(tickets := b.tickets[t := b.tickets[t].(owned := false)],
         count := b.count - 1, bytes := b.bytes - b.tickets[t].bytes,
         released := b.released + multiset{t})
    else b
  }

  /** Every refusal of `ticket.Call` before its task is sent. */
  predicate CanAdmit(s: State, t: nat, ctx: Ctx, size: nat)
    requires t < |s.book.tickets|
  {
    var ticket := s.book.tickets[t];
    && ticket.owned && !ticket.cancelled && !Cancelled(s.world, ctx)
    && !s.fence.stopped && !s.world.down
    && ticket.epoch == s.fence.epoch && !s.fence.failed && size == ticket.bytes
  }

  function DoAdmit(b: Book, task: Task): Book
    requires task.ticket < |b.tickets|
  {
    b.(tickets := b.tickets[task.ticket := b.tickets[task.ticket].(owned := false)], queue := b.queue + [task])
  }

  /** `releaseLocked`: the reservation of a task ends and its ticket is completed. */
  function DoRelease(b: Book, task: Task): Book
    requires task.ticket < |b.tickets|
  {
    b.(tickets := b.tickets[task.ticket := b.tickets[task.ticket].(completed := true)],
       count := b.count - 1, bytes := b.bytes - task.bytes,
       released := b.released + multiset{task.ticket})
  }

  /** A reservation made for an evaluation with a request_id. */
  predicate ForEval(evals: seq<Eval>, t: nat) {
    exists e :: 0 <= e < |evals| && evals[e].ticket == t
  }

  predicate CallerEnabled(s: State, c: CallerStep) {
    MuFree(s.control) &&
    match c
    case Reserve(size, ctx, fence) => !ctx.Derived? && CanReserve(s, size, ctx, fence)
    case Rebind(t) => t < |s.book.tickets| && !ForEval(s.registry.evals, t) && s.book.tickets[t].captured == 0
    case ReleaseUnused(t) => t < |s.book.tickets|
    case Admit(t, ctx, _, size) =>
      t < |s.book.tickets| && !ForEval(s.registry.evals, t) && !ctx.Derived? && CanAdmit(s, t, ctx, size)
  }

  /** A task is sent with the epoch of its ticket. */
  function Send(s: State, t: nat, ctx: Ctx, verb: Verb, size: nat): State
    requires t < |s.book.tickets|
  {
    var task := Task(t, ctx, verb, size, s.book.tickets[t].epoch);
    s.(book := DoAdmit(s.book, task),
       history := s.history.(admitted := s.history.admitted[t := Admission(task.epoch, ctx)]))
  }

  function CallerApply(s: State, c: CallerStep): State
    requires CallerEnabled(s, c)
  {
    match c
    case Reserve(size, _, fence) => s.(book := DoReserve(s.book, size, s.fence.epoch, fence))
    case Rebind(t) => s.(book := DoBind(s.book, t, s.fence.epoch))
    case ReleaseUnused(t) => s.(book := DoReleaseUnused(s.book, t))
    case Admit(t, ctx, verb, size) => Send(s, t, ctx, verb, size)
  }

  // ---------------------------------------------------------------- registration

  predicate KnownEval(s: State, e: nat) {
    e < |s.registry.evals| && s.registry.evals[e].ticket < |s.book.tickets|
  }

  predicate RegistryEnabled(s: State, r: RegistryStep) {
    match r
    case EvalReserve(key, size) => MuFree(s.control) && key != "" && CanReserve(s, size, Root, 0)
    case Begin(e) => s.control.Free? && KnownEval(s, e) && s.registry.evals[e].phase.Reserved?
    case Bind(e) => MuFree(s.control) && KnownEval(s, e) && s.registry.evals[e].phase.Registered?
    case EvalAdmit(e, size) =>
      && MuFree(s.control) && KnownEval(s, e) && s.registry.evals[e].phase.Bound? && s.registry.evals[e].result.None?
      && CanAdmit(s, s.registry.evals[e].ticket, Derived(e), size)
    case EvalReturns(e, ok) =>
      // The caller keeps its reply only if its context is still live afterwards.
      && KnownEval(s, e) && s.registry.evals[e].phase.Bound? && s.registry.evals[e].result.None?
      && (ok ==> !Cancelled(s.world, Derived(e)) && s.registry.evals[e].ticket in s.history.replies
                 && s.history.replies[s.registry.evals[e].ticket])
    case End(e) =>
      s.control.Free? && KnownEval(s, e) && s.registry.evals[e].phase.Bound? && s.registry.evals[e].result.Some?
    case CancelControl(key) => s.control.Free? && key in s.registry.inflight
    case Conclude =>
      && s.control.Decided? && KnownEval(s, s.control.victim)
      && (s.control.why.Supersede? ==> KnownEval(s, s.control.why.newer))
  }

  function DoRegister(g: Registry, e: nat): Registry
    requires e < |g.evals|
  {
    g.(inflight := g.inflight[g.evals[e].key := e], evals := g.evals[e := g.evals[e].(phase := Registered)])
  }

  function DoPhase(g: Registry, e: nat, phase: EvalPhase): Registry
    requires e < |g.evals|
  {
    g.(evals := g.evals[e := g.evals[e].(phase := phase)])
  }

  /** The end of the section that holds `inflightMu` around a cancellation. A superseded
      registration is replaced whatever the answer; a cancel control removes it only when
      the answer is true. */
  function DoConclude(g: Registry, why: Purpose, victim: nat, answer: bool): Registry
    requires victim < |g.evals| && (why.Supersede? ==> why.newer < |g.evals|)
  {
    match why
    case Supersede(newer) => DoRegister(g.(revoked := g.revoked + {victim}), newer)
    case CancelRequest =>
      if answer then g.(revoked := g.revoked + {victim}, inflight := g.inflight - {g.evals[victim].key}) else g
  }

  /** `endEvaluateCancellable` and the publication that follows it: only the registration's
      own context removes it, and only a live one publishes. */
  function DoEnd(g: Registry, e: nat, live: bool): Registry
    requires e < |g.evals| && g.evals[e].result.Some?
  {
    var closed := DoPhase(g, e, Ended);
    if OwnsKey(g, e) then
      closed.(inflight := g.inflight - {g.evals[e].key},
              published := if live && g.evals[e].result.value then g.published + {e} else g.published)
    else closed
  }

  predicate OwnsKey(g: Registry, e: nat)
    requires e < |g.evals|
  {
    g.evals[e].key in g.inflight && g.inflight[g.evals[e].key] == e
  }

  function EndCtx(w: World, e: nat): World {
    w.(ended := w.ended + {Derived(e)})
  }

  function RegistryApply(s: State, r: RegistryStep): State
    requires RegistryEnabled(s, r)
  {
    var g := s.registry;
    match r
    case EvalReserve(key, size) =>
      s.(book := DoReserve(s.book, size, s.fence.epoch, 0),
         registry := g.(evals := g.evals + [Eval(|s.book.tickets|, key, Reserved, None)]))
    case Begin(e) =>
      if g.evals[e].key in g.inflight then s.(control := Entering(Supersede(e), g.inflight[g.evals[e].key]))
      else s.(registry := DoRegister(g, e))
    case Bind(e) =>
      s.(book := DoBind(s.book, g.evals[e].ticket, s.fence.epoch), registry := DoPhase(g, e, Bound))
    case EvalAdmit(e, size) => Send(s, g.evals[e].ticket, Derived(e), Evaluate, size)
    case EvalReturns(e, ok) => s.(registry := g.(evals := g.evals[e := g.evals[e].(result := Some(ok))]))
    case End(e) =>
      s.(registry := DoEnd(g, e, !Cancelled(s.world, Derived(e))),
         world := if OwnsKey(g, e) then EndCtx(s.world, e) else s.world)
    case CancelControl(key) => s.(control := Entering(CancelRequest, g.inflight[key]))
    case Conclude =>
      s.(registry := DoConclude(g, s.control.why, s.control.victim, s.control.answer), control := Free,
         world := if s.control.why.Supersede? || s.control.answer then EndCtx(s.world, s.control.victim) else s.world)
  }

  // ---------------------------------------------------------------- cancelEvaluation

  predicate Matches(task: Task, victim: nat) {
    task.ctx == Derived(victim) && task.verb == Evaluate
  }

  /** The active task can be interrupted natively: it is the victim's evaluation and is
      committed to a process generation. */
  predicate Interruptible(p: Pump, victim: nat) {
    (p.Calling? || (p.Called? && p.committed)) && Matches(p.task, victim)
  }

  function Interrupt(p: Pump, stop: nat): Pump {
    match p
    case Calling(task, gen, _) => Calling(task, gen, Some(stop))
    case Called(task, gen, committed, outcome, hold, _) => Called(task, gen, committed, outcome, hold, Some(stop))
    case _ => p
  }

  predicate CancelEnabled(s: State, k: CancelStep) {
    match k
    case Enter => s.control.Entering? && KnownEval(s, s.control.victim)
    case Take =>
      && s.control.Rotating? && s.control.scan.hand.None? && s.book.queue != []
      && s.control.scan.rounds < |s.control.scan.entry|
    case Put =>
      s.control.Rotating? && s.control.scan.hand.Some? && s.control.scan.hand.value.ticket < |s.book.tickets|
    case Decide =>
      && s.control.Rotating? && s.control.scan.hand.None?
      && (s.control.scan.rounds == |s.control.scan.entry| || s.book.queue == [])
    case FenceDrop => s.control.Fencing? && s.book.queue != [] && s.book.queue[0].ticket < |s.book.tickets|
    case Spawn => s.control.Fencing? && s.book.queue == [] && s.control.interruption < |s.stops|
  }

  function Answered(h: History, t: nat, ok: bool): History {
    h.(replies := h.replies[t := ok])
  }

  function Refused(h: History, t: nat, why: Refusal): History {
    h.(refused := h.refused[t := why])
  }

  /** A task turned away with a negative reply. */
  function TurnedAway(h: History, t: nat, epoch: nat): History {
    Refused(Answered(h, t, false), t, Refusal(epoch, None))
  }

  function MarkCancelled(b: Book, t: nat): Book
    requires t < |b.tickets|
  {
    b.(tickets := b.tickets[t := b.tickets[t].(cancelled := true)])
  }

  function TakeHead(b: Book): Book
    requires b.queue != []
  {
    b.(queue := b.queue[1..])
  }

  function DoEnter(s: State, why: Purpose, victim: nat): State
    requires KnownEval(s, victim)
  {
    var t := s.registry.evals[victim].ticket;
    if s.book.tickets[t].completed then s.(control := Decided(why, victim, false, None))
    else s.(book := MarkCancelled(s.book, t),
            control := Rotating(why, victim, Scan(s.book.queue, 0, None, [], [], None)))
  }

  function DoPut(s: State, why: Purpose, victim: nat, scan: Scan, task: Task): State
    requires task.ticket < |s.book.tickets|
  {
    var next := scan.(rounds := scan.rounds + 1, hand := None);
    if Matches(task, victim) then
      s.(book := DoRelease(s.book, task), history := TurnedAway(s.history, task.ticket, s.fence.epoch),
         control := Rotating(why, victim, next.(dropped := scan.dropped + [task])))
    else
      s.(book := s.book.(queue := s.book.queue + [task]),
         control := Rotating(why, victim, next.(kept := scan.kept + [task])))
  }

  function DoDecide(s: State, why: Purpose, victim: nat): State {
    if !Interruptible(s.pump, victim) then s.(control := Decided(why, victim, true, None))
    else if s.pump.stop.Some? then s.(control := Decided(why, victim, true, s.pump.stop))
    else s.(stops := s.stops + [Stop(s.pump.gen, Fresh, 0)],
            pump := Interrupt(s.pump, |s.stops|),
            fence := s.fence.(epoch := s.fence.epoch + 1),
            control := Fencing(why, victim, |s.stops|))
  }

  function CancelApply(s: State, k: CancelStep): State
    requires CancelEnabled(s, k)
  {
    match k
    case Enter => DoEnter(s, s.control.why, s.control.victim)
    case Take =>
      s.(book := TakeHead(s.book),
         control := s.control.(scan := s.control.scan.(hand := Some(s.book.queue[0]))))
    case Put => DoPut(s, s.control.why, s.control.victim, s.control.scan, s.control.scan.hand.value)
    case Decide => DoDecide(s, s.control.why, s.control.victim)
    case FenceDrop =>
      var task := s.book.queue[0];
      s.(book := DoRelease(TakeHead(s.book), task),
         history := TurnedAway(s.history, task.ticket, s.fence.epoch))
    case Spawn =>
      var i := s.control.interruption;
      s.(stops := s.stops[i := s.stops[i].(phase := RetiringOld)],
         control := Decided(s.control.why, s.control.victim, true, Some(i)))
  }

  // ---------------------------------------------------------------- the pump

  predicate PumpKnown(s: State) {
    PumpTask(s.pump).Some? && s.pump.task.ticket < |s.book.tickets|
  }

  /** The pump refuses a task it holds instead of activating it. */
  predicate MustRefuse(s: State, task: Task)
    requires task.ticket < |s.book.tickets|
  {
    s.book.tickets[task.ticket].cancelled || task.epoch != s.fence.epoch || s.fence.failed
  }

  /** The commit section: the started generation may take this task. */
  predicate MayCommit(s: State, task: Task)
    requires task.ticket < |s.book.tickets|
  {
    !s.book.tickets[task.ticket].cancelled && !Cancelled(s.world, task.ctx) && task.epoch == s.fence.epoch
  }

  predicate StopRetired(s: State, stop: Option<nat>) {
    stop.Some? ==> stop.value < |s.stops| && s.stops[stop.value].gen in s.world.retired
  }

  predicate PumpEnabled(s: State, p: PumpStep) {
    match p
    case Dequeue => s.pump.Idle? && s.book.queue != []
    case StopIdle => s.pump.Idle? && s.world.down
    case DropDown => s.pump.Hand? && MuFree(s.control) && PumpKnown(s) && s.world.down
    case DropEnded => s.pump.Hand? && MuFree(s.control) && PumpKnown(s) && Cancelled(s.world, s.pump.task.ctx)
    case Refuse => s.pump.Hand? && MuFree(s.control) && PumpKnown(s) && MustRefuse(s, s.pump.task)
    case Activate => s.pump.Hand? && MuFree(s.control) && PumpKnown(s) && !MustRefuse(s, s.pump.task)
    case NoWorker => s.pump.Starting?
    case StartReturns(gen, err) => s.pump.Starting? && (!err ==> gen != 0 && gen !in s.world.retired)
    case Commit => s.pump.Started? && MuFree(s.control) && PumpKnown(s) && !s.pump.err
    case StartFault(_, seenRetired) =>
      s.pump.Started? && MuFree(s.control) && s.pump.err && (seenRetired ==> s.pump.gen in s.world.retired)
    case CallReturns(_) => s.pump.Calling?
    case Complete => s.pump.Called? && MuFree(s.control) && PumpKnown(s)
    case SeeInterruption =>
      s.pump.Done? && s.pump.stop.Some? && s.pump.stop.value < |s.stops| && NativeDone(s.stops[s.pump.stop.value].phase)
    case BeginRetire =>
      s.pump.Done? && s.pump.stop.None? && s.pump.gen != 0 && (s.pump.outcome.Crashed? || s.world.down)
    case Settle => s.pump.Done? && s.pump.stop.None? && (s.pump.gen == 0 || !s.pump.outcome.Crashed?)
    case RetireReturns(err, seenRetired) =>
      s.pump.Retiring? && (err ==> MuFree(s.control)) && (err && seenRetired ==> s.pump.gen in s.world.retired)
    case Reply(ok) => s.pump.Settled? && (ok ==> s.pump.outcome.Success?)
    case SkipReply => s.pump.Settled? && Cancelled(s.world, s.pump.task.ctx)
    case GiveBack => s.pump.Replied? && MuFree(s.control) && PumpKnown(s) && !s.pump.hold && StopRetired(s, s.pump.stop)
    case Keep => s.pump.Replied? && (s.pump.hold || !StopRetired(s, s.pump.stop))
    case Resume =>
      s.pump.Waiting? &&
        (s.pump.stop.Some? ==> s.pump.stop.value < |s.stops| && s.stops[s.pump.stop.value].phase.Closed?)
    case MarkStopped => s.pump.Stopping? && MuFree(s.control)
    case DrainTake => s.pump.Draining? && s.book.queue != []
    case DrainRelease => s.pump.DrainHand? && MuFree(s.control) && PumpKnown(s)
    case DrainEnd => s.pump.Draining? && s.book.queue == []
  }

  /** A receive without `mu`; a rotation under way shares the queue with it. */
  function DoDequeue(s: State, next: Pump): State
    requires s.book.queue != []
  {
    s.(book := TakeHead(s.book), pump := next,
       control := if s.control.Rotating?
                  then s.control.(scan := s.control.scan.(taken := Some(s.book.queue[0])))
                  else s.control)
  }

  function DoCommit(s: State, task: Task, gen: nat): State
    requires task.ticket < |s.book.tickets|
  {
    if MayCommit(s, task) then
      s.(history := s.history.(committed := s.history.committed[task.ticket := Commitment(gen, s.fence.epoch)]),
         pump := Calling(task, gen, None))
    else
      s.(history := Refused(s.history, task.ticket,
                            Refusal(s.fence.epoch, if Cancelled(s.world, task.ctx) then Some(task.ctx) else None)),
         pump := Called(task, gen, false, Failed, false, None))
  }

  function Trouble(h: History, t: nat, gen: nat): History {
    h.(troubled := h.troubled[t := gen])
  }

  /** A start error that leaves an unretired owner keeps the reservation and fails the runner. */
  function DoStartFault(s: State, task: Task, gen: nat, outcome: Outcome, seenRetired: bool): State {
    if gen == 0 then s.(pump := Called(task, gen, false, outcome, false, None))
    else if seenRetired then
      s.(pump := Called(task, gen, false, outcome, false, None), history := Trouble(s.history, task.ticket, gen))
    else
      s.(pump := Called(task, gen, false, outcome, true, None), history := Trouble(s.history, task.ticket, gen),
         fence := s.fence.(failed := true))
  }

  /** The completion/cancel boundary. */
  function DoComplete(s: State, task: Task, gen: nat, outcome: Outcome, hold: bool, stop: Option<nat>): State
    requires task.ticket < |s.book.tickets|
  {
    s.(book := s.book.(tickets := s.book.tickets[task.ticket := s.book.tickets[task.ticket].(completed := true)]),
       history := if gen != 0 && (stop.Some? || outcome.Crashed?) then Trouble(s.history, task.ticket, gen)
         else s.history,
       pump := Done(task, gen, outcome, hold, stop))
  }

  function PumpApply(s: State, p: PumpStep): State
    requires PumpEnabled(s, p)
  {
    match p
    case Dequeue => DoDequeue(s, Hand(s.book.queue[0]))
    case StopIdle => s.(pump := Stopping)
    case DropDown => s.(book := DoRelease(s.book, s.pump.task), pump := Stopping)
    case DropEnded => s.(book := DoRelease(s.book, s.pump.task), pump := Idle)
    case Refuse =>
      s.(book := DoRelease(s.book, s.pump.task), pump := Idle,
         history := TurnedAway(s.history, s.pump.task.ticket, s.fence.epoch))
    case Activate => s.(pump := Starting(s.pump.task))
    case NoWorker => s.(pump := Called(s.pump.task, 0, false, Failed, false, None))
    case StartReturns(gen, err) => s.(pump := Started(s.pump.task, gen, err))
    case Commit => DoCommit(s, s.pump.task, s.pump.gen)
    case StartFault(crash, seenRetired) =>
      DoStartFault(s, s.pump.task, s.pump.gen, if crash then Crashed else Failed, seenRetired)
    case CallReturns(outcome) => s.(pump := Called(s.pump.task, s.pump.gen, true, outcome, false, s.pump.stop))
    case Complete => DoComplete(s, s.pump.task, s.pump.gen, s.pump.outcome, s.pump.hold, s.pump.stop)
    case SeeInterruption => s.(pump := Settled(s.pump.task, Failed, s.pump.hold, s.pump.stop))
    case BeginRetire => s.(pump := Retiring(s.pump.task, s.pump.gen, s.pump.outcome, s.pump.hold))
    case Settle => s.(pump := Settled(s.pump.task, s.pump.outcome, s.pump.hold, None))
    case RetireReturns(err, seenRetired) =>
      if err then
        s.(fence := s.fence.(failed := true), pump := Settled(s.pump.task, s.pump.outcome, !seenRetired, None))
      else
        s.(world := s.world.(retired := s.world.retired + {s.pump.gen}),
           pump := Settled(s.pump.task, s.pump.outcome, s.pump.hold, None))
    case Reply(ok) =>
      s.(history := Answered(s.history, s.pump.task.ticket, ok), pump := Replied(s.pump.task, s.pump.hold, s.pump.stop))
    case SkipReply => s.(pump := Replied(s.pump.task, s.pump.hold, s.pump.stop))
    case GiveBack => s.(book := DoRelease(s.book, s.pump.task), pump := Waiting(s.pump.stop))
    case Keep => s.(book := s.book.(held := s.book.held + [s.pump.task]), pump := Waiting(s.pump.stop))
    case Resume => s.(pump := Idle)
    case MarkStopped => s.(fence := s.fence.(stopped := true), pump := Draining)
    case DrainTake => DoDequeue(s, DrainHand(s.book.queue[0]))
    case DrainRelease => s.(book := DoRelease(s.book, s.pump.task), pump := Draining)
    case DrainEnd => s.(pump := Exited)
  }

  // ---------------------------------------------------------------- recovery

  predicate RecoveryEnabled(s: State, i: nat, r: RecoveryStep)
    requires i < |s.stops|
  {
    var phase := s.stops[i].phase;
    match r
    case OldRetired(_) => phase.RetiringOld?
    case NoteRetired => phase.RetiredOld? && MuFree(s.control)
    case NewStarted(gen, err) => phase.StartingNew? && (!err ==> gen != 0 && gen !in s.world.retired)
    case NoteStarted => phase.StartedNew? && MuFree(s.control)
    case CloseDone => phase.Closing?
  }

  function WithPhase(stops: seq<Stop>, i: nat, phase: Phase): seq<Stop>
    requires i < |stops|
  {
    stops[i := stops[i].(phase := phase)]
  }

  function RecoveryApply(s: State, i: nat, r: RecoveryStep): State
    requires i < |s.stops| && RecoveryEnabled(s, i, r)
  {
    var phase := s.stops[i].phase;
    match r
    case OldRetired(err) =>
      s.(stops := WithPhase(s.stops, i, RetiredOld(err)),
         world := if err then s.world else s.world.(retired := s.world.retired + {s.stops[i].gen}))
    case NoteRetired =>
      if phase.err then s.(stops := WithPhase(s.stops, i, Closing), fence := s.fence.(failed := true))
      else s.(stops := WithPhase(s.stops, i, StartingNew))
    case NewStarted(gen, err) => s.(stops := WithPhase(s.stops, i, StartedNew(gen, err)))
    case NoteStarted =>
      s.(stops := s.stops[i := Stop(s.stops[i].gen, Closing, phase.gen)],
         fence := s.fence.(failed := s.fence.failed || phase.err))
    case CloseDone => s.(stops := WithPhase(s.stops, i, Closed))
  }

  // ---------------------------------------------------------------- runs

  ghost predicate Legal(s: State, run: seq<Step>)
    decreases |run|
  {
    run == [] || (Enabled(s, run[0]) && Legal(Apply(s, run[0]), run[1..]))
  }

  ghost function After(s: State, run: seq<Step>): State
    requires Legal(s, run)
    decreases |run|
  {
    if run == [] then s else After(Apply(s, run[0]), run[1..])
  }
}
