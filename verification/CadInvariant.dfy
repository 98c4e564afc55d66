/** The invariant of the CAD protocol. Each conjunct names just the parts of the state it is
    about, so that a step leaves it alone unless it touches one of them. */
module CadInvariant {
  import opened Common
  import opened CadProtocol
  import opened CadAccounts

  ghost function Turning(c: Control): Option<Task> {
    if c.Rotating? then c.scan.hand else None
  }

  // ---------------------------------------------------------------- tasks and evaluations

  /** A task carries an evaluation's context exactly when it is that evaluation's task. */
  ghost predicate Attributed(evals: seq<Eval>, task: Task) {
    && (task.ctx.Derived? ==> task.ctx.eval < |evals| && task.verb == Evaluate)
    && (forall e :: 0 <= e < |evals| ==> (evals[e].ticket == task.ticket <==> task.ctx == Derived(e)))
  }

  ghost predicate AllAttributed(evals: seq<Eval>, q: seq<Task>) {
    forall i :: 0 <= i < |q| ==> Attributed(evals, q[i])
  }

  ghost predicate Attribution(evals: seq<Eval>, tickets: seq<Ticket>, queue: seq<Task>, turning: Option<Task>,
                              pumped: Option<Task>) {
    && AllAttributed(evals, queue)
    && (turning.Some? ==> Attributed(evals, turning.value))
    && (pumped.Some? ==> Attributed(evals, pumped.value))
    && (forall e :: 0 <= e < |evals| ==> evals[e].ticket < |tickets| && tickets[evals[e].ticket].captured == 0)
    && (forall d, e :: 0 <= d < e < |evals| ==> evals[d].ticket != evals[e].ticket)
  }

  // ---------------------------------------------------------------- epochs

  ghost predicate Admitted(admitted: map<nat, Admission>, epoch: nat, task: Task) {
    task.ticket in admitted && admitted[task.ticket] == Admission(task.epoch, task.ctx) && task.epoch <= epoch
  }

  ghost predicate AllAdmitted(admitted: map<nat, Admission>, epoch: nat, q: seq<Task>) {
    forall i :: 0 <= i < |q| ==> Admitted(admitted, epoch, q[i])
  }

  ghost predicate TaskEpochs(admitted: map<nat, Admission>, epoch: nat, queue: seq<Task>, turning: Option<Task>,
                             pumped: Option<Task>) {
    && AllAdmitted(admitted, epoch, queue)
    && (turning.Some? ==> Admitted(admitted, epoch, turning.value))
    && (pumped.Some? ==> Admitted(admitted, epoch, pumped.value))
  }

  /** A refusal has a reason: a fence after the admission, the ticket's own cancellation, a failed
      worker, or the end of the context the task was admitted with. */
  predicate Excused(a: Admission, why: Refusal, cancelled: bool, failed: bool) {
    && (a.epoch < why.epoch || cancelled || failed || why.ended.Some?)
    && (why.ended.Some? ==> why.ended.value == a.ctx)
  }

  /** A captured caller's reservation stays in the epoch it captured; commitments happen in the
      epoch of admission; every refusal has its reason. */
  ghost predicate Epochs(tickets: seq<Ticket>, fence: Fence, h: History) {
    && (forall t :: 0 <= t < |tickets| ==>
          tickets[t].epoch <= fence.epoch && (tickets[t].captured != 0 ==> tickets[t].epoch == tickets[t].captured))
    && (forall t :: t in h.admitted ==>
          t < |tickets| && !tickets[t].owned && h.admitted[t].epoch <= fence.epoch
          && (tickets[t].captured != 0 ==> h.admitted[t].epoch == tickets[t].epoch))
    && (forall t :: t in h.committed ==> t in h.admitted && h.committed[t].epoch == h.admitted[t].epoch)
    && (forall t :: t in h.refused ==>
          t in h.admitted && t < |tickets| && Excused(h.admitted[t], h.refused[t], tickets[t].cancelled, fence.failed))
  }

  /** While a fence drains the queue, everything in it is older than the fence. */
  ghost predicate Outdated(c: Control, queue: seq<Task>, epoch: nat) {
    c.Fencing? ==> forall i :: 0 <= i < |queue| ==> queue[i].epoch < epoch
  }

  // ---------------------------------------------------------------- pump and recovery

  /** The interruption the pump has to wait for, if any. */
  ghost function PumpStop(p: Pump): Option<nat> {
    if p.Calling? || p.Called? || p.Done? || p.Settled? || p.Replied? || p.Waiting? then p.stop else None
  }

  ghost predicate PumpOk(p: Pump, stops: seq<Stop>) {
    && (p.Started? && !p.err ==> p.gen != 0)
    && (p.Calling? ==> p.gen != 0)
    && (p.Called? ==> (p.committed ==> p.gen != 0)
                      && (p.outcome.Success? || p.stop.Some? ==> p.committed)
                      && (p.committed ==> !p.hold))
    && (p.Settled? && p.stop.Some? ==> !p.outcome.Success?)
    && (p.Done? && p.stop.Some? ==> p.gen != 0)
    && (PumpStop(p).Some? ==> PumpStop(p).value < |stops|)
    && ((p.Calling? || p.Called? || p.Done?) && p.stop.Some? ==> stops[p.stop.value].gen == p.gen)
  }

  /** The old generation has been retired without error. */
  ghost predicate Replaceable(p: Phase) {
    p == RetiredOld(false) || p.StartingNew? || p.StartedNew?
  }

  ghost predicate Recoveries(p: Pump, stops: seq<Stop>, c: Control, failed: bool, retired: set<nat>) {
    && (forall k :: 0 <= k < |stops| && !stops[k].phase.Closed? ==> PumpStop(p) == Some(k))
    && (forall k :: 0 <= k < |stops| && stops[k].phase.Fresh? ==> c.Fencing? && c.interruption == k)
    && (c.Fencing? ==>
          c.interruption < |stops| && stops[c.interruption].phase.Fresh?
          && PumpStop(p) == Some(c.interruption) && Interruptible(p, c.victim))
    && (forall k :: 0 <= k < |stops| && NativeDone(stops[k].phase) ==> stops[k].gen in retired || failed)
    && (forall k :: 0 <= k < |stops| && Replaceable(stops[k].phase) ==> stops[k].gen in retired)
  }

  /** Interrupted generations are pairwise distinct, a newly started one is none of them,
      and nothing is being started or committed after a failure. */
  ghost predicate Generations(p: Pump, stops: seq<Stop>, failed: bool) {
    && (forall j, k :: 0 <= j < k < |stops| ==> stops[j].gen != stops[k].gen)
    && ((p.Started? && !p.err) || (p.Calling? && p.stop.None?) || (p.Called? && p.committed && p.stop.None?) ==>
          forall k :: 0 <= k < |stops| ==> stops[k].gen != p.gen)
    && (p.Starting? || p.Started? ==> !failed)
  }

  // ---------------------------------------------------------------- history of a reservation

  ghost predicate PumpAt(p: Pump, t: nat) {
    Holds(PumpTask(p), t)
  }

  ghost predicate PastCall(p: Pump) {
    p.Done? || p.Retiring? || p.Settled? || p.Replied?
  }

  /** The reservation has left every place in which its task could still run. */
  ghost predicate Spent(b: Book, t: nat) {
    b.released[t] > 0 || TaskCount(b.held, t) > 0
  }

  ghost predicate Replies(b: Book, p: Pump, replies: map<nat, bool>) {
    forall t :: t in replies ==> t < |b.tickets| && (Spent(b, t) || (p.Replied? && PumpAt(p, t)))
  }

  ghost predicate Running(p: Pump, t: nat) {
    (p.Calling? || p.Called?) && PumpAt(p, t)
  }

  ghost predicate CommittedOk(b: Book, p: Pump, t: nat, gen: nat) {
    && t < |b.tickets| && gen != 0
    && (Running(p, t) || (b.tickets[t].completed && (Spent(b, t) || (PumpAt(p, t) && PastCall(p)))))
  }

  ghost predicate Commitments(b: Book, p: Pump, committed: map<nat, Commitment>) {
    && (forall t :: t in committed ==> CommittedOk(b, p, t, committed[t].gen))
    && (p.Calling? ==> p.task.ticket in committed && committed[p.task.ticket].gen == p.gen)
    && (p.Called? ==> (p.task.ticket in committed <==> p.committed))
    && (p.Called? && p.committed ==> committed[p.task.ticket].gen == p.gen)
  }

  ghost predicate CompletedOk(b: Book, p: Pump, t: nat)
    requires t < |b.tickets|
  {
    && (b.tickets[t].completed ==> Spent(b, t) || (PumpAt(p, t) && PastCall(p)))
    && (PumpAt(p, t) && PastCall(p) ==> b.tickets[t].completed)
    && (TaskCount(b.held, t) > 0 ==> b.tickets[t].completed)
  }

  ghost predicate Completions(b: Book, p: Pump) {
    forall t :: 0 <= t < |b.tickets| ==> CompletedOk(b, p, t)
  }

  /** The pump will not give back the reservation of generation `gen` before it is retired. */
  ghost predicate TroubleHeld(p: Pump, stops: seq<Stop>, retired: set<nat>, gen: nat) {
    || gen in retired
    || (p.Called? && p.hold)
    || ((p.Done? || p.Settled? || p.Replied?) &&
        (p.hold || (p.stop.Some? && p.stop.value < |stops| && stops[p.stop.value].gen == gen)))
    || (p.Done? && p.stop.None? && p.outcome.Crashed? && gen != 0)
    || p.Retiring?
  }

  ghost predicate TroubledOk(b: Book, p: Pump, stops: seq<Stop>, retired: set<nat>, t: nat, gen: nat) {
    && t < |b.tickets|
    && (|| TaskCount(b.held, t) > 0
        || (b.released[t] > 0 && gen in retired)
        || (PumpAt(p, t) && (p.Called? || PastCall(p)) && TroubleHeld(p, stops, retired, gen)))
    && (PumpAt(p, t) && (p.Called? || p.Done? || p.Retiring?) ==> gen == p.gen)
    && (PumpAt(p, t) && p.Called? ==> !p.committed)
  }

  ghost predicate Troubles(b: Book, p: Pump, stops: seq<Stop>, retired: set<nat>, troubled: map<nat, nat>) {
    && (forall t :: t in troubled ==> TroubledOk(b, p, stops, retired, t, troubled[t]))
    && (p.Called? && p.hold ==> p.task.ticket in troubled)
  }

  /** A result is only carried by a committed generation that saw no trouble. */
  ghost predicate Results(p: Pump, h: History) {
    && (forall t :: t in h.replies && h.replies[t] ==> t in h.committed && t !in h.troubled)
    && ((p.Done? || p.Settled?) && p.stop.None? && p.outcome.Success? ==>
          p.task.ticket in h.committed && p.task.ticket !in h.troubled)
    && (p.Retiring? && p.outcome.Success? ==> p.task.ticket in h.committed && p.task.ticket !in h.troubled)
  }

  // ---------------------------------------------------------------- registrations

  ghost predicate Open(ev: Eval) {
    ev.phase.Registered? || ev.phase.Bound?
  }

  ghost predicate Registrations(g: Registry, ended: set<Ctx>) {
    && (forall key :: key in g.inflight ==>
          g.inflight[key] < |g.evals| && g.evals[g.inflight[key]].key == key && Open(g.evals[g.inflight[key]])
          && g.inflight[key] !in g.revoked && Derived(g.inflight[key]) !in ended)
    && (forall e :: 0 <= e < |g.evals| && Open(g.evals[e]) && e !in g.revoked ==> OwnsKey(g, e))
    && (forall e :: e in g.revoked ==>
      e < |g.evals| && e !in g.published && Derived(e) in ended && !g.evals[e].phase.Reserved?)
    && (forall e :: e in g.published ==> e < |g.evals| && g.evals[e].phase.Ended? && g.evals[e].result == Some(true))
    && (forall e: nat :: Derived(e) in ended ==> e < |g.evals| && !g.evals[e].phase.Reserved?)
  }

  ghost predicate Outcomes(evals: seq<Eval>, replies: map<nat, bool>) {
    forall e :: 0 <= e < |evals| && evals[e].result == Some(true) ==>
      evals[e].ticket in replies && replies[evals[e].ticket]
  }

  /** The cancellation in progress names a live registration, and a superseding one names a
      newer reservation under the same key. */
  ghost predicate Controlled(c: Control, g: Registry) {
    !c.Free? ==>
      && c.victim < |g.evals| && OwnsKey(g, c.victim)
      && (c.why.Supersede? ==>
            && c.why.newer < |g.evals| && g.evals[c.why.newer].phase.Reserved?
            && g.evals[c.why.newer].key == g.evals[c.victim].key)
  }

  // ---------------------------------------------------------------- rotation

  ghost function Survivors(q: seq<Task>, victim: nat): seq<Task> {
    if q == [] then []
    else Survivors(q[..|q| - 1], victim) + if Matches(q[|q| - 1], victim) then [] else [q[|q| - 1]]
  }

  ghost function Victims(q: seq<Task>, victim: nat): seq<Task> {
    if q == [] then []
    else Victims(q[..|q| - 1], victim) + if Matches(q[|q| - 1], victim) then [q[|q| - 1]] else []
  }

  ghost function Bag(o: Option<Task>): multiset<Task> {
    if o.Some? then multiset{o.value} else multiset{}
  }

  /** How many tasks have left the front of the stream `entry + kept` since entry. */
  ghost function Removed(scan: Scan): nat {
    scan.rounds + Unit(scan.hand.Some?) + Unit(scan.taken.Some?)
  }

  /** The queue is what is left of that stream. */
  ghost predicate ScanStream(queue: seq<Task>, scan: Scan) {
    && scan.rounds <= |scan.entry|
    && (scan.hand.Some? ==> scan.rounds < |scan.entry|)
    && Removed(scan) <= |scan.entry + scan.kept|
    && queue == (scan.entry + scan.kept)[Removed(scan)..]
  }

  /** No task is lost and none is made up. */
  ghost predicate ScanBags(queue: seq<Task>, scan: Scan) {
    multiset(scan.entry) == multiset(scan.dropped) + multiset(queue) + Bag(scan.hand) + Bag(scan.taken)
  }

  /** Exactly the victim's evaluations are dropped; undisturbed, the order is kept too. */
  ghost predicate ScanSorts(victim: nat, scan: Scan) {
    && scan.rounds <= |scan.entry| && (scan.hand.Some? ==> scan.rounds < |scan.entry|)
    && (forall i :: 0 <= i < |scan.kept| ==> !Matches(scan.kept[i], victim))
    && (forall i :: 0 <= i < |scan.dropped| ==> Matches(scan.dropped[i], victim))
    && (scan.taken.None? ==>
          && scan.kept == Survivors(scan.entry[..scan.rounds], victim)
          && scan.dropped == Victims(scan.entry[..scan.rounds], victim)
          && (scan.hand.Some? ==> scan.hand.value == scan.entry[scan.rounds]))
  }

  ghost predicate ScanOk(queue: seq<Task>, p: Pump, victim: nat, scan: Scan) {
    && ScanStream(queue, scan) && ScanBags(queue, scan) && ScanSorts(victim, scan)
    && (scan.taken.Some? ==> p == Hand(scan.taken.value) || p == DrainHand(scan.taken.value))
  }

  ghost predicate Scanning(queue: seq<Task>, p: Pump, c: Control) {
    c.Rotating? ==> ScanOk(queue, p, c.victim, c.scan)
  }

  // ---------------------------------------------------------------- cancellation

  /** A reservation under interruption `k`. */
  ghost predicate Interrupted(p: Pump, stops: seq<Stop>, h: History, t: nat, k: nat) {
    && k < |stops| && t in h.committed && h.committed[t].gen == stops[k].gen
    && (t in h.troubled || (Running(p, t) && PumpStop(p) == Some(k)))
  }

  /** What the cancellation in progress has established about its victim's reservation. */
  ghost predicate Cancelling(c: Control, b: Book, p: Pump, stops: seq<Stop>, h: History, t: nat) {
    t < |b.tickets| ==>
      && (c.Rotating? ==> b.tickets[t].cancelled && (b.tickets[t].completed ==> t !in h.committed))
      && (c.Fencing? ==>
        b.tickets[t].cancelled && Interrupted(p, stops, h, t, c.interruption) && TaskCount(b.queue, t) == 0)
      && (c.Decided? && !c.answer ==> b.tickets[t].completed)
      && (c.Decided? && c.answer ==>
            b.tickets[t].cancelled && TaskCount(b.queue, t) == 0
            && if c.receipt.Some? then Interrupted(p, stops, h, t, c.receipt.value) else t !in h.committed)
  }

  ghost predicate CancellingVictim(c: Control, g: Registry, b: Book, p: Pump, stops: seq<Stop>, h: History) {
    !c.Free? && c.victim < |g.evals| ==> Cancelling(c, b, p, stops, h, g.evals[c.victim].ticket)
  }

  /** What a revoked evaluation's reservation has come to: completed first, or cancelled,
      no longer queued, and run only by a generation in trouble. */
  ghost predicate Settlement(b: Book, turning: Option<Task>, p: Pump, h: History, t: nat) {
    t < |b.tickets| ==>
      || b.tickets[t].completed
      || (b.tickets[t].cancelled && TaskCount(b.queue, t) == 0 && !Holds(turning, t)
          && (t in h.committed ==> t in h.troubled || (Running(p, t) && PumpStop(p).Some?)))
  }

  ghost predicate Revocations(g: Registry, b: Book, turning: Option<Task>, p: Pump, h: History) {
    forall e :: e in g.revoked && e < |g.evals| ==> Settlement(b, turning, p, h, g.evals[e].ticket)
  }

  // ---------------------------------------------------------------- the whole

  ghost predicate Accounts(s: State) {
    && Balanced(s.book, Turning(s.control), PumpTask(s.pump))
    && Attribution(s.registry.evals, s.book.tickets, s.book.queue, Turning(s.control), PumpTask(s.pump))
    && TaskEpochs(s.history.admitted, s.fence.epoch, s.book.queue, Turning(s.control), PumpTask(s.pump))
    && Epochs(s.book.tickets, s.fence, s.history)
    && Outdated(s.control, s.book.queue, s.fence.epoch)
  }

  ghost predicate Machine(s: State) {
    && PumpOk(s.pump, s.stops)
    && Recoveries(s.pump, s.stops, s.control, s.fence.failed, s.world.retired)
    && Generations(s.pump, s.stops, s.fence.failed)
    && Replies(s.book, s.pump, s.history.replies)
    && Commitments(s.book, s.pump, s.history.committed)
    && Completions(s.book, s.pump)
    && Troubles(s.book, s.pump, s.stops, s.world.retired, s.history.troubled)
    && Results(s.pump, s.history)
  }

  ghost predicate Service(s: State) {
    && Registrations(s.registry, s.world.ended)
    && Outcomes(s.registry.evals, s.history.replies)
    && Controlled(s.control, s.registry)
    && Scanning(s.book.queue, s.pump, s.control)
    && CancellingVictim(s.control, s.registry, s.book, s.pump, s.stops, s.history)
    && Revocations(s.registry, s.book, Turning(s.control), s.pump, s.history)
  }

  ghost predicate Inv(s: State) {
    Accounts(s) && Machine(s) && Service(s)
  }

  lemma InitBalanced()
    ensures Balanced(Init().book, None, None)
  {
  }

  lemma InitInv()
    ensures Inv(Init())
  {
    hide Balanced;
    InitBalanced();
  }

  /** The conjuncts the theorems quote. */
  lemma Parts(s: State)
    requires Inv(s)
    ensures OnePlace(s.book, Turning(s.control), PumpTask(s.pump))
    ensures Capacity(s.book, Turning(s.control), PumpTask(s.pump))
    ensures PumpTask(s.pump).Some? ==> s.pump.task.ticket < |s.book.tickets|
    ensures Epochs(s.book.tickets, s.fence, s.history)
    ensures PumpOk(s.pump, s.stops) && Recoveries(s.pump, s.stops, s.control, s.fence.failed, s.world.retired)
    ensures Generations(s.pump, s.stops, s.fence.failed)
    ensures Replies(s.book, s.pump, s.history.replies) && Commitments(s.book, s.pump, s.history.committed)
    ensures Troubles(s.book, s.pump, s.stops, s.world.retired, s.history.troubled) && Results(s.pump, s.history)
    ensures Registrations(s.registry, s.world.ended) && Outcomes(s.registry.evals, s.history.replies)
    ensures Scanning(s.book.queue, s.pump, s.control)
    ensures CancellingVictim(s.control, s.registry, s.book, s.pump, s.stops, s.history)
    ensures Revocations(s.registry, s.book, Turning(s.control), s.pump, s.history)
  {
    hide Attribution, TaskEpochs, Epochs, Outdated, PumpOk, Recoveries, Generations, Replies, Commitments,
         Completions, Troubles, Results, Registrations, Outcomes, Controlled, Scanning, CancellingVictim,
         Revocations, OnePlace, Capacity;
  }
}
