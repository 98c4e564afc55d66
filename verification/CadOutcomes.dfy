/** What comes of things on every run: who may still enter after an interruption, a failure or a
    shutdown, which reservations come back, and what a recovery ends with. */
module CadOutcomes {
  import opened Common
  import opened CadProtocol
  import opened CadAccounts
  import opened CadInvariant
  import opened CadTheorems
  import opened CadPump

  // ---------------------------------------------------------------- who may still enter

  ghost predicate Shut(s: State) {
    s.fence.failed || s.fence.stopped || s.world.down
  }

  /** What every later state owes to this one: nobody new once the runner is shut, newcomers in
      the epoch of their time, and nothing admitted on a cancelled ticket or an ended context. */
  ghost predicate Gate(s: State, s': State) {
    && s.fence.epoch <= s'.fence.epoch && (Shut(s) ==> Shut(s'))
    && s.world.ended <= s'.world.ended && (s.world.down ==> s'.world.down)
    && |s.book.tickets| <= |s'.book.tickets| && (Shut(s) ==> |s'.book.tickets| == |s.book.tickets|)
    && (forall t :: 0 <= t < |s.book.tickets| ==>
          && s'.book.tickets[t].captured == s.book.tickets[t].captured
          && s.book.tickets[t].epoch <= s'.book.tickets[t].epoch
          && (s.book.tickets[t].cancelled ==> s'.book.tickets[t].cancelled))
    && (forall t :: |s.book.tickets| <= t < |s'.book.tickets| ==> s.fence.epoch <= s'.book.tickets[t].epoch)
    && s.registry.published <= s'.registry.published
    && (forall e :: e in s'.registry.published && e !in s.registry.published ==> !Cancelled(s.world, Derived(e)))
    && (forall t :: t in s.history.committed ==> t in s'.history.committed)
    && (forall t :: t in s'.history.committed && t !in s.history.committed ==>
          t in s'.history.admitted && !Cancelled(s.world, s'.history.admitted[t].ctx))
    && (forall t :: t in s.history.admitted ==>
          t in s'.history.admitted && s'.history.admitted[t] == s.history.admitted[t])
    && (forall t :: t in s'.history.admitted && t !in s.history.admitted ==>
          && !Shut(s) && s.fence.epoch <= s'.history.admitted[t].epoch
          && !Cancelled(s.world, s'.history.admitted[t].ctx)
          && (t < |s.book.tickets| ==> !s.book.tickets[t].cancelled))
  }

  /** Steps that neither reserve, bind nor admit. */
  lemma ClosedGate(s: State, s': State)
    requires s.fence.epoch <= s'.fence.epoch && (Shut(s) ==> Shut(s')) && |s'.book.tickets| == |s.book.tickets|
    requires s'.history.admitted == s.history.admitted && s'.history.committed == s.history.committed
    requires s'.registry.published == s.registry.published
    requires s.world.ended <= s'.world.ended && (s.world.down ==> s'.world.down)
    requires forall t :: 0 <= t < |s.book.tickets| ==>
      && s'.book.tickets[t].captured == s.book.tickets[t].captured
      && s'.book.tickets[t].epoch == s.book.tickets[t].epoch
      && (s.book.tickets[t].cancelled ==> s'.book.tickets[t].cancelled)
    ensures Gate(s, s')
  {
  }

  lemma SendGate(s: State, t: nat, ctx: Ctx, verb: Verb, size: nat)
    requires t < |s.book.tickets| && CanAdmit(s, t, ctx, size)
    requires Epochs(s.book.tickets, s.fence, s.history)
    ensures Gate(s, Send(s, t, ctx, verb, size))
  {
    hide Cancelled;
  }

  lemma CallerGate(s: State, c: CallerStep)
    requires Epochs(s.book.tickets, s.fence, s.history) && CallerEnabled(s, c)
    ensures Gate(s, CallerApply(s, c))
  {
    if c.Admit? { SendGate(s, c.ticket, c.ctx, c.verb, c.size); }
  }

  lemma EndGate(s: State, e: nat)
    requires RegistryEnabled(s, End(e))
    ensures Gate(s, RegistryApply(s, End(e)))
  {
  }

  lemma OtherGate(s: State, r: RegistryStep)
    requires Epochs(s.book.tickets, s.fence, s.history) && RegistryEnabled(s, r) && !r.EvalAdmit? && !r.End?
    ensures Gate(s, RegistryApply(s, r))
  {
    hide Cancelled;
  }

  lemma RegistryGate(s: State, r: RegistryStep)
    requires Epochs(s.book.tickets, s.fence, s.history) && RegistryEnabled(s, r)
    ensures Gate(s, RegistryApply(s, r))
  {
    hide Gate, Epochs, CanAdmit, Send, Cancelled;
    match r {
      case EvalAdmit(e, size) => SendGate(s, s.registry.evals[e].ticket, Derived(e), Evaluate, size);
      case End(e) => hide RegistryApply, RegistryEnabled; EndGate(s, e);
      case _ => hide RegistryApply, RegistryEnabled; OtherGate(s, r);
    }
  }

  lemma DropGate(s: State, k: CancelStep)
    requires CancelEnabled(s, k) && (k.Put? || k.FenceDrop?)
    ensures Gate(s, CancelApply(s, k))
  {
    hide Gate, Matches;
    ClosedGate(s, CancelApply(s, k));
  }

  lemma TurnGate(s: State, k: CancelStep)
    requires CancelEnabled(s, k) && !k.Put? && !k.FenceDrop?
    ensures Gate(s, CancelApply(s, k))
  {
    hide Gate, Interruptible;
    ClosedGate(s, CancelApply(s, k));
  }

  lemma CancelGate(s: State, k: CancelStep)
    requires CancelEnabled(s, k)
    ensures Gate(s, CancelApply(s, k))
  {
    hide Gate, CancelEnabled, CancelApply;
    if k.Put? || k.FenceDrop? { DropGate(s, k); } else { TurnGate(s, k); }
  }

  lemma CommitGate(s: State)
    requires PumpEnabled(s, Commit) && Admitted(s.history.admitted, s.fence.epoch, s.pump.task)
    ensures Gate(s, PumpApply(s, Commit))
  {
  }

  lemma EarlyGate(s: State, p: PumpStep)
    requires BeforeCall(p) && !p.Commit? && PumpEnabled(s, p)
    ensures Gate(s, PumpApply(s, p))
  {
    hide Gate, Cancelled;
    ClosedGate(s, PumpApply(s, p));
  }

  lemma LateGate(s: State, p: PumpStep)
    requires !BeforeCall(p) && PumpEnabled(s, p)
    ensures Gate(s, PumpApply(s, p))
  {
    hide Gate, Cancelled;
    ClosedGate(s, PumpApply(s, p));
  }

  lemma PumpGate(s: State, p: PumpStep)
    requires PumpEnabled(s, p)
    requires PumpTask(s.pump).Some? ==> Admitted(s.history.admitted, s.fence.epoch, s.pump.task)
    ensures Gate(s, PumpApply(s, p))
  {
    if p.Commit? {
      hide Gate;
      CommitGate(s);
    } else {
      hide Gate, PumpApply, PumpEnabled;
      if BeforeCall(p) { EarlyGate(s, p); } else { LateGate(s, p); }
    }
  }

  lemma PumpsTask(s: State)
    requires Inv(s)
    ensures PumpTask(s.pump).Some? ==> Admitted(s.history.admitted, s.fence.epoch, s.pump.task)
  {
    hide Balanced, Attribution, Epochs, Machine, Service;
  }

  lemma RecoveryGate(s: State, i: nat, r: RecoveryStep)
    requires i < |s.stops| && RecoveryEnabled(s, i, r)
    ensures Gate(s, RecoveryApply(s, i, r))
  {
  }

  lemma EnvGate(s: State, e: EnvStep)
    ensures Gate(s, s.(world := EnvApply(s.world, e)))
  {
  }

  lemma StepGate(s: State, step: Step)
    requires Inv(s) && Enabled(s, step)
    ensures Gate(s, Apply(s, step))
  {
    Parts(s);
    PumpsTask(s);
    hide Inv, Gate, Admitted, CallerApply, RegistryApply, CancelApply, PumpApply, RecoveryApply, CallerEnabled,
         RegistryEnabled, CancelEnabled, PumpEnabled, RecoveryEnabled;
    match step {
      case Env(e) => EnvGate(s, e);
      case Caller(c) => CallerGate(s, c);
      case Registering(r) => RegistryGate(s, r);
      case Cancel(k) => CancelGate(s, k);
      case Pumping(p) => PumpGate(s, p);
      case Recovery(i, r) => RecoveryGate(s, i, r);
    }
  }

  lemma GateTransitive(s: State, s': State, s'': State)
    requires Gate(s, s') && Gate(s', s'')
    ensures Gate(s, s'')
  {
    hide Shut;
    forall t | t in s''.history.committed && t !in s.history.committed
      ensures t in s''.history.admitted && !Cancelled(s.world, s''.history.admitted[t].ctx)
    {
      if t in s'.history.committed { assert s''.history.admitted[t] == s'.history.admitted[t]; }
    }
    forall t | t in s''.history.admitted && t !in s.history.admitted
      ensures !Cancelled(s.world, s''.history.admitted[t].ctx)
    {
      if t in s'.history.admitted { assert s''.history.admitted[t] == s'.history.admitted[t]; }
    }
  }

  lemma {:induction false} RunGate(s: State, run: seq<Step>)
    requires Inv(s) && Legal(s, run)
    ensures Gate(s, After(s, run))
    decreases |run|
  {
    hide Inv, Apply, Enabled;
    if run != [] {
      var s' := Apply(s, run[0]);
      StepGate(s, run[0]);
      StepKeeps(s, run[0]);
      hide Gate;
      RunGate(s', run[1..]);
      GateTransitive(s, s', After(s', run[1..]));
    }
  }

  lemma LaterGate(s: State, s': State)
    requires Reachable(s) && Later(s, s')
    ensures Gate(s, s')
  {
    hide Inv, Gate, Legal, After, Reachable;
    ReachableInv(s);
    var run :| Legal(s, run) && After(s, run) == s';
    RunGate(s, run);
  }

  /** Once the runner has failed, stopped or been shut down, nothing is reserved and nothing is
      admitted any more. */
  lemma NobodyEntersWhenShut(s: State, s': State)
    requires Reachable(s) && Later(s, s') && Shut(s)
    ensures |s'.book.tickets| == |s.book.tickets|
    ensures forall t :: t in s'.history.admitted <==> t in s.history.admitted
  {
    hide Later, Reachable, Shut;
    LaterGate(s, s');
  }

  /** A caller that captured its epoch before an interruption never gets anything after it: it
      reserves nothing, none of its reservations is admitted, and none is committed. */
  lemma CapturedCallerIsFenced(s: State, s': State, t: nat)
    requires Reachable(s) && Later(s, s') && t < |s'.book.tickets|
    requires 0 < s'.book.tickets[t].captured < s.fence.epoch
    ensures t < |s.book.tickets|
    ensures t in s'.history.admitted ==> t in s.history.admitted
    ensures t in s'.history.committed ==> t in s.history.committed
  {
    hide Later, Reachable, Inv, Shut;
    LaterGate(s, s');
    LaterInv(s, s');
    Parts(s');
  }

  /** Whatever is admitted from now on is not on a ticket already cancelled, nor for a context that
      has already ended. */
  lemma CancelledNeverEnters(s: State, s': State, t: nat)
    requires Reachable(s) && Later(s, s') && t in s'.history.admitted && t !in s.history.admitted
    ensures t < |s.book.tickets| ==> !s.book.tickets[t].cancelled
    ensures !Cancelled(s.world, s'.history.admitted[t].ctx)
  {
    hide Later, Reachable, Shut;
    LaterGate(s, s');
  }

  /** A task whose context has ended before it was committed never is. */
  lemma EndedNeverCommits(s: State, s': State, t: nat)
    requires Reachable(s) && Later(s, s') && t in s.history.admitted && Cancelled(s.world, s.history.admitted[t].ctx)
    requires t !in s.history.committed
    ensures t !in s'.history.committed
  {
    hide Later, Reachable, Shut, Cancelled;
    LaterGate(s, s');
  }

  /** Nor does anything publish whose context had ended: after a shutdown nothing does. */
  lemma EndedNeverPublishes(s: State, s': State, e: nat)
    requires Reachable(s) && Later(s, s') && Cancelled(s.world, Derived(e)) && e !in s.registry.published
    ensures e !in s'.registry.published
  {
    hide Later, Reachable, Shut, Cancelled;
    LaterGate(s, s');
  }

  // ---------------------------------------------------------------- what steps leave alone

  lemma CallerLeaves(s: State, c: CallerStep)
    requires CallerEnabled(s, c)
    ensures CallerApply(s, c).stops == s.stops && CallerApply(s, c).pump == s.pump
  {
    hide Cancelled;
  }

  lemma RegistryLeaves(s: State, r: RegistryStep)
    requires RegistryEnabled(s, r)
    ensures RegistryApply(s, r).stops == s.stops && RegistryApply(s, r).pump == s.pump
  {
    hide Cancelled;
  }

  lemma RecoveryLeaves(s: State, i: nat, r: RecoveryStep)
    requires i < |s.stops| && RecoveryEnabled(s, i, r)
    ensures var s' := RecoveryApply(s, i, r);
      && s'.pump == s.pump && |s'.stops| == |s.stops|
      && forall k :: 0 <= k < |s.stops| && k != i ==> s'.stops[k] == s.stops[k]
  {
  }

  // ---------------------------------------------------------------- who is still started

  /** A reservation the pump must turn away: cancelled, older than the fence, or of a failed runner. */
  ghost predicate Barred(s: State, t: nat) {
    && t < |s.book.tickets| && t in s.history.admitted
    && (s.book.tickets[t].cancelled || s.history.admitted[t].epoch < s.fence.epoch || s.fence.failed)
  }

  lemma BarredStep(s: State, step: Step, t: nat)
    requires Inv(s) && Enabled(s, step) && Barred(s, t) && !Holds(Active(s.pump), t)
    ensures Barred(Apply(s, step), t) && !Holds(Active(Apply(s, step).pump), t)
  {
    StepOnward(s, step);
    PumpsTask(s);
    hide Inv;
    BarredOnward(s, Apply(s, step), t);
    hide Onward, Barred, Admitted, EnvApply, CallerApply, RegistryApply, CancelApply, PumpApply, RecoveryApply,
         CallerEnabled, RegistryEnabled, CancelEnabled, PumpEnabled, RecoveryEnabled;
    match step {
      case Env(e) =>
      case Caller(c) => CallerLeaves(s, c);
      case Registering(r) => RegistryLeaves(s, r);
      case Cancel(k) => ActiveStays(s, k);
      case Pumping(p) => BarredPump(s, p, t);
      case Recovery(i, r) => RecoveryLeaves(s, i, r);
    }
  }

  lemma BarredOnward(s: State, s': State, t: nat)
    requires Barred(s, t) && Onward(s, s')
    ensures Barred(s', t)
  {
  }

  lemma ActiveStays(s: State, k: CancelStep)
    requires CancelEnabled(s, k)
    ensures Active(CancelApply(s, k).pump) == Active(s.pump)
  {
  }

  lemma BarredPump(s: State, p: PumpStep, t: nat)
    requires PumpEnabled(s, p) && Barred(s, t) && !Holds(Active(s.pump), t)
    requires PumpTask(s.pump).Some? ==> Admitted(s.history.admitted, s.fence.epoch, s.pump.task)
    ensures !Holds(Active(PumpApply(s, p).pump), t)
  {
    hide Cancelled;
  }

  lemma {:induction false} BarredRun(s: State, run: seq<Step>, t: nat)
    requires Inv(s) && Legal(s, run) && Barred(s, t) && !Holds(Active(s.pump), t)
    ensures Barred(After(s, run), t) && !Holds(Active(After(s, run).pump), t)
    decreases |run|
  {
    hide Inv, Apply, Enabled, Barred;
    if run != [] {
      BarredStep(s, run[0], t);
      StepKeeps(s, run[0]);
      BarredRun(Apply(s, run[0]), run[1..], t);
    }
  }

  /** A task that was cancelled, fenced out or overtaken by a failure before the pump made it its
      active one never becomes that: no worker is started for it. */
  lemma BarredNeverStarts(s: State, s': State, t: nat)
    requires Reachable(s) && Later(s, s') && Barred(s, t) && !Holds(Active(s.pump), t)
    ensures !Holds(Active(s'.pump), t)
  {
    hide Inv, Legal, After, Reachable, Barred;
    ReachableInv(s);
    var run :| Legal(s, run) && After(s, run) == s';
    BarredRun(s, run, t);
  }

  // ---------------------------------------------------------------- which reservations come back

  ghost predicate Excluded(s: State, t: nat) {
    s.fence.failed && (t in s.history.troubled || s.world.down)
  }

  /** The pump only holds a reservation back when the runner failed over it. */
  ghost predicate Withholds(s: State) {
    && ((s.pump.Called? || s.pump.Done? || s.pump.Retiring? || s.pump.Settled? || s.pump.Replied?) && s.pump.hold ==>
          Excluded(s, s.pump.task.ticket))
    && (s.pump.Done? && s.pump.gen != 0 && (s.pump.stop.Some? || s.pump.outcome.Crashed?) ==>
          s.pump.task.ticket in s.history.troubled)
    && (s.pump.Retiring? ==> s.pump.task.ticket in s.history.troubled || s.world.down)
    && ((s.pump.Settled? || s.pump.Replied?) && s.pump.stop.Some? ==>
          && s.pump.task.ticket in s.history.troubled
          && s.pump.stop.value < |s.stops| && NativeDone(s.stops[s.pump.stop.value].phase))
    && (forall i :: 0 <= i < |s.book.held| ==> Excluded(s, s.book.held[i].ticket))
  }

  lemma ExcludedGrows(s: State, s': State)
    requires (s.fence.failed ==> s'.fence.failed) && (s.world.down ==> s'.world.down)
    requires forall t :: t in s.history.troubled ==> t in s'.history.troubled
    ensures forall t :: Excluded(s, t) ==> Excluded(s', t)
  {
  }

  /** Steps that leave the pump and the held reservations alone. */
  lemma WithholdsFrame(s: State, s': State)
    requires Withholds(s) && s'.pump == s.pump && s'.book.held == s.book.held
    requires (s.fence.failed ==> s'.fence.failed) && (s.world.down ==> s'.world.down)
    requires s'.history.troubled == s.history.troubled && |s.stops| <= |s'.stops|
    requires forall k :: 0 <= k < |s.stops| && NativeDone(s.stops[k].phase) ==> NativeDone(s'.stops[k].phase)
    ensures Withholds(s')
  {
    ExcludedGrows(s, s');
    hide Excluded;
  }

  lemma WithholdsDecide(s: State)
    requires Withholds(s) && CancelEnabled(s, Decide)
    ensures Withholds(CancelApply(s, Decide))
  {
    ExcludedGrows(s, CancelApply(s, Decide));
    hide Excluded;
  }

  lemma WithholdsCancel(s: State, k: CancelStep)
    requires Withholds(s) && CancelEnabled(s, k)
    requires Recoveries(s.pump, s.stops, s.control, s.fence.failed, s.world.retired)
    ensures Withholds(CancelApply(s, k))
  {
    hide Withholds;
    if k.Decide? { WithholdsDecide(s); } else { WithholdsFrame(s, CancelApply(s, k)); }
  }

  lemma WithholdsEarly(s: State, p: PumpStep)
    requires BeforeCall(p) && Withholds(s) && PumpEnabled(s, p)
    ensures Withholds(PumpApply(s, p))
  {
    ExcludedGrows(s, PumpApply(s, p));
  }

  lemma WithholdsLate(s: State, p: PumpStep)
    requires !BeforeCall(p) && Withholds(s) && PumpEnabled(s, p) && PumpOk(s.pump, s.stops)
    requires Recoveries(s.pump, s.stops, s.control, s.fence.failed, s.world.retired)
    ensures Withholds(PumpApply(s, p))
  {
    ExcludedGrows(s, PumpApply(s, p));
  }

  lemma WithholdsPump(s: State, p: PumpStep)
    requires Withholds(s) && PumpEnabled(s, p) && PumpOk(s.pump, s.stops)
    requires Recoveries(s.pump, s.stops, s.control, s.fence.failed, s.world.retired)
    ensures Withholds(PumpApply(s, p))
  {
    hide Withholds, PumpEnabled, PumpApply, PumpOk, Recoveries;
    if BeforeCall(p) { WithholdsEarly(s, p); } else { WithholdsLate(s, p); }
  }

  lemma WithholdsCaller(s: State, c: CallerStep)
    requires Withholds(s) && CallerEnabled(s, c)
    ensures Withholds(CallerApply(s, c))
  {
    hide Withholds, Cancelled;
    WithholdsFrame(s, CallerApply(s, c));
  }

  lemma WithholdsRegistry(s: State, r: RegistryStep)
    requires Withholds(s) && RegistryEnabled(s, r)
    ensures Withholds(RegistryApply(s, r))
  {
    hide Withholds, Cancelled;
    WithholdsFrame(s, RegistryApply(s, r));
  }

  lemma WithholdsRecovery(s: State, i: nat, r: RecoveryStep)
    requires Withholds(s) && i < |s.stops| && RecoveryEnabled(s, i, r)
    ensures Withholds(RecoveryApply(s, i, r))
  {
    hide Withholds;
    WithholdsFrame(s, RecoveryApply(s, i, r));
  }

  lemma WithholdsEnv(s: State, e: EnvStep)
    requires Withholds(s)
    ensures Withholds(s.(world := EnvApply(s.world, e)))
  {
    hide Withholds;
    WithholdsFrame(s, s.(world := EnvApply(s.world, e)));
  }

  lemma WithholdsStep(s: State, step: Step)
    requires Inv(s) && Withholds(s) && Enabled(s, step)
    ensures Withholds(Apply(s, step))
  {
    Parts(s);
    hide Inv, Withholds, PumpOk, Recoveries, EnvApply, CallerApply, RegistryApply, CancelApply, PumpApply,
         RecoveryApply, CallerEnabled, RegistryEnabled, CancelEnabled, PumpEnabled, RecoveryEnabled;
    match step {
      case Env(e) => WithholdsEnv(s, e);
      case Caller(c) => WithholdsCaller(s, c);
      case Registering(r) => WithholdsRegistry(s, r);
      case Cancel(k) => WithholdsCancel(s, k);
      case Pumping(p) => WithholdsPump(s, p);
      case Recovery(i, r) => WithholdsRecovery(s, i, r);
    }
  }

  lemma {:induction false} WithholdsRun(s: State, run: seq<Step>)
    requires Inv(s) && Withholds(s) && Legal(s, run)
    ensures Withholds(After(s, run))
    decreases |run|
  {
    hide Inv, Withholds, Apply, Enabled;
    if run != [] {
      WithholdsStep(s, run[0]);
      StepKeeps(s, run[0]);
      WithholdsRun(Apply(s, run[0]), run[1..]);
    }
  }

  lemma ReachableWithholds(s: State)
    requires Reachable(s)
    ensures Withholds(s)
  {
    InitInv();
    hide Inv, Legal, After;
    var run :| Legal(Init(), run) && After(Init(), run) == s;
    assert Withholds(Init());
    WithholdsRun(Init(), run);
  }

  /** A reservation is only ever held back by a runner that has failed, for a generation in
      trouble or at the shutdown. */
  lemma OnlyFailureWithholds(s: State, i: nat)
    requires Reachable(s) && i < |s.book.held|
    ensures s.fence.failed && (s.book.held[i].ticket in s.history.troubled || s.world.down)
  {
    hide Reachable;
    ReachableWithholds(s);
    assert Excluded(s, s.book.held[i].ticket);
  }

  /** After its reply a task's reservation is given back: if and only if the pump does not keep it,
      and without a failure it does not. Giving it back returns exactly what it took. */
  lemma RepliedIsGivenBack(s: State)
    requires Reachable(s) && s.pump.Replied? && MuFree(s.control)
    ensures PumpEnabled(s, GiveBack) <==> !PumpEnabled(s, Keep)
    ensures !s.fence.failed ==> PumpEnabled(s, GiveBack)
    ensures PumpEnabled(s, GiveBack) ==>
      var b, task := PumpApply(s, GiveBack).book, s.pump.task;
      && b.count == s.book.count - 1 && b.bytes == s.book.bytes - task.bytes && b.held == s.book.held
      && task.ticket < |s.book.tickets| && task.bytes == s.book.tickets[task.ticket].bytes
      && s.book.released[task.ticket] == 0 && b.released[task.ticket] == 1
  {
    hide Inv, Reachable;
    ReachableInv(s);
    ReachableWithholds(s);
    Parts(s);
    assert PumpKnown(s);
    assert Booked(s.book, s.pump.task) by { PumpBooked(s); }
    assert Occurrences(s.book, Turning(s.control), PumpTask(s.pump), s.pump.task.ticket) == 1;
  }

  lemma PumpBooked(s: State)
    requires Inv(s) && PumpTask(s.pump).Some?
    ensures Booked(s.book, s.pump.task)
  {
    hide Attribution, TaskEpochs, Epochs, Machine, Service, OnePlace, Capacity;
  }

  /** Without a failure every finished reservation that the pump is through with is released. */
  lemma FinishedIsReleased(s: State, t: nat)
    requires Reachable(s) && !s.fence.failed && t < |s.book.tickets| && s.book.tickets[t].completed
    requires !Holds(PumpTask(s.pump), t)
    ensures s.book.released[t] == 1
  {
    hide Inv, Reachable;
    ReachableInv(s);
    ReachableWithholds(s);
    Parts(s);
    assert CompletedOk(s.book, s.pump, t) by { CompletionsHeld(s); }
    assert s.book.held == [];
    assert Occurrences(s.book, Turning(s.control), PumpTask(s.pump), t) == 1;
  }

  lemma CompletionsHeld(s: State)
    requires Inv(s)
    ensures Completions(s.book, s.pump)
  {
    hide Accounts, Service, CompletedOk;
  }

  /** Nothing leaks: a runner that has not failed, with nothing reserved, queued or in anyone's
      hand, has its whole capacity back. */
  lemma CapacityComesBack(s: State)
    requires Reachable(s) && !s.fence.failed && s.book.queue == []
    requires Turning(s.control).None? && PumpTask(s.pump).None?
    requires forall t :: 0 <= t < |s.book.tickets| ==> !s.book.tickets[t].owned
    ensures s.book.count == 0 && s.book.bytes == 0
  {
    hide Inv, Reachable;
    ReachableInv(s);
    ReachableWithholds(s);
    Parts(s);
    assert s.book.held == [];
    NothingOwned(s.book.tickets);
  }

  lemma {:induction false} NothingOwned(ts: seq<Ticket>)
    requires forall t :: 0 <= t < |ts| ==> !ts[t].owned
    ensures OwnedCount(ts) == 0 && OwnedBytes(ts) == 0
  {
    if ts != [] { NothingOwned(ts[..|ts| - 1]); }
  }

  // ---------------------------------------------------------------- what a recovery ends with

  /** The recovery has its start's answer, or has passed it on: the replacement is the generation
      that start returned, and its error fails the runner. */
  ghost predicate Replaced(s: State, k: nat, gen: nat, err: bool) {
    && k < |s.stops|
    && (|| s.stops[k].phase == StartedNew(gen, err)
        || ((s.stops[k].phase.Closing? || s.stops[k].phase.Closed?)
            && s.stops[k].replacement == gen && (err ==> s.fence.failed)))
  }

  /** The recovery waits for its start. */
  ghost predicate StartDue(s: State, k: nat) {
    k < |s.stops| && (s.stops[k].phase == RetiredOld(false) || s.stops[k].phase.StartingNew?)
  }

  /** The old generation could not be retired: no start, and a failed runner. */
  ghost predicate Unretired(s: State, k: nat) {
    && k < |s.stops|
    && s.stops[k].replacement == 0
    && (|| s.stops[k].phase == RetiredOld(true)
        || ((s.stops[k].phase.Closing? || s.stops[k].phase.Closed?) && s.fence.failed))
  }

  lemma CancelLeaves(s: State, c: CancelStep, k: nat)
    requires CancelEnabled(s, c) && k < |s.stops| && !s.stops[k].phase.Fresh?
    requires Recoveries(s.pump, s.stops, s.control, s.fence.failed, s.world.retired)
    ensures k < |CancelApply(s, c).stops| && CancelApply(s, c).stops[k] == s.stops[k]
  {
  }

  /** Only its own recovery moves an interruption on once it has begun. */
  lemma OthersLeave(s: State, step: Step, k: nat)
    requires Inv(s) && Enabled(s, step) && k < |s.stops| && !s.stops[k].phase.Fresh?
    requires !(step.Recovery? && step.index == k)
    ensures k < |Apply(s, step).stops| && Apply(s, step).stops[k] == s.stops[k]
  {
    Parts(s);
    hide Inv, Recoveries, EnvApply, CallerApply, RegistryApply, CancelApply, PumpApply, RecoveryApply, CallerEnabled,
         RegistryEnabled, CancelEnabled, PumpEnabled, RecoveryEnabled;
    match step {
      case Env(e) =>
      case Caller(c) => CallerLeaves(s, c);
      case Registering(r) => RegistryLeaves(s, r);
      case Cancel(c) => CancelLeaves(s, c, k);
      case Pumping(p) => PumpForward(s, p);
      case Recovery(i, r) => RecoveryLeaves(s, i, r);
    }
  }

  lemma FailedStays(s: State, step: Step)
    requires Inv(s) && Enabled(s, step) && s.fence.failed
    ensures Apply(s, step).fence.failed
  {
    hide Inv, Enabled, Apply;
    StepOnward(s, step);
  }

  lemma ReplacedOwn(s: State, r: RecoveryStep, k: nat, gen: nat, err: bool)
    requires Replaced(s, k, gen, err) && RecoveryEnabled(s, k, r)
    ensures Replaced(RecoveryApply(s, k, r), k, gen, err)
  {
  }

  lemma ReplacedStep(s: State, step: Step, k: nat, gen: nat, err: bool)
    requires Inv(s) && Enabled(s, step) && Replaced(s, k, gen, err)
    ensures Replaced(Apply(s, step), k, gen, err)
  {
    hide Inv, RecoveryApply, RecoveryEnabled;
    if step.Recovery? && step.index == k {
      ReplacedOwn(s, step.recovery, k, gen, err);
    } else {
      hide Apply, Enabled;
      OthersLeave(s, step, k);
      if s.fence.failed { FailedStays(s, step); }
    }
  }

  /** A recovery has no replacement before it is through. */
  ghost predicate Unreplaced(s: State) {
    forall k :: 0 <= k < |s.stops| && !s.stops[k].phase.Closing? && !s.stops[k].phase.Closed? ==>
      s.stops[k].replacement == 0
  }

  lemma UnreplacedCancel(s: State, c: CancelStep)
    requires CancelEnabled(s, c) && Unreplaced(s)
    requires Recoveries(s.pump, s.stops, s.control, s.fence.failed, s.world.retired)
    ensures Unreplaced(CancelApply(s, c))
  {
  }

  lemma UnreplacedRecovery(s: State, i: nat, r: RecoveryStep)
    requires i < |s.stops| && RecoveryEnabled(s, i, r) && Unreplaced(s)
    ensures Unreplaced(RecoveryApply(s, i, r))
  {
  }

  lemma UnreplacedStep(s: State, step: Step)
    requires Inv(s) && Enabled(s, step) && Unreplaced(s)
    ensures Unreplaced(Apply(s, step))
  {
    Parts(s);
    hide Inv, Recoveries, EnvApply, CallerApply, RegistryApply, CancelApply, PumpApply, RecoveryApply, CallerEnabled,
         RegistryEnabled, CancelEnabled, PumpEnabled, RecoveryEnabled;
    match step {
      case Env(e) =>
      case Caller(c) => CallerLeaves(s, c);
      case Registering(r) => RegistryLeaves(s, r);
      case Cancel(c) => UnreplacedCancel(s, c);
      case Pumping(p) => PumpForward(s, p);
      case Recovery(i, r) => UnreplacedRecovery(s, i, r);
    }
  }

  lemma {:induction false} UnreplacedRun(s: State, run: seq<Step>)
    requires Inv(s) && Legal(s, run) && Unreplaced(s)
    ensures Unreplaced(After(s, run))
    decreases |run|
  {
    hide Inv, Apply, Enabled, Unreplaced;
    if run != [] {
      UnreplacedStep(s, run[0]);
      StepKeeps(s, run[0]);
      UnreplacedRun(Apply(s, run[0]), run[1..]);
    }
  }

  lemma ReachableUnreplaced(s: State)
    requires Reachable(s)
    ensures Unreplaced(s)
  {
    InitInv();
    hide Inv, Legal, After;
    var run :| Legal(Init(), run) && After(Init(), run) == s;
    UnreplacedRun(Init(), run);
  }

  lemma UnretiredOwn(s: State, r: RecoveryStep, k: nat)
    requires Unretired(s, k) && RecoveryEnabled(s, k, r)
    ensures Unretired(RecoveryApply(s, k, r), k)
  {
  }

  lemma UnretiredStep(s: State, step: Step, k: nat)
    requires Inv(s) && Enabled(s, step) && Unretired(s, k)
    ensures Unretired(Apply(s, step), k)
  {
    hide Inv, RecoveryApply, RecoveryEnabled;
    if step.Recovery? && step.index == k {
      UnretiredOwn(s, step.recovery, k);
    } else {
      hide Apply, Enabled;
      OthersLeave(s, step, k);
      if s.fence.failed { FailedStays(s, step); }
    }
  }

  lemma StartDueOwn(s: State, r: RecoveryStep, k: nat)
    requires StartDue(s, k) && RecoveryEnabled(s, k, r)
    ensures var s' := RecoveryApply(s, k, r);
      if r.NewStarted? then Replaced(s', k, r.gen, r.err) else StartDue(s', k)
  {
  }

  /** A due start is still due, or this very step was its answer. */
  lemma StartDueStep(s: State, step: Step, k: nat)
    requires Inv(s) && Enabled(s, step) && StartDue(s, k)
    ensures if IsStart(step, k) then Replaced(Apply(s, step), k, step.recovery.gen, step.recovery.err)
      else StartDue(Apply(s, step), k)
  {
    hide Inv, RecoveryApply, RecoveryEnabled;
    if step.Recovery? && step.index == k {
      StartDueOwn(s, step.recovery, k);
    } else {
      hide Apply, Enabled;
      OthersLeave(s, step, k);
    }
  }

  predicate IsStart(step: Step, k: nat) {
    step.Recovery? && step.index == k && step.recovery.NewStarted?
  }

  lemma {:induction false} ReplacedRun(s: State, run: seq<Step>, k: nat, gen: nat, err: bool)
    requires Inv(s) && Legal(s, run) && Replaced(s, k, gen, err)
    ensures Replaced(After(s, run), k, gen, err)
    decreases |run|
  {
    hide Inv, Apply, Enabled, Replaced;
    if run != [] {
      ReplacedStep(s, run[0], k, gen, err);
      StepKeeps(s, run[0]);
      ReplacedRun(Apply(s, run[0]), run[1..], k, gen, err);
    }
  }

  lemma {:induction false} UnretiredRun(s: State, run: seq<Step>, k: nat)
    requires Inv(s) && Legal(s, run) && Unretired(s, k)
    ensures Unretired(After(s, run), k)
    decreases |run|
  {
    hide Inv, Apply, Enabled, Unretired;
    if run != [] {
      UnretiredStep(s, run[0], k);
      StepKeeps(s, run[0]);
      UnretiredRun(Apply(s, run[0]), run[1..], k);
    }
  }

  /** The run contains the answer of the recovery's start, and the recovery has taken it over. */
  ghost predicate StartedIn(run: seq<Step>, s': State, k: nat) {
    exists i :: 0 <= i < |run| && IsStart(run[i], k) && Replaced(s', k, run[i].recovery.gen, run[i].recovery.err)
  }

  lemma {:induction false} StartDueRun(s: State, run: seq<Step>, k: nat)
    requires Inv(s) && Legal(s, run) && StartDue(s, k)
    ensures StartDue(After(s, run), k) || StartedIn(run, After(s, run), k)
    decreases |run|
  {
    hide Inv, Apply, Enabled, Replaced, StartDue;
    if run != [] {
      var s', step := Apply(s, run[0]), run[0];
      StartDueStep(s, step, k);
      StepKeeps(s, step);
      if IsStart(step, k) {
        ReplacedRun(s', run[1..], k, step.recovery.gen, step.recovery.err);
        assert IsStart(run[0], k);
      } else {
        StartDueRun(s', run[1..], k);
        if StartedIn(run[1..], After(s', run[1..]), k) {
          var i :| 0 <= i < |run[1..]| && IsStart(run[1..][i], k)
            && Replaced(After(s', run[1..]), k, run[1..][i].recovery.gen, run[1..][i].recovery.err);
          assert run[i + 1] == run[1..][i];
        }
      }
    }
  }

  /** A recovery whose old generation retired without error is through only after a start: the
      replacement is the generation that very start returned, and if it failed so did the runner. */
  lemma RecoveryEndsInAStart(s: State, run: seq<Step>, k: nat)
    requires Reachable(s) && Legal(s, run) && k < |s.stops| && s.stops[k].phase == RetiredOld(false)
    ensures var s' := After(s, run);
      k < |s'.stops| &&
      (s'.stops[k].phase.Closing? || s'.stops[k].phase.Closed? ==>
         exists i :: 0 <= i < |run| && IsStart(run[i], k)
                     && s'.stops[k].replacement == run[i].recovery.gen && (run[i].recovery.err ==> s'.fence.failed))
  {
    hide Inv, Reachable, Legal, After;
    ReachableInv(s);
    StartDueRun(s, run, k);
    var s' := After(s, run);
    if StartedIn(run, s', k) {
      var i :| 0 <= i < |run| && IsStart(run[i], k) && Replaced(s', k, run[i].recovery.gen, run[i].recovery.err);
    }
  }

  /** A recovery that could not retire the old generation starts nothing and fails the runner. */
  lemma RecoveryWithoutRetirement(s: State, s': State, k: nat)
    requires Reachable(s) && Later(s, s') && k < |s.stops| && s.stops[k].phase == RetiredOld(true)
    ensures k < |s'.stops| && !s'.stops[k].phase.StartingNew? && !s'.stops[k].phase.StartedNew?
    ensures s'.stops[k].phase.Closing? || s'.stops[k].phase.Closed? ==> s'.fence.failed && s'.stops[k].replacement == 0
  {
    hide Inv, Reachable, Legal, After;
    ReachableInv(s);
    var run :| Legal(s, run) && After(s, run) == s';
    ReachableUnreplaced(s);
    assert Unretired(s, k);
    UnretiredRun(s, run, k);
  }
}
