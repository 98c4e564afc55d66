/** Every step of the callers, the registrations, the recoveries and the environment keeps
    the invariant. */
module CadCallers {
  import opened Common
  import opened CadProtocol
  import opened CadAccounts
  import opened CadInvariant
  import opened CadFrames

  // ---------------------------------------------------------------- tickets

  /** What a change of the tickets alone must respect. */
  lemma TicketsService(s: State, b: Book)
    requires Service(s) && b.queue == s.book.queue && |s.book.tickets| <= |b.tickets|
    requires Attribution(s.registry.evals, s.book.tickets, s.book.queue, Turning(s.control), PumpTask(s.pump))
    requires forall t :: 0 <= t < |s.book.tickets| ==>
      b.tickets[t].completed == s.book.tickets[t].completed && b.tickets[t].cancelled == s.book.tickets[t].cancelled
    ensures Service(s.(book := b))
  {
    hide Registrations, Outcomes, Controlled, ScanOk, TaskCount, Interrupted, AllAttributed;
  }

  lemma TicketsMachine(s: State, b: Book)
    requires Accounts(s) && Machine(s) && BookStep(s.book, b)
    ensures Machine(s.(book := b))
  {
    assert PumpTask(s.pump).Some? ==> s.pump.task.ticket < |s.book.tickets| by {
      hide Machine, Attribution, TaskEpochs, Epochs, OnePlace, Capacity;
    }
    assert Recoveries(s.pump, s.stops, s.control, s.fence.failed, s.world.retired) by { hide Accounts; }
    hide Machine, Accounts;
    BookStepMachine(s, b, s.control);
  }

  lemma AccountsHeld(s: State)
    requires Accounts(s)
    ensures AllBooked(s.book, s.book.held)
  {
    hide Attribution, TaskEpochs, Epochs, OnePlace, Capacity;
  }

  lemma ReserveKeeps(s: State, size: nat, captured: nat)
    requires captured == 0 || captured == s.fence.epoch
    requires Inv(s) && s.book.count < MAX_WORKER_TASKS && size <= MAX_WORKER_BYTES - s.book.bytes
    ensures Inv(s.(book := DoReserve(s.book, size, s.fence.epoch, captured)))
  {
    hide Machine, Service, AllAttributed, AllAdmitted, Balanced;
    var b := DoReserve(s.book, size, s.fence.epoch, captured);
    ReserveBalanced(s.book, size, s.fence.epoch, captured, Turning(s.control), PumpTask(s.pump));
    AccountsHeld(s);
    TicketsMachine(s, b);
    TicketsService(s, b);
  }

  lemma BindKeeps(s: State, t: nat)
    requires Inv(s) && t < |s.book.tickets| && s.book.tickets[t].captured == 0
    ensures Inv(s.(book := DoBind(s.book, t, s.fence.epoch)))
  {
    hide Machine, Service, AllAttributed, AllAdmitted, Balanced;
    var b := DoBind(s.book, t, s.fence.epoch);
    StampBalanced(s.book, t, b.tickets[t], Turning(s.control), PumpTask(s.pump));
    AccountsHeld(s);
    TicketsMachine(s, b);
    TicketsService(s, b);
  }

  lemma ReleaseUnusedKeeps(s: State, t: nat)
    requires Inv(s) && t < |s.book.tickets|
    ensures Inv(s.(book := DoReleaseUnused(s.book, t)))
  {
    hide Machine, Service, AllAttributed, AllAdmitted, Balanced;
    var b := DoReleaseUnused(s.book, t);
    ReleaseUnusedBalanced(s.book, t, Turning(s.control), PumpTask(s.pump));
    AccountsHeld(s);
    TicketsMachine(s, b);
    TicketsService(s, b);
  }

  lemma SendEpochs(s: State, t: nat, task: Task)
    requires Accounts(s) && t < |s.book.tickets| && s.book.tickets[t].owned && task.ticket == t
    requires task.epoch == s.book.tickets[t].epoch
    ensures var admitted := s.history.admitted[t := Admission(task.epoch, task.ctx)];
      && TaskEpochs(admitted, s.fence.epoch, s.book.queue + [task], Turning(s.control), PumpTask(s.pump))
      && Epochs(DoAdmit(s.book, task).tickets, s.fence, s.history.(admitted := admitted))
  {
    hide Balanced, Attribution;
  }

  lemma SendAccounts(s: State, t: nat, ctx: Ctx, verb: Verb, size: nat)
    requires Accounts(s) && MuFree(s.control) && t < |s.book.tickets| && CanAdmit(s, t, ctx, size)
    requires Attributed(s.registry.evals, Task(t, ctx, verb, size, s.book.tickets[t].epoch))
    ensures Accounts(Send(s, t, ctx, verb, size))
  {
    hide Balanced, TaskEpochs, Epochs, Attributed;
    var task := Task(t, ctx, verb, size, s.book.tickets[t].epoch);
    AdmitBalanced(s.book, task, Turning(s.control), PumpTask(s.pump));
    SendEpochs(s, t, task);
  }

  lemma SendService(s: State, t: nat, task: Task, admitted: map<nat, Admission>)
    requires Service(s) && MuFree(s.control) && task.ticket == t
    requires t < |s.book.tickets| && !s.book.tickets[t].cancelled
    ensures Service(s.(book := DoAdmit(s.book, task), history := s.history.(admitted := admitted)))
  {
    hide Registrations, Outcomes, Controlled, ScanOk, TaskCount;
    TasksAppend(s.book.queue, task);
  }

  lemma SendKeeps(s: State, t: nat, ctx: Ctx, verb: Verb, size: nat)
    requires Inv(s) && MuFree(s.control) && t < |s.book.tickets| && CanAdmit(s, t, ctx, size)
    requires Attributed(s.registry.evals, Task(t, ctx, verb, size, s.book.tickets[t].epoch))
    ensures Inv(Send(s, t, ctx, verb, size))
  {
    hide Accounts, Machine, Service;
    AccountsHeld(s);
    var task := Task(t, ctx, verb, size, s.book.tickets[t].epoch);
    var admitted := s.history.admitted[t := Admission(task.epoch, task.ctx)];
    SendAccounts(s, t, ctx, verb, size);
    TicketsMachine(s, DoAdmit(s.book, task));
    AdmissionMachine(s.(book := DoAdmit(s.book, task)), admitted);
    SendService(s, t, task, admitted);
  }

  lemma CallerKeeps(s: State, c: CallerStep)
    requires Inv(s) && CallerEnabled(s, c)
    ensures Inv(CallerApply(s, c))
  {
    hide Inv, Cancelled;
    match c {
      case Reserve(size, _, fence) => ReserveKeeps(s, size, fence);
      case Rebind(t) => BindKeeps(s, t);
      case ReleaseUnused(t) => ReleaseUnusedKeeps(s, t);
      case Admit(t, ctx, verb, size) => SendKeeps(s, t, ctx, verb, size);
    }
  }

  // ---------------------------------------------------------------- registrations

  /** A new evaluation names a ticket that no task carries yet. */
  lemma NewEvalAccounts(s: State, ev: Eval)
    requires Accounts(s) && ev.ticket < |s.book.tickets|
    requires s.book.tickets[ev.ticket].owned && s.book.tickets[ev.ticket].captured == 0
    requires forall e :: 0 <= e < |s.registry.evals| ==> s.registry.evals[e].ticket != ev.ticket
    ensures Accounts(s.(registry := s.registry.(evals := s.registry.evals + [ev])))
  {
    hide Balanced;
  }

  lemma NewEvalService(s: State, ev: Eval)
    requires Service(s) && ev.phase.Reserved? && ev.result.None?
    ensures Service(s.(registry := s.registry.(evals := s.registry.evals + [ev])))
  {
    hide ScanOk, Settlement, Cancelling;
  }

  lemma EvalReserveKeeps(s: State, key: string, size: nat)
    requires Inv(s) && RegistryEnabled(s, EvalReserve(key, size))
    ensures Inv(RegistryApply(s, EvalReserve(key, size)))
  {
    var ev := Eval(|s.book.tickets|, key, EvalPhase.Reserved, None);
    var s1 := s.(book := DoReserve(s.book, size, s.fence.epoch, 0));
    assert forall e :: 0 <= e < |s.registry.evals| ==> s.registry.evals[e].ticket != ev.ticket by {
      hide Balanced, TaskEpochs, Epochs, Machine, Service;
    }
    hide Accounts, Machine, Service;
    ReserveKeeps(s, size, 0);
    NewEvalAccounts(s1, ev);
    NewEvalService(s1, ev);
    SameMachine(s1, RegistryApply(s, EvalReserve(key, size)));
  }

  /** `Machine` does not look at the registrations or the contexts. */
  lemma SameMachine(s: State, s': State)
    requires Machine(s) && s' == s.(registry := s'.registry, control := s'.control, world := s'.world)
    requires s'.world.retired == s.world.retired
    requires s'.control.Fencing? == s.control.Fencing? && (s.control.Fencing? ==> s'.control == s.control)
    ensures Machine(s')
  {
    hide Generations, Replies, Commitments, Completions, Troubles, Results;
  }

  /** The accounts only look at which ticket an evaluation has. */
  lemma SameAccounts(s: State, s': State)
    requires Accounts(s) && s' == s.(registry := s'.registry, control := s'.control, world := s'.world)
    requires |s'.registry.evals| == |s.registry.evals|
    requires forall e :: 0 <= e < |s.registry.evals| ==> s'.registry.evals[e].ticket == s.registry.evals[e].ticket
    requires s'.control == s.control || (MuFree(s.control) && MuFree(s'.control))
    ensures Accounts(s')
  {
    hide Balanced, TaskEpochs, Epochs;
  }

  lemma BeginKeeps(s: State, e: nat)
    requires Inv(s) && RegistryEnabled(s, Begin(e))
    ensures Inv(RegistryApply(s, Begin(e)))
  {
    hide Accounts, Machine, Service;
    var s' := RegistryApply(s, Begin(e));
    SameAccounts(s, s');
    SameMachine(s, s');
    BeginService(s, e);
  }

  lemma BeginRegistrations(s: State, e: nat)
    requires Registrations(s.registry, s.world.ended) && RegistryEnabled(s, Begin(e))
    ensures Registrations(RegistryApply(s, Begin(e)).registry, RegistryApply(s, Begin(e)).world.ended)
  {
  }

  lemma BeginService(s: State, e: nat)
    requires Service(s) && RegistryEnabled(s, Begin(e))
    ensures Service(RegistryApply(s, Begin(e)))
  {
    BeginRegistrations(s, e);
    hide Settlement, ScanOk, Registrations;
  }

  lemma PhaseService(s: State, e: nat)
    requires Service(s) && KnownEval(s, e) && s.registry.evals[e].phase.Registered?
    ensures Service(s.(registry := DoPhase(s.registry, e, Bound)))
  {
    hide Settlement, Cancelling, ScanOk;
  }

  lemma BindEvalKeeps(s: State, e: nat)
    requires Inv(s) && RegistryEnabled(s, Bind(e))
    ensures Inv(RegistryApply(s, Bind(e)))
  {
    var s1 := s.(book := DoBind(s.book, s.registry.evals[e].ticket, s.fence.epoch));
    assert s.book.tickets[s.registry.evals[e].ticket].captured == 0 by {
      hide Balanced, TaskEpochs, Epochs, Machine, Service;
    }
    hide Accounts, Machine, Service;
    BindKeeps(s, s.registry.evals[e].ticket);
    var s' := RegistryApply(s, Bind(e));
    SameAccounts(s1, s');
    SameMachine(s1, s');
    PhaseService(s1, e);
  }

  lemma ReturnsService(s: State, e: nat, ok: bool)
    requires Service(s) && RegistryEnabled(s, EvalReturns(e, ok))
    ensures Service(RegistryApply(s, EvalReturns(e, ok)))
  {
    hide Settlement, Cancelling, ScanOk;
  }

  lemma EvalReturnsKeeps(s: State, e: nat, ok: bool)
    requires Inv(s) && RegistryEnabled(s, EvalReturns(e, ok))
    ensures Inv(RegistryApply(s, EvalReturns(e, ok)))
  {
    hide Accounts, Machine, Service;
    var s' := RegistryApply(s, EvalReturns(e, ok));
    SameAccounts(s, s');
    SameMachine(s, s');
    ReturnsService(s, e, ok);
  }

  lemma EndRegistrations(g: Registry, ended: set<Ctx>, e: nat, live: bool)
    requires Registrations(g, ended) && e < |g.evals| && g.evals[e].phase.Bound? && g.evals[e].result.Some?
    ensures Registrations(DoEnd(g, e, live), if OwnsKey(g, e) then ended + {Derived(e)} else ended)
  {
  }

  lemma EndService(s: State, e: nat)
    requires Service(s) && RegistryEnabled(s, End(e))
    ensures Service(RegistryApply(s, End(e)))
  {
    hide Registrations, Settlement;
    EndRegistrations(s.registry, s.world.ended, e, !Cancelled(s.world, Derived(e)));
  }

  lemma EndKeeps(s: State, e: nat)
    requires Inv(s) && RegistryEnabled(s, End(e))
    ensures Inv(RegistryApply(s, End(e)))
  {
    hide Accounts, Machine, Service, Cancelled;
    var s' := RegistryApply(s, End(e));
    SameAccounts(s, s');
    SameMachine(s, s');
    EndService(s, e);
  }

  lemma CancelControlKeeps(s: State, key: string)
    requires Inv(s) && RegistryEnabled(s, CancelControl(key))
    ensures Inv(RegistryApply(s, CancelControl(key)))
  {
    hide Accounts, Machine, Registrations, Outcomes, Revocations;
    var s' := RegistryApply(s, CancelControl(key));
    SameAccounts(s, s');
    SameMachine(s, s');
    assert s.registry.inflight[key] < |s.registry.evals| && OwnsKey(s.registry, s.registry.inflight[key]) by {
      InflightOwns(s.registry, s.world.ended, key);
    }
  }

  lemma InflightOwns(g: Registry, ended: set<Ctx>, key: string)
    requires Registrations(g, ended) && key in g.inflight
    ensures g.inflight[key] < |g.evals| && OwnsKey(g, g.inflight[key])
  {
  }

  lemma ConcludeRegistrations(g: Registry, ended: set<Ctx>, c: Control)
    requires c.Decided? && Registrations(g, ended) && Controlled(c, g)
    ensures Registrations(DoConclude(g, c.why, c.victim, c.answer),
                          if c.why.Supersede? || c.answer then ended + {Derived(c.victim)} else ended)
  {
  }

  /** What the cancellation established becomes what the revoked evaluation has come to. */
  lemma ConcludeRevocations(s: State)
    requires CancellingVictim(s.control, s.registry, s.book, s.pump, s.stops, s.history)
    requires Controlled(s.control, s.registry)
    requires Revocations(s.registry, s.book, Turning(s.control), s.pump, s.history) && RegistryEnabled(s, Conclude)
    ensures var s' := RegistryApply(s, Conclude);
      Revocations(s'.registry, s'.book, Turning(s'.control), s'.pump, s'.history)
  {
    hide TaskCount;
  }

  lemma ConcludeService(s: State)
    requires Service(s) && RegistryEnabled(s, Conclude)
    ensures Service(RegistryApply(s, Conclude))
  {
    hide Registrations, Revocations;
    ConcludeRegistrations(s.registry, s.world.ended, s.control);
    ConcludeRevocations(s);
  }

  lemma ConcludeKeeps(s: State)
    requires Inv(s) && RegistryEnabled(s, Conclude)
    ensures Inv(RegistryApply(s, Conclude))
  {
    hide Accounts, Machine, Service;
    var s' := RegistryApply(s, Conclude);
    SameAccounts(s, s');
    SameMachine(s, s');
    ConcludeService(s);
  }

  /** An evaluation's own task carries its context. */
  lemma EvalAdmitKeeps(s: State, e: nat, size: nat)
    requires Inv(s) && RegistryEnabled(s, EvalAdmit(e, size))
    ensures Inv(RegistryApply(s, EvalAdmit(e, size)))
  {
    var t := s.registry.evals[e].ticket;
    assert Attributed(s.registry.evals, Task(t, Derived(e), Evaluate, size, s.book.tickets[t].epoch)) by {
      hide Balanced, TaskEpochs, Epochs, Machine, Service;
    }
    hide Inv, Attributed;
    SendKeeps(s, t, Derived(e), Evaluate, size);
  }

  lemma RegistryKeeps(s: State, r: RegistryStep)
    requires Inv(s) && RegistryEnabled(s, r)
    ensures Inv(RegistryApply(s, r))
  {
    hide Inv, RegistryApply;
    match r {
      case EvalReserve(key, size) => EvalReserveKeeps(s, key, size);
      case Begin(e) => BeginKeeps(s, e);
      case Bind(e) => BindEvalKeeps(s, e);
      case EvalAdmit(e, size) => EvalAdmitKeeps(s, e, size);
      case EvalReturns(e, ok) => EvalReturnsKeeps(s, e, ok);
      case End(e) => EndKeeps(s, e);
      case CancelControl(key) => CancelControlKeeps(s, key);
      case Conclude => ConcludeKeeps(s);
    }
  }

  // ---------------------------------------------------------------- recovery and environment

  lemma RecoveryTroubles(s: State, i: nat, r: RecoveryStep)
    requires i < |s.stops| && RecoveryEnabled(s, i, r)
    requires Troubles(s.book, s.pump, s.stops, s.world.retired, s.history.troubled)
    ensures var s' := RecoveryApply(s, i, r);
      Troubles(s'.book, s'.pump, s'.stops, s'.world.retired, s'.history.troubled)
  {
    hide TaskCount;
  }

  lemma RecoveryMachine(s: State, i: nat, r: RecoveryStep)
    requires Machine(s) && i < |s.stops| && RecoveryEnabled(s, i, r)
    ensures Machine(RecoveryApply(s, i, r))
  {
    hide Replies, Commitments, Completions, Troubles, Results;
    RecoveryTroubles(s, i, r);
  }

  lemma RecoveryEpochs(s: State, i: nat, r: RecoveryStep)
    requires Accounts(s) && i < |s.stops| && RecoveryEnabled(s, i, r)
    ensures Accounts(RecoveryApply(s, i, r))
  {
    hide Balanced, Attribution, TaskEpochs, Epochs;
    EpochsFrame(s.book.tickets, s.book.tickets, s.fence, RecoveryApply(s, i, r).fence, s.history, s.history);
  }

  lemma RecoveryService(s: State, i: nat, r: RecoveryStep)
    requires Service(s) && i < |s.stops| && RecoveryEnabled(s, i, r)
    ensures Service(RecoveryApply(s, i, r))
  {
    hide Registrations, Outcomes, Controlled, ScanOk, Revocations, TaskCount;
  }

  lemma RecoveryKeeps(s: State, i: nat, r: RecoveryStep)
    requires Inv(s) && i < |s.stops| && RecoveryEnabled(s, i, r)
    ensures Inv(RecoveryApply(s, i, r))
  {
    hide Accounts, Machine, Service, RecoveryEnabled, RecoveryApply;
    RecoveryEpochs(s, i, r);
    RecoveryMachine(s, i, r);
    RecoveryService(s, i, r);
  }

  lemma EnvTroubles(s: State, e: EnvStep)
    requires Troubles(s.book, s.pump, s.stops, s.world.retired, s.history.troubled)
    ensures Troubles(s.book, s.pump, s.stops, EnvApply(s.world, e).retired, s.history.troubled)
  {
    hide TaskCount;
  }

  lemma EnvKeeps(s: State, e: EnvStep)
    requires Inv(s)
    ensures Inv(s.(world := EnvApply(s.world, e)))
  {
    hide Balanced, Attribution, TaskEpochs, Epochs, Outdated, PumpOk, Generations, Replies, Commitments,
         Completions, Troubles, Results, Outcomes, Controlled, Scanning, CancellingVictim, Revocations;
    EnvTroubles(s, e);
  }
}
