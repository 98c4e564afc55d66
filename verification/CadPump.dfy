/** Every step of the pump keeps the invariant. */
module CadPump {
  import opened Common
  import opened CadProtocol
  import opened CadAccounts
  import opened CadInvariant
  import opened CadFrames

  /** The steps that bring a task to a worker; the others follow a call, or end the pump. Proofs
      about every step are cut in two here. */
  predicate BeforeCall(p: PumpStep) {
    || p.Dequeue? || p.DropEnded? || p.Refuse? || p.Activate? || p.NoWorker? || p.StartReturns?
    || p.Commit? || p.StartFault?
  }

  /** The steps from a call's return to its reply: they leave the book's places alone. */
  predicate Settling(p: PumpStep) {
    || p.CallReturns? || p.Complete? || p.SeeInterruption? || p.BeginRetire? || p.Settle? || p.RetireReturns?
    || p.Reply? || p.SkipReply?
  }

  lemma PumpBalanced(s: State, p: PumpStep)
    requires PumpEnabled(s, p)
    requires Balanced(s.book, Turning(s.control), PumpTask(s.pump))
    ensures Balanced(PumpApply(s, p).book, Turning(PumpApply(s, p).control), PumpTask(PumpApply(s, p).pump))
  {
    hide Balanced;
    var turning, pumped := Turning(s.control), PumpTask(s.pump);
    match p {
      case Dequeue => TakeBalanced(s.book, turning, pumped, turning, Some(s.book.queue[0]));
      case DrainTake => TakeBalanced(s.book, turning, pumped, turning, Some(s.book.queue[0]));
      case DropDown => ReleaseBalanced(s.book, s.pump.task, turning, pumped, turning, None);
      case DropEnded => ReleaseBalanced(s.book, s.pump.task, turning, pumped, turning, None);
      case Refuse => ReleaseBalanced(s.book, s.pump.task, turning, pumped, turning, None);
      case GiveBack => ReleaseBalanced(s.book, s.pump.task, turning, pumped, turning, None);
      case DrainRelease => ReleaseBalanced(s.book, s.pump.task, turning, pumped, turning, None);
      case Keep => KeepBalanced(s.book, s.pump.task, turning);
      case Complete =>
        var t := s.pump.task.ticket;
        StampBalanced(s.book, t, s.book.tickets[t].(completed := true), turning, pumped);
      case _ =>
    }
  }

  lemma PumpAttribution(s: State, p: PumpStep)
    requires PumpEnabled(s, p)
    requires Attribution(s.registry.evals, s.book.tickets, s.book.queue, Turning(s.control), PumpTask(s.pump))
    ensures var s' := PumpApply(s, p);
      Attribution(s'.registry.evals, s'.book.tickets, s'.book.queue, Turning(s'.control), PumpTask(s'.pump))
  {
    hide Attributed;
  }

  lemma PumpTaskEpochs(s: State, p: PumpStep)
    requires PumpEnabled(s, p)
    requires TaskEpochs(s.history.admitted, s.fence.epoch, s.book.queue, Turning(s.control), PumpTask(s.pump))
    ensures var s' := PumpApply(s, p);
      TaskEpochs(s'.history.admitted, s'.fence.epoch, s'.book.queue, Turning(s'.control), PumpTask(s'.pump))
  {
    assert PumpApply(s, p).history.admitted == s.history.admitted;
  }

  /** A refusal in the pump's hand has one of its three reasons. */
  lemma RefuseEpochs(s: State)
    requires PumpEnabled(s, Refuse) && Epochs(s.book.tickets, s.fence, s.history)
    requires Admitted(s.history.admitted, s.fence.epoch, s.pump.task)
    ensures Epochs(PumpApply(s, Refuse).book.tickets, s.fence, PumpApply(s, Refuse).history)
  {
    hide Epochs;
    var t, tickets := s.pump.task.ticket, DoRelease(s.book, s.pump.task).tickets;
    EpochsFrame(s.book.tickets, tickets, s.fence, s.fence, s.history, Answered(s.history, t, false));
    EpochsRefused(tickets, s.fence, Answered(s.history, t, false), t, Refusal(s.fence.epoch, None));
  }

  /** A commitment is in the epoch of admission; a refusal at the commit has a reason too. */
  lemma CommitEpochs(s: State)
    requires PumpEnabled(s, Commit) && Epochs(s.book.tickets, s.fence, s.history)
    requires Admitted(s.history.admitted, s.fence.epoch, s.pump.task)
    ensures Epochs(s.book.tickets, s.fence, PumpApply(s, Commit).history)
  {
    hide Cancelled;
    if !MayCommit(s, s.pump.task) {
      hide Epochs;
      var ended := if Cancelled(s.world, s.pump.task.ctx) then Some(s.pump.task.ctx) else None;
      EpochsRefused(s.book.tickets, s.fence, s.history, s.pump.task.ticket, Refusal(s.fence.epoch, ended));
    }
  }

  /** The other steps of the pump do not touch what the epochs are about. */
  lemma PumpLeavesEpochs(s: State, p: PumpStep)
    requires PumpEnabled(s, p) && !p.Refuse? && !p.Commit? && Epochs(s.book.tickets, s.fence, s.history)
    ensures Epochs(PumpApply(s, p).book.tickets, PumpApply(s, p).fence, PumpApply(s, p).history)
  {
    hide Epochs;
    var s' := PumpApply(s, p);
    EpochsFrame(s.book.tickets, s'.book.tickets, s.fence, s'.fence, s.history, s'.history);
  }

  lemma PumpEpochs(s: State, p: PumpStep)
    requires PumpEnabled(s, p) && Epochs(s.book.tickets, s.fence, s.history)
    requires TaskEpochs(s.history.admitted, s.fence.epoch, s.book.queue, Turning(s.control), PumpTask(s.pump))
    ensures Epochs(PumpApply(s, p).book.tickets, PumpApply(s, p).fence, PumpApply(s, p).history)
  {
    hide Epochs, AllAdmitted;
    match p {
      case Refuse => RefuseEpochs(s);
      case Commit => CommitEpochs(s);
      case _ => hide PumpApply, PumpEnabled; PumpLeavesEpochs(s, p);
    }
  }

  lemma PumpOutdated(s: State, p: PumpStep)
    requires PumpEnabled(s, p) && Outdated(s.control, s.book.queue, s.fence.epoch)
    ensures Outdated(PumpApply(s, p).control, PumpApply(s, p).book.queue, PumpApply(s, p).fence.epoch)
  {
  }

  lemma PumpPumpOk(s: State, p: PumpStep)
    requires PumpEnabled(s, p) && PumpOk(s.pump, s.stops)
    ensures PumpOk(PumpApply(s, p).pump, PumpApply(s, p).stops)
  {
  }

  lemma PumpRecoveriesEarly(s: State, p: PumpStep)
    requires BeforeCall(p)
    requires PumpEnabled(s, p) && PumpOk(s.pump, s.stops)
    requires Recoveries(s.pump, s.stops, s.control, s.fence.failed, s.world.retired)
    ensures var s' := PumpApply(s, p); Recoveries(s'.pump, s'.stops, s'.control, s'.fence.failed, s'.world.retired)
  {
  }

  lemma PumpRecoveriesLate(s: State, p: PumpStep)
    requires !BeforeCall(p)
    requires PumpEnabled(s, p) && PumpOk(s.pump, s.stops)
    requires Recoveries(s.pump, s.stops, s.control, s.fence.failed, s.world.retired)
    ensures var s' := PumpApply(s, p); Recoveries(s'.pump, s'.stops, s'.control, s'.fence.failed, s'.world.retired)
  {
  }

  lemma PumpRecoveries(s: State, p: PumpStep)
    requires PumpEnabled(s, p) && PumpOk(s.pump, s.stops)
    requires Recoveries(s.pump, s.stops, s.control, s.fence.failed, s.world.retired)
    ensures var s' := PumpApply(s, p); Recoveries(s'.pump, s'.stops, s'.control, s'.fence.failed, s'.world.retired)
  {
    hide PumpApply, PumpEnabled;
    if BeforeCall(p) { PumpRecoveriesEarly(s, p); } else { PumpRecoveriesLate(s, p); }
  }

  lemma PumpGenerationsEarly(s: State, p: PumpStep)
    requires BeforeCall(p)
    requires PumpEnabled(s, p) && PumpOk(s.pump, s.stops)
    requires Recoveries(s.pump, s.stops, s.control, s.fence.failed, s.world.retired)
    requires Generations(s.pump, s.stops, s.fence.failed)
    ensures var s' := PumpApply(s, p); Generations(s'.pump, s'.stops, s'.fence.failed)
  {
  }

  lemma PumpGenerationsLate(s: State, p: PumpStep)
    requires !BeforeCall(p)
    requires PumpEnabled(s, p) && PumpOk(s.pump, s.stops)
    requires Recoveries(s.pump, s.stops, s.control, s.fence.failed, s.world.retired)
    requires Generations(s.pump, s.stops, s.fence.failed)
    ensures var s' := PumpApply(s, p); Generations(s'.pump, s'.stops, s'.fence.failed)
  {
  }

  lemma PumpGenerations(s: State, p: PumpStep)
    requires PumpEnabled(s, p) && PumpOk(s.pump, s.stops)
    requires Recoveries(s.pump, s.stops, s.control, s.fence.failed, s.world.retired)
    requires Generations(s.pump, s.stops, s.fence.failed)
    ensures var s' := PumpApply(s, p); Generations(s'.pump, s'.stops, s'.fence.failed)
  {
    hide PumpApply, PumpEnabled;
    if BeforeCall(p) { PumpGenerationsEarly(s, p); } else { PumpGenerationsLate(s, p); }
  }

  /** The pump's own task is a known reservation. */
  ghost predicate PumpReserved(s: State) {
    PumpTask(s.pump).Some? ==> s.pump.task.ticket < |s.book.tickets|
  }

  lemma SpentGrows(b: Book, task: Task)
    requires task.ticket < |b.tickets|
    ensures forall t :: Spent(b, t) || t == task.ticket ==> Spent(DoRelease(b, task), t)
  {
  }

  lemma SpentStays(b: Book)
    requires b.queue != []
    ensures forall t :: Spent(TakeHead(b), t) == Spent(b, t)
  {
  }

  lemma PumpRepliesEarly(s: State, p: PumpStep)
    requires BeforeCall(p)
    requires PumpEnabled(s, p) && PumpReserved(s)
    requires Replies(s.book, s.pump, s.history.replies)
    ensures Replies(PumpApply(s, p).book, PumpApply(s, p).pump, PumpApply(s, p).history.replies)
  {
    if p.Refuse? || p.DropEnded? { SpentGrows(s.book, s.pump.task); }
    if p.Dequeue? { SpentStays(s.book); }
    hide TaskCount, Spent;
  }

  lemma PumpRepliesLate(s: State, p: PumpStep)
    requires !BeforeCall(p)
    requires PumpEnabled(s, p) && PumpReserved(s)
    requires Replies(s.book, s.pump, s.history.replies)
    ensures Replies(PumpApply(s, p).book, PumpApply(s, p).pump, PumpApply(s, p).history.replies)
  {
    hide TaskCount;
    if p.Keep? { TasksAppend(s.book.held, s.pump.task); }
  }

  lemma PumpReplies(s: State, p: PumpStep)
    requires PumpEnabled(s, p) && PumpReserved(s)
    requires Replies(s.book, s.pump, s.history.replies)
    ensures Replies(PumpApply(s, p).book, PumpApply(s, p).pump, PumpApply(s, p).history.replies)
  {
    hide PumpApply, PumpEnabled;
    if BeforeCall(p) { PumpRepliesEarly(s, p); } else { PumpRepliesLate(s, p); }
  }

  lemma PumpCommittedOkEarly(s: State, p: PumpStep, t: nat, gen: nat)
    requires BeforeCall(p)
    requires PumpEnabled(s, p) && PumpReserved(s) && CommittedOk(s.book, s.pump, t, gen)
    requires PumpOk(s.pump, s.stops) && OnePlace(s.book, Turning(s.control), PumpTask(s.pump))
    ensures CommittedOk(PumpApply(s, p).book, PumpApply(s, p).pump, t, gen)
  {
    hide TaskCount, PumpOk;
    assert Occurrences(s.book, Turning(s.control), PumpTask(s.pump), t) == 1;
  }

  lemma PumpCommittedOkLate(s: State, p: PumpStep, t: nat, gen: nat)
    requires !BeforeCall(p)
    requires PumpEnabled(s, p) && PumpReserved(s) && CommittedOk(s.book, s.pump, t, gen)
    requires PumpOk(s.pump, s.stops) && OnePlace(s.book, Turning(s.control), PumpTask(s.pump))
    ensures CommittedOk(PumpApply(s, p).book, PumpApply(s, p).pump, t, gen)
  {
    hide TaskCount, PumpOk;
    assert Occurrences(s.book, Turning(s.control), PumpTask(s.pump), t) == 1;
    if p.Keep? { TasksAppend(s.book.held, s.pump.task); }
  }

  lemma PumpCommittedOk(s: State, p: PumpStep, t: nat, gen: nat)
    requires PumpEnabled(s, p) && PumpReserved(s) && CommittedOk(s.book, s.pump, t, gen)
    requires PumpOk(s.pump, s.stops) && OnePlace(s.book, Turning(s.control), PumpTask(s.pump))
    ensures CommittedOk(PumpApply(s, p).book, PumpApply(s, p).pump, t, gen)
  {
    hide PumpApply, PumpEnabled;
    if BeforeCall(p) { PumpCommittedOkEarly(s, p, t, gen); } else { PumpCommittedOkLate(s, p, t, gen); }
  }

  lemma RunningCommitted(b: Book, p: Pump, t: nat, gen: nat)
    requires t < |b.tickets| && gen != 0 && Running(p, t)
    ensures CommittedOk(b, p, t, gen)
  {
  }

  /** A task the pump has not committed yet was never committed before. */
  lemma UnrunUncommitted(s: State)
    requires s.pump.Hand? || s.pump.Starting? || s.pump.Started?
    requires OnePlace(s.book, Turning(s.control), PumpTask(s.pump))
    requires Commitments(s.book, s.pump, s.history.committed)
    ensures s.pump.task.ticket !in s.history.committed
  {
    if s.pump.task.ticket < |s.book.tickets| {
      assert Occurrences(s.book, Turning(s.control), PumpTask(s.pump), s.pump.task.ticket) == 1;
    }
  }

  lemma PumpCommitmentsEarly(s: State, p: PumpStep)
    requires BeforeCall(p)
    requires PumpEnabled(s, p) && PumpReserved(s) && PumpOk(s.pump, s.stops)
    requires OnePlace(s.book, Turning(s.control), PumpTask(s.pump))
    requires Commitments(s.book, s.pump, s.history.committed)
    ensures Commitments(PumpApply(s, p).book, PumpApply(s, p).pump, PumpApply(s, p).history.committed)
  {
    hide TaskCount, CommittedOk;
    var s' := PumpApply(s, p);
    if p.Commit? { UnrunUncommitted(s); }
    if p.NoWorker? || p.StartFault? { UnrunUncommitted(s); }
    forall t | t in s'.history.committed ensures CommittedOk(s'.book, s'.pump, t, s'.history.committed[t].gen) {
      if t in s.history.committed { PumpCommittedOk(s, p, t, s.history.committed[t].gen); }
      else { RunningCommitted(s'.book, s'.pump, t, s'.history.committed[t].gen); }
    }
  }

  lemma PumpCommitmentsLate(s: State, p: PumpStep)
    requires !BeforeCall(p)
    requires PumpEnabled(s, p) && PumpReserved(s) && PumpOk(s.pump, s.stops)
    requires OnePlace(s.book, Turning(s.control), PumpTask(s.pump))
    requires Commitments(s.book, s.pump, s.history.committed)
    ensures Commitments(PumpApply(s, p).book, PumpApply(s, p).pump, PumpApply(s, p).history.committed)
  {
    hide TaskCount, CommittedOk;
    var s' := PumpApply(s, p);
    forall t | t in s'.history.committed ensures CommittedOk(s'.book, s'.pump, t, s'.history.committed[t].gen) {
      PumpCommittedOk(s, p, t, s.history.committed[t].gen);
    }
  }

  lemma PumpCommitments(s: State, p: PumpStep)
    requires PumpEnabled(s, p) && PumpReserved(s) && PumpOk(s.pump, s.stops)
    requires OnePlace(s.book, Turning(s.control), PumpTask(s.pump))
    requires Commitments(s.book, s.pump, s.history.committed)
    ensures Commitments(PumpApply(s, p).book, PumpApply(s, p).pump, PumpApply(s, p).history.committed)
  {
    hide PumpApply, PumpEnabled;
    if BeforeCall(p) { PumpCommitmentsEarly(s, p); } else { PumpCommitmentsLate(s, p); }
  }

  lemma PumpCompletedOkEarly(s: State, p: PumpStep, t: nat)
    requires BeforeCall(p)
    requires PumpEnabled(s, p) && t < |s.book.tickets| && CompletedOk(s.book, s.pump, t)
    ensures t < |PumpApply(s, p).book.tickets| && CompletedOk(PumpApply(s, p).book, PumpApply(s, p).pump, t)
  {
    hide TaskCount;
  }

  lemma PumpCompletedOkSettling(s: State, p: PumpStep, t: nat)
    requires Settling(p)
    requires PumpEnabled(s, p) && t < |s.book.tickets| && CompletedOk(s.book, s.pump, t)
    ensures t < |PumpApply(s, p).book.tickets| && CompletedOk(PumpApply(s, p).book, PumpApply(s, p).pump, t)
  {
    hide TaskCount;
  }

  lemma PumpCompletedOkLeaving(s: State, p: PumpStep, t: nat)
    requires !BeforeCall(p) && !Settling(p)
    requires PumpEnabled(s, p) && t < |s.book.tickets| && CompletedOk(s.book, s.pump, t)
    ensures t < |PumpApply(s, p).book.tickets| && CompletedOk(PumpApply(s, p).book, PumpApply(s, p).pump, t)
  {
    hide TaskCount;
    if p.Keep? { TasksAppend(s.book.held, s.pump.task); }
  }

  lemma PumpCompletedOk(s: State, p: PumpStep, t: nat)
    requires PumpEnabled(s, p) && t < |s.book.tickets| && CompletedOk(s.book, s.pump, t)
    ensures t < |PumpApply(s, p).book.tickets| && CompletedOk(PumpApply(s, p).book, PumpApply(s, p).pump, t)
  {
    hide PumpApply, PumpEnabled;
    if BeforeCall(p) {
      PumpCompletedOkEarly(s, p, t);
    } else if Settling(p) {
      PumpCompletedOkSettling(s, p, t);
    } else {
      PumpCompletedOkLeaving(s, p, t);
    }
  }

  lemma PumpCompletions(s: State, p: PumpStep)
    requires PumpEnabled(s, p) && Completions(s.book, s.pump)
    ensures Completions(PumpApply(s, p).book, PumpApply(s, p).pump)
  {
    hide CompletedOk;
    forall t | 0 <= t < |s.book.tickets| ensures CompletedOk(PumpApply(s, p).book, PumpApply(s, p).pump, t) {
      PumpCompletedOk(s, p, t);
    }
  }

  lemma PumpTroubledOkEarly(s: State, p: PumpStep, t: nat, gen: nat)
    requires BeforeCall(p)
    requires PumpEnabled(s, p) && PumpReserved(s) && TroubledOk(s.book, s.pump, s.stops, s.world.retired, t, gen)
    requires OnePlace(s.book, Turning(s.control), PumpTask(s.pump)) && PumpOk(s.pump, s.stops)
    ensures var s' := PumpApply(s, p); TroubledOk(s'.book, s'.pump, s'.stops, s'.world.retired, t, gen)
  {
    hide TaskCount;
    assert Occurrences(s.book, Turning(s.control), PumpTask(s.pump), t) == 1;
  }

  lemma PumpTroubledOkSettling(s: State, p: PumpStep, t: nat, gen: nat)
    requires Settling(p)
    requires PumpEnabled(s, p) && PumpReserved(s) && TroubledOk(s.book, s.pump, s.stops, s.world.retired, t, gen)
    requires OnePlace(s.book, Turning(s.control), PumpTask(s.pump)) && PumpOk(s.pump, s.stops)
    ensures var s' := PumpApply(s, p); TroubledOk(s'.book, s'.pump, s'.stops, s'.world.retired, t, gen)
  {
    hide TaskCount;
    assert Occurrences(s.book, Turning(s.control), PumpTask(s.pump), t) == 1;
    hide OnePlace;
  }

  lemma PumpTroubledOkLeaving(s: State, p: PumpStep, t: nat, gen: nat)
    requires !BeforeCall(p) && !Settling(p)
    requires PumpEnabled(s, p) && PumpReserved(s) && TroubledOk(s.book, s.pump, s.stops, s.world.retired, t, gen)
    requires OnePlace(s.book, Turning(s.control), PumpTask(s.pump)) && PumpOk(s.pump, s.stops)
    ensures var s' := PumpApply(s, p); TroubledOk(s'.book, s'.pump, s'.stops, s'.world.retired, t, gen)
  {
    hide TaskCount, PumpOk;
    assert Occurrences(s.book, Turning(s.control), PumpTask(s.pump), t) == 1;
    if p.Keep? { TasksAppend(s.book.held, s.pump.task); }
  }

  lemma PumpTroubledOk(s: State, p: PumpStep, t: nat, gen: nat)
    requires PumpEnabled(s, p) && PumpReserved(s) && TroubledOk(s.book, s.pump, s.stops, s.world.retired, t, gen)
    requires OnePlace(s.book, Turning(s.control), PumpTask(s.pump)) && PumpOk(s.pump, s.stops)
    ensures var s' := PumpApply(s, p); TroubledOk(s'.book, s'.pump, s'.stops, s'.world.retired, t, gen)
  {
    hide PumpApply, PumpEnabled;
    if BeforeCall(p) {
      PumpTroubledOkEarly(s, p, t, gen);
    } else if Settling(p) {
      PumpTroubledOkSettling(s, p, t, gen);
    } else {
      PumpTroubledOkLeaving(s, p, t, gen);
    }
  }

  lemma NewTrouble(s: State, p: PumpStep)
    requires PumpEnabled(s, p) && (p.StartFault? || p.Complete?) && PumpReserved(s) && PumpOk(s.pump, s.stops)
    requires Troubles(s.book, s.pump, s.stops, s.world.retired, s.history.troubled)
    requires s.pump.gen != 0 && (p.StartFault? || s.pump.stop.Some? || s.pump.outcome.Crashed?)
    ensures var s' := PumpApply(s, p);
      TroubledOk(s'.book, s'.pump, s'.stops, s'.world.retired, s.pump.task.ticket, s.pump.gen)
  {
    hide TaskCount;
  }

  /** Every step but two leaves the record of troubles alone ... */
  lemma PumpOldTroubles(s: State, p: PumpStep)
    requires !p.StartFault? && !p.Complete?
    requires PumpEnabled(s, p) && PumpReserved(s) && PumpOk(s.pump, s.stops)
    requires OnePlace(s.book, Turning(s.control), PumpTask(s.pump))
    requires Troubles(s.book, s.pump, s.stops, s.world.retired, s.history.troubled)
    ensures var s' := PumpApply(s, p); Troubles(s'.book, s'.pump, s'.stops, s'.world.retired, s'.history.troubled)
  {
    hide TaskCount, TroubledOk, OnePlace;
    var s' := PumpApply(s, p);
    forall t | t in s.history.troubled
      ensures TroubledOk(s'.book, s'.pump, s'.stops, s'.world.retired, t, s.history.troubled[t])
    {
      PumpTroubledOk(s, p, t, s.history.troubled[t]);
    }
  }

  /** ... and those two may add the pump's own task. */
  lemma PumpNewTroubles(s: State, p: PumpStep)
    requires p.StartFault? || p.Complete?
    requires PumpEnabled(s, p) && PumpReserved(s) && PumpOk(s.pump, s.stops)
    requires OnePlace(s.book, Turning(s.control), PumpTask(s.pump))
    requires Troubles(s.book, s.pump, s.stops, s.world.retired, s.history.troubled)
    ensures var s' := PumpApply(s, p); Troubles(s'.book, s'.pump, s'.stops, s'.world.retired, s'.history.troubled)
  {
    hide TaskCount, TroubledOk, OnePlace;
    var s' := PumpApply(s, p);
    var u := s.pump.task.ticket;
    forall t | t in s'.history.troubled
      ensures TroubledOk(s'.book, s'.pump, s'.stops, s'.world.retired, t, s'.history.troubled[t])
    {
      if t == u && s'.history != s.history {
        NewTrouble(s, p);
      } else {
        PumpTroubledOk(s, p, t, s.history.troubled[t]);
      }
    }
  }

  lemma PumpTroubles(s: State, p: PumpStep)
    requires PumpEnabled(s, p) && PumpReserved(s) && PumpOk(s.pump, s.stops)
    requires OnePlace(s.book, Turning(s.control), PumpTask(s.pump))
    requires Troubles(s.book, s.pump, s.stops, s.world.retired, s.history.troubled)
    ensures var s' := PumpApply(s, p); Troubles(s'.book, s'.pump, s'.stops, s'.world.retired, s'.history.troubled)
  {
    hide PumpApply, PumpEnabled;
    if p.StartFault? || p.Complete? { PumpNewTroubles(s, p); } else { PumpOldTroubles(s, p); }
  }

  /** A task still in the pump before its reply has none, so no reply is overwritten. */
  lemma UnrepliedTask(s: State)
    requires PumpTask(s.pump).Some? && !s.pump.Replied? && PumpReserved(s)
    requires OnePlace(s.book, Turning(s.control), PumpTask(s.pump))
    requires Replies(s.book, s.pump, s.history.replies)
    ensures s.pump.task.ticket !in s.history.replies
  {
    assert Occurrences(s.book, Turning(s.control), PumpTask(s.pump), s.pump.task.ticket) == 1;
  }

  lemma PumpResultsEarly(s: State, p: PumpStep)
    requires BeforeCall(p)
    requires PumpEnabled(s, p) && PumpReserved(s) && PumpOk(s.pump, s.stops)
    requires OnePlace(s.book, Turning(s.control), PumpTask(s.pump))
    requires Commitments(s.book, s.pump, s.history.committed) && Replies(s.book, s.pump, s.history.replies)
    requires Troubles(s.book, s.pump, s.stops, s.world.retired, s.history.troubled) && Results(s.pump, s.history)
    ensures Results(PumpApply(s, p).pump, PumpApply(s, p).history)
  {
    hide Replies, OnePlace, Commitments, Troubles, PumpOk;
    if PumpTask(s.pump).Some? && !s.pump.Replied? { UnrepliedTask(s); }
  }

  lemma PumpResultsLate(s: State, p: PumpStep)
    requires !BeforeCall(p)
    requires PumpEnabled(s, p) && PumpReserved(s) && PumpOk(s.pump, s.stops)
    requires OnePlace(s.book, Turning(s.control), PumpTask(s.pump))
    requires Commitments(s.book, s.pump, s.history.committed) && Replies(s.book, s.pump, s.history.replies)
    requires Troubles(s.book, s.pump, s.stops, s.world.retired, s.history.troubled) && Results(s.pump, s.history)
    ensures Results(PumpApply(s, p).pump, PumpApply(s, p).history)
  {
    hide Replies, OnePlace, CommittedOk;
    if PumpTask(s.pump).Some? && !s.pump.Replied? { UnrepliedTask(s); }
  }

  lemma PumpResults(s: State, p: PumpStep)
    requires PumpEnabled(s, p) && PumpReserved(s) && PumpOk(s.pump, s.stops)
    requires OnePlace(s.book, Turning(s.control), PumpTask(s.pump))
    requires Commitments(s.book, s.pump, s.history.committed) && Replies(s.book, s.pump, s.history.replies)
    requires Troubles(s.book, s.pump, s.stops, s.world.retired, s.history.troubled) && Results(s.pump, s.history)
    ensures Results(PumpApply(s, p).pump, PumpApply(s, p).history)
  {
    hide PumpApply, PumpEnabled;
    if BeforeCall(p) { PumpResultsEarly(s, p); } else { PumpResultsLate(s, p); }
  }

  lemma PumpServer(s: State, p: PumpStep)
    requires PumpEnabled(s, p) && Registrations(s.registry, s.world.ended) && Controlled(s.control, s.registry)
    ensures Registrations(PumpApply(s, p).registry, PumpApply(s, p).world.ended)
    ensures Controlled(PumpApply(s, p).control, PumpApply(s, p).registry)
  {
    hide Registrations;
  }

  lemma PumpOutcomes(s: State, p: PumpStep)
    requires PumpEnabled(s, p) && Replies(s.book, s.pump, s.history.replies) && PumpReserved(s)
    requires OnePlace(s.book, Turning(s.control), PumpTask(s.pump))
    requires Outcomes(s.registry.evals, s.history.replies)
    ensures Outcomes(PumpApply(s, p).registry.evals, PumpApply(s, p).history.replies)
  {
    hide Replies, OnePlace;
    if PumpTask(s.pump).Some? && !s.pump.Replied? { UnrepliedTask(s); }
  }

  lemma TakenStream(queue: seq<Task>, scan: Scan)
    requires ScanStream(queue, scan) && queue != [] && scan.taken.None?
    ensures ScanStream(queue[1..], scan.(taken := Some(queue[0])))
  {
  }

  lemma TakenBags(queue: seq<Task>, scan: Scan)
    requires ScanBags(queue, scan) && queue != [] && scan.taken.None?
    ensures ScanBags(queue[1..], scan.(taken := Some(queue[0])))
  {
    assert queue == [queue[0]] + queue[1..];
  }

  /** A receive during a rotation. */
  lemma TakenScanOk(queue: seq<Task>, p: Pump, next: Pump, victim: nat, scan: Scan)
    requires ScanOk(queue, p, victim, scan) && queue != [] && (p.Idle? || p.Draining?)
    requires next == Hand(queue[0]) || next == DrainHand(queue[0])
    ensures ScanOk(queue[1..], next, victim, scan.(taken := Some(queue[0])))
  {
    TakenStream(queue, scan);
    TakenBags(queue, scan);
    hide ScanStream, ScanBags, Matches, Survivors, Victims;
  }

  lemma PumpTakes(s: State, p: PumpStep)
    requires p.Dequeue? || p.DrainTake?
    requires PumpEnabled(s, p) && Scanning(s.book.queue, s.pump, s.control)
    ensures Scanning(PumpApply(s, p).book.queue, PumpApply(s, p).pump, PumpApply(s, p).control)
  {
    hide ScanOk;
    if s.control.Rotating? {
      TakenScanOk(s.book.queue, s.pump, PumpApply(s, p).pump, s.control.victim, s.control.scan);
    }
  }

  /** A task the pump received during a rotation stays in its hand: its next step needs `mu`. */
  lemma PumpHolds(s: State, p: PumpStep)
    requires !p.Dequeue? && !p.DrainTake?
    requires PumpEnabled(s, p) && Scanning(s.book.queue, s.pump, s.control)
    ensures Scanning(PumpApply(s, p).book.queue, PumpApply(s, p).pump, PumpApply(s, p).control)
  {
    hide ScanStream, ScanBags, ScanSorts;
  }

  lemma PumpScanning(s: State, p: PumpStep)
    requires PumpEnabled(s, p) && Scanning(s.book.queue, s.pump, s.control)
    ensures Scanning(PumpApply(s, p).book.queue, PumpApply(s, p).pump, PumpApply(s, p).control)
  {
    hide PumpApply, PumpEnabled, Scanning;
    if p.Dequeue? || p.DrainTake? { PumpTakes(s, p); } else { PumpHolds(s, p); }
  }

  lemma PumpInterruptedEarly(s: State, p: PumpStep, t: nat, k: nat)
    requires BeforeCall(p)
    requires PumpEnabled(s, p) && PumpReserved(s) && PumpOk(s.pump, s.stops)
    requires Commitments(s.book, s.pump, s.history.committed)
    requires OnePlace(s.book, Turning(s.control), PumpTask(s.pump))
    requires Interrupted(s.pump, s.stops, s.history, t, k)
    ensures Interrupted(PumpApply(s, p).pump, PumpApply(s, p).stops, PumpApply(s, p).history, t, k)
  {
    hide TaskCount, OnePlace;
    if p.Commit? { UnrunUncommitted(s); }
  }

  lemma PumpInterruptedLate(s: State, p: PumpStep, t: nat, k: nat)
    requires !BeforeCall(p)
    requires PumpEnabled(s, p) && PumpReserved(s) && PumpOk(s.pump, s.stops)
    requires Commitments(s.book, s.pump, s.history.committed)
    requires OnePlace(s.book, Turning(s.control), PumpTask(s.pump))
    requires Interrupted(s.pump, s.stops, s.history, t, k)
    ensures Interrupted(PumpApply(s, p).pump, PumpApply(s, p).stops, PumpApply(s, p).history, t, k)
  {
    hide TaskCount, OnePlace;
  }

  lemma PumpInterrupted(s: State, p: PumpStep, t: nat, k: nat)
    requires PumpEnabled(s, p) && PumpReserved(s) && PumpOk(s.pump, s.stops)
    requires Commitments(s.book, s.pump, s.history.committed)
    requires OnePlace(s.book, Turning(s.control), PumpTask(s.pump))
    requires Interrupted(s.pump, s.stops, s.history, t, k)
    ensures Interrupted(PumpApply(s, p).pump, PumpApply(s, p).stops, PumpApply(s, p).history, t, k)
  {
    hide PumpApply, PumpEnabled;
    if BeforeCall(p) { PumpInterruptedEarly(s, p, t, k); } else { PumpInterruptedLate(s, p, t, k); }
  }

  lemma PumpVictimEarly(s: State, p: PumpStep, t: nat)
    requires BeforeCall(p)
    requires PumpEnabled(s, p) && PumpReserved(s) && PumpOk(s.pump, s.stops)
    requires OnePlace(s.book, Turning(s.control), PumpTask(s.pump))
    requires Cancelling(s.control, s.book, s.pump, s.stops, s.history, t)
    requires Commitments(s.book, s.pump, s.history.committed)
    ensures var s' := PumpApply(s, p); Cancelling(s'.control, s'.book, s'.pump, s'.stops, s'.history, t)
  {
    hide Interrupted, Commitments, OnePlace;
    if s.control.Fencing? && t < |s.book.tickets| { PumpInterrupted(s, p, t, s.control.interruption); }
    if s.control.Decided? && s.control.receipt.Some? && t < |s.book.tickets| && s.control.answer {
      PumpInterrupted(s, p, t, s.control.receipt.value);
    }
  }

  lemma PumpVictimLate(s: State, p: PumpStep, t: nat)
    requires !BeforeCall(p)
    requires PumpEnabled(s, p) && PumpReserved(s) && PumpOk(s.pump, s.stops)
    requires OnePlace(s.book, Turning(s.control), PumpTask(s.pump))
    requires Cancelling(s.control, s.book, s.pump, s.stops, s.history, t)
    requires Commitments(s.book, s.pump, s.history.committed)
    ensures var s' := PumpApply(s, p); Cancelling(s'.control, s'.book, s'.pump, s'.stops, s'.history, t)
  {
    hide Interrupted, Commitments, OnePlace;
    if s.control.Fencing? && t < |s.book.tickets| { PumpInterrupted(s, p, t, s.control.interruption); }
    if s.control.Decided? && s.control.receipt.Some? && t < |s.book.tickets| && s.control.answer {
      PumpInterrupted(s, p, t, s.control.receipt.value);
    }
  }

  lemma PumpVictim(s: State, p: PumpStep, t: nat)
    requires PumpEnabled(s, p) && PumpReserved(s) && PumpOk(s.pump, s.stops)
    requires OnePlace(s.book, Turning(s.control), PumpTask(s.pump))
    requires Cancelling(s.control, s.book, s.pump, s.stops, s.history, t)
    requires Commitments(s.book, s.pump, s.history.committed)
    ensures var s' := PumpApply(s, p); Cancelling(s'.control, s'.book, s'.pump, s'.stops, s'.history, t)
  {
    hide PumpApply, PumpEnabled;
    if BeforeCall(p) { PumpVictimEarly(s, p, t); } else { PumpVictimLate(s, p, t); }
  }

  /** The pump leaves the registrations and the victim of a cancellation alone. */
  lemma PumpBystander(s: State, p: PumpStep)
    requires PumpEnabled(s, p)
    ensures var s' := PumpApply(s, p);
      && s'.registry == s.registry && s'.control.Free? == s.control.Free?
      && (!s.control.Free? ==> s'.control.victim == s.control.victim)
  {
  }

  lemma PumpCancelling(s: State, p: PumpStep)
    requires PumpEnabled(s, p) && PumpReserved(s) && PumpOk(s.pump, s.stops)
    requires OnePlace(s.book, Turning(s.control), PumpTask(s.pump))
    requires CancellingVictim(s.control, s.registry, s.book, s.pump, s.stops, s.history)
    requires Commitments(s.book, s.pump, s.history.committed)
    ensures var s' := PumpApply(s, p); CancellingVictim(s'.control, s'.registry, s'.book, s'.pump, s'.stops, s'.history)
  {
    PumpBystander(s, p);
    hide Cancelling, Commitments, OnePlace, PumpOk, PumpApply, PumpEnabled;
    if !s.control.Free? && s.control.victim < |s.registry.evals| {
      PumpVictim(s, p, s.registry.evals[s.control.victim].ticket);
    }
  }

  lemma PumpSettlementEarly(s: State, p: PumpStep, t: nat)
    requires BeforeCall(p)
    requires PumpEnabled(s, p) && PumpReserved(s) && PumpOk(s.pump, s.stops)
    requires OnePlace(s.book, Turning(s.control), PumpTask(s.pump))
    requires Settlement(s.book, Turning(s.control), s.pump, s.history, t)
    requires Commitments(s.book, s.pump, s.history.committed)
    ensures var s' := PumpApply(s, p); Settlement(s'.book, Turning(s'.control), s'.pump, s'.history, t)
  {
    hide OnePlace, CommittedOk;
    if s.book.queue != [] { TasksHead(s.book.queue, t); }
    hide TaskCount;
    if p.Commit? { UnrunUncommitted(s); }
  }

  lemma PumpSettlementLate(s: State, p: PumpStep, t: nat)
    requires !BeforeCall(p)
    requires PumpEnabled(s, p) && PumpReserved(s) && PumpOk(s.pump, s.stops)
    requires OnePlace(s.book, Turning(s.control), PumpTask(s.pump))
    requires Settlement(s.book, Turning(s.control), s.pump, s.history, t)
    requires Commitments(s.book, s.pump, s.history.committed)
    ensures var s' := PumpApply(s, p); Settlement(s'.book, Turning(s'.control), s'.pump, s'.history, t)
  {
    hide OnePlace, CommittedOk;
    if s.book.queue != [] { TasksHead(s.book.queue, t); }
    hide TaskCount;
  }

  lemma PumpSettlement(s: State, p: PumpStep, t: nat)
    requires PumpEnabled(s, p) && PumpReserved(s) && PumpOk(s.pump, s.stops)
    requires OnePlace(s.book, Turning(s.control), PumpTask(s.pump))
    requires Settlement(s.book, Turning(s.control), s.pump, s.history, t)
    requires Commitments(s.book, s.pump, s.history.committed)
    ensures var s' := PumpApply(s, p); Settlement(s'.book, Turning(s'.control), s'.pump, s'.history, t)
  {
    hide PumpApply, PumpEnabled;
    if BeforeCall(p) { PumpSettlementEarly(s, p, t); } else { PumpSettlementLate(s, p, t); }
  }

  lemma PumpRevocations(s: State, p: PumpStep)
    requires PumpEnabled(s, p) && PumpReserved(s) && PumpOk(s.pump, s.stops)
    requires OnePlace(s.book, Turning(s.control), PumpTask(s.pump))
    requires Revocations(s.registry, s.book, Turning(s.control), s.pump, s.history)
    requires Commitments(s.book, s.pump, s.history.committed)
    ensures var s' := PumpApply(s, p); Revocations(s'.registry, s'.book, Turning(s'.control), s'.pump, s'.history)
  {
    hide Settlement, PumpOk, OnePlace, Commitments, PumpReserved;
    var s' := PumpApply(s, p);
    forall e | e in s'.registry.revoked && e < |s'.registry.evals|
      ensures Settlement(s'.book, Turning(s'.control), s'.pump, s'.history, s'.registry.evals[e].ticket)
    {
      PumpSettlement(s, p, s.registry.evals[e].ticket);
    }
  }

  lemma PumpKeeps(s: State, p: PumpStep)
    requires Inv(s) && PumpEnabled(s, p)
    ensures Inv(PumpApply(s, p))
  {
    assert OnePlace(s.book, Turning(s.control), PumpTask(s.pump)) && PumpReserved(s) by {
      hide Machine, Service, Attribution, TaskEpochs, Epochs;
    }
    hide Balanced, Attribution, TaskEpochs, Epochs, Outdated, PumpOk, Recoveries, Generations, Replies, Commitments,
         Completions, Troubles, Results, Registrations, Outcomes, Controlled, Scanning, CancellingVictim,
         Revocations, PumpApply, PumpEnabled, OnePlace, PumpReserved;
    PumpBalanced(s, p); PumpAttribution(s, p); PumpTaskEpochs(s, p); PumpEpochs(s, p); PumpOutdated(s, p);
    PumpPumpOk(s, p); PumpRecoveries(s, p); PumpGenerations(s, p);
    PumpReplies(s, p); PumpCommitments(s, p); PumpCompletions(s, p); PumpTroubles(s, p); PumpResults(s, p);
    PumpServer(s, p); PumpOutcomes(s, p); PumpScanning(s, p); PumpCancelling(s, p); PumpRevocations(s, p);
  }
}
