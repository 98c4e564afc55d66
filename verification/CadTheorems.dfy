/** What the CAD protocol guarantees on every run. A run is a legal sequence of steps from
    the initial state; `a`, `a + b` and `a + b + c` are its prefixes. */
module CadTheorems {
  import opened Common
  import opened CadProtocol
  import opened CadAccounts
  import opened CadInvariant
  import opened CadPump
  import opened CadCancel
  import opened CadCallers

  // ---------------------------------------------------------------- runs

  lemma StepKeeps(s: State, step: Step)
    requires Inv(s) && Enabled(s, step)
    ensures Inv(Apply(s, step))
  {
    hide Inv, EnvApply, CallerApply, RegistryApply, CancelApply, PumpApply, RecoveryApply, CallerEnabled,
         RegistryEnabled, CancelEnabled, PumpEnabled, RecoveryEnabled;
    match step {
      case Env(e) => EnvKeeps(s, e);
      case Caller(c) => CallerKeeps(s, c);
      case Registering(r) => RegistryKeeps(s, r);
      case Cancel(k) => CancelKeeps(s, k);
      case Pumping(p) => PumpKeeps(s, p);
      case Recovery(i, r) => RecoveryKeeps(s, i, r);
    }
  }

  /** Later than: what no step undoes, and what a new commitment must respect. */
  ghost predicate Onward(s: State, s': State) {
    && s.fence.epoch <= s'.fence.epoch && (s.fence.failed ==> s'.fence.failed)
    && |s.book.tickets| <= |s'.book.tickets|
    && (forall t :: 0 <= t < |s.book.tickets| ==>
          && s.book.tickets[t].epoch <= s'.book.tickets[t].epoch
          && (s.book.tickets[t].cancelled ==> s'.book.tickets[t].cancelled))
    && (forall t :: t in s.history.admitted ==>
          t in s'.history.admitted && s'.history.admitted[t] == s.history.admitted[t])
    && (forall t :: t in s.history.committed ==>
          t in s'.history.committed && s'.history.committed[t] == s.history.committed[t])
    && (forall t :: t in s'.history.committed && t !in s.history.committed ==>
          && s.fence.epoch <= s'.history.committed[t].epoch && !s.fence.failed
          && (t < |s.book.tickets| ==> !s.book.tickets[t].cancelled))
    && s.registry.revoked <= s'.registry.revoked && s.registry.published <= s'.registry.published
  }

  lemma QuietOnward(s: State, s': State)
    requires s'.fence.epoch == s.fence.epoch && (s.fence.failed ==> s'.fence.failed)
    requires |s'.book.tickets| == |s.book.tickets|
    requires forall t :: 0 <= t < |s.book.tickets| ==>
      s'.book.tickets[t].epoch == s.book.tickets[t].epoch && s'.book.tickets[t].cancelled == s.book.tickets[t].cancelled
    requires s'.history.admitted == s.history.admitted && s'.history.committed == s.history.committed
    requires s'.registry == s.registry
    ensures Onward(s, s')
  {
  }

  lemma CommitOnward(s: State)
    requires PumpEnabled(s, Commit) && !s.fence.failed && s.pump.task.ticket !in s.history.committed
    ensures Onward(s, PumpApply(s, Commit))
  {
  }

  lemma PumpQuiet(s: State, p: PumpStep)
    requires PumpEnabled(s, p) && !p.Commit?
    ensures Onward(s, PumpApply(s, p))
  {
    hide Onward;
    QuietOnward(s, PumpApply(s, p));
  }

  lemma PumpOnward(s: State, p: PumpStep)
    requires Inv(s) && PumpEnabled(s, p)
    ensures Onward(s, PumpApply(s, p))
  {
    hide Inv, Onward, PumpApply;
    if p.Commit? {
      Parts(s);
      hide OnePlace, Commitments;
      UnrunUncommitted(s);
      CommitOnward(s);
    } else {
      PumpQuiet(s, p);
    }
  }

  lemma CancelOnward(s: State, k: CancelStep)
    requires CancelEnabled(s, k)
    ensures Onward(s, CancelApply(s, k))
  {
  }

  lemma SendOnward(s: State, t: nat, ctx: Ctx, verb: Verb, size: nat)
    requires Epochs(s.book.tickets, s.fence, s.history) && t < |s.book.tickets| && s.book.tickets[t].owned
    ensures Onward(s, Send(s, t, ctx, verb, size))
  {
  }

  lemma CallerOnward(s: State, c: CallerStep)
    requires Epochs(s.book.tickets, s.fence, s.history) && CallerEnabled(s, c)
    ensures Onward(s, CallerApply(s, c))
  {
    if c.Admit? { SendOnward(s, c.ticket, c.ctx, c.verb, c.size); }
  }

  lemma RegistryOnward(s: State, r: RegistryStep)
    requires Epochs(s.book.tickets, s.fence, s.history) && RegistryEnabled(s, r)
    ensures Onward(s, RegistryApply(s, r))
  {
    if r.EvalAdmit? { SendOnward(s, s.registry.evals[r.eval].ticket, Derived(r.eval), Evaluate, r.size); }
  }

  lemma RecoveryOnward(s: State, i: nat, r: RecoveryStep)
    requires i < |s.stops| && RecoveryEnabled(s, i, r)
    ensures Onward(s, RecoveryApply(s, i, r))
  {
  }

  lemma StepOnward(s: State, step: Step)
    requires Inv(s) && Enabled(s, step)
    ensures Onward(s, Apply(s, step))
  {
    hide Inv, Onward, CallerApply, RegistryApply, CancelApply, PumpApply, RecoveryApply, CallerEnabled,
         RegistryEnabled, CancelEnabled, PumpEnabled, RecoveryEnabled;
    Parts(s);
    match step {
      case Env(e) => EnvOnward(s, EnvApply(s.world, e));
      case Caller(c) => CallerOnward(s, c);
      case Registering(r) => RegistryOnward(s, r);
      case Cancel(k) => CancelOnward(s, k);
      case Pumping(p) => PumpOnward(s, p);
      case Recovery(i, r) => RecoveryOnward(s, i, r);
    }
  }

  lemma EnvOnward(s: State, w: World)
    ensures Onward(s, s.(world := w))
  {
  }

  lemma OnwardTransitive(s: State, s': State, s'': State)
    requires Onward(s, s') && Onward(s', s'')
    ensures Onward(s, s'')
  {
  }

  lemma {:induction false} RunOnward(s: State, run: seq<Step>)
    requires Inv(s) && Legal(s, run)
    ensures Inv(After(s, run)) && Onward(s, After(s, run))
    decreases |run|
  {
    hide Inv, Apply, Enabled;
    if run == [] {
    } else {
      var s' := Apply(s, run[0]);
      StepKeeps(s, run[0]);
      StepOnward(s, run[0]);
      hide Onward;
      RunOnward(s', run[1..]);
      OnwardTransitive(s, s', After(s', run[1..]));
    }
  }

  lemma {:induction false} RunConcat(s: State, a: seq<Step>, b: seq<Step>)
    requires Legal(s, a) && Legal(After(s, a), b)
    ensures Legal(s, a + b) && After(s, a + b) == After(After(s, a), b)
    decreases |a|
  {
    hide Apply, Enabled;
    if a == [] {
      assert a + b == b;
    } else {
      assert (a + b)[1..] == a[1..] + b;
      RunConcat(Apply(s, a[0]), a[1..], b);
    }
  }

  ghost predicate Later(s: State, s': State) {
    exists run :: Legal(s, run) && After(s, run) == s'
  }

  ghost predicate Reachable(s: State) {
    Later(Init(), s)
  }

  lemma ReachableInv(s: State)
    requires Reachable(s)
    ensures Inv(s)
  {
    hide Inv, Onward, Legal, After, Init;
    InitInv();
    var run :| Legal(Init(), run) && After(Init(), run) == s;
    RunOnward(Init(), run);
  }

  lemma LaterInv(s: State, s': State)
    requires Reachable(s) && Later(s, s')
    ensures Inv(s) && Inv(s') && Onward(s, s')
  {
    hide Inv, Onward, Legal, After, Reachable;
    ReachableInv(s);
    var run :| Legal(s, run) && After(s, run) == s';
    RunOnward(s, run);
  }

  lemma LaterTransitive(s: State, s': State, s'': State)
    requires Later(s, s') && Later(s', s'')
    ensures Later(s, s'')
  {
    hide Legal, After;
    var a :| Legal(s, a) && After(s, a) == s';
    var b :| Legal(s', b) && After(s', b) == s'';
    RunConcat(s, a, b);
  }

  lemma LaterReachable(s: State, s': State)
    requires Reachable(s) && Later(s, s')
    ensures Reachable(s')
  {
    hide Later, Init;
    LaterTransitive(Init(), s, s');
  }

  // ---------------------------------------------------------------- first wins

  ghost predicate Revoked(s: State, e: nat) {
    e in s.registry.revoked && e < |s.registry.evals| && s.registry.evals[e].ticket < |s.book.tickets|
  }

  /** Once a cancel answered true for an evaluation, or a newer registration superseded it,
      it never publishes success: not before the answer, and on no continuation. */
  lemma RevokedNeverPublishes(s: State, s': State, e: nat)
    requires Reachable(s) && Later(s, s') && e in s.registry.revoked
    ensures e !in s.registry.published && e !in s'.registry.published
  {
    hide Inv, Later, Reachable;
    LaterInv(s, s');
    Parts(s);
    Parts(s');
  }

  /** What became of its reservation, wherever the task was: it completed first; or its
      ticket is cancelled, its task is neither queued nor being rotated, and if a generation
      ran it, that generation is in trouble or being interrupted. */
  lemma RevokedIsSettled(s: State, e: nat)
    requires Reachable(s) && Revoked(s, e)
    ensures Settlement(s.book, Turning(s.control), s.pump, s.history, s.registry.evals[e].ticket)
  {
    hide Inv, Reachable, Settlement;
    ReachableInv(s);
    Parts(s);
  }

  /** A cancelled task that no generation has taken yet is never committed to one: reserved,
      queued, in the pump's hand or starting. */
  lemma CancelledNeverCommits(s: State, s': State, t: nat)
    requires Reachable(s) && Later(s, s') && t < |s.book.tickets| && s.book.tickets[t].cancelled
    requires t !in s.history.committed
    ensures t !in s'.history.committed
  {
    hide Inv, Later, Reachable;
    LaterInv(s, s');
  }

  /** The answer of a cancellation: false exactly when the evaluation's reservation completed
      first. When it is true and nothing was interrupted, no generation ever took the task;
      otherwise the generation that did is the interrupted one. */
  lemma AnswerIsFirstWins(s: State)
    requires Reachable(s) && s.control.Decided?
    ensures s.control.victim < |s.registry.evals| && OwnsKey(s.registry, s.control.victim)
    ensures s.registry.evals[s.control.victim].ticket < |s.book.tickets|
    ensures var t := s.registry.evals[s.control.victim].ticket;
      if s.control.answer then
        s.book.tickets[t].cancelled &&
        match s.control.receipt
        case None => t !in s.history.committed
        case Some(k) => k < |s.stops| && t in s.history.committed && s.history.committed[t].gen == s.stops[k].gen
      else s.book.tickets[t].completed
  {
    hide Reachable, Balanced, TaskEpochs, Epochs, Machine, Registrations, Outcomes, ScanOk, Revocations, AllAttributed;
    ReachableInv(s);
  }

  /** A cancel control that answers false leaves every registration and context untouched;
      one that answers true removes exactly its own. */
  lemma CancelTouchesItsOwn(s: State)
    requires Reachable(s) && Enabled(s, Registering(Conclude)) && s.control.why.CancelRequest?
    ensures var s', v := Apply(s, Registering(Conclude)), s.control.victim;
      if s.control.answer then
        && s'.registry.inflight == s.registry.inflight - {s.registry.evals[v].key}
        && (forall e :: 0 <= e < |s.registry.evals| && e != v && OwnsKey(s.registry, e) ==> OwnsKey(s'.registry, e))
        && v in s'.registry.revoked
      else s'.registry == s.registry && s'.world == s.world
  {
    hide Inv, Reachable;
    ReachableInv(s);
    assert OwnsKey(s.registry, s.control.victim) by { AnswerIsFirstWins(s); }
  }

  /** A newer evaluation takes the place of the one it supersedes, whatever the cancellation answered:
      it owns their key, the older one is revoked and its context has ended; no other registration
      is touched. */
  lemma SupersedeReplaces(s: State)
    requires Reachable(s) && Enabled(s, Registering(Conclude)) && s.control.why.Supersede?
    ensures var s', v, newer := Apply(s, Registering(Conclude)), s.control.victim, s.control.why.newer;
      && newer < |s'.registry.evals| && OwnsKey(s'.registry, newer) && s'.registry.evals[newer].phase.Registered?
      && v in s'.registry.revoked && Cancelled(s'.world, Derived(v)) && v !in s'.registry.published
      && (forall e :: 0 <= e < |s.registry.evals| && e != v && e != newer && OwnsKey(s.registry, e) ==>
            OwnsKey(s'.registry, e))
  {
    hide Inv, Reachable;
    ReachableInv(s);
    Parts(s);
    assert OwnsKey(s.registry, s.control.victim) by { AnswerIsFirstWins(s); }
    assert Controlled(s.control, s.registry) by { ControlHeld(s); }
  }

  lemma ControlHeld(s: State)
    requires Inv(s)
    ensures Controlled(s.control, s.registry)
  {
    hide Accounts, Machine, Registrations, Outcomes, Scanning, CancellingVictim, Revocations, Controlled;
  }

  /** Cleaning up an evaluation never removes a newer registration. */
  lemma CleanupKeepsNewer(s: State, e: nat, newer: nat)
    requires Reachable(s) && Enabled(s, Registering(End(e)))
    requires newer != e && newer < |s.registry.evals| && OwnsKey(s.registry, newer)
    ensures OwnsKey(Apply(s, Registering(End(e))).registry, newer)
    ensures e !in Apply(s, Registering(End(e))).registry.inflight.Values
  {
    hide Inv, Reachable;
    ReachableInv(s);
    Parts(s);
    var s' := Apply(s, Registering(End(e)));
    if e in s'.registry.inflight.Values {
      var key :| key in s'.registry.inflight && s'.registry.inflight[key] == e;
    }
  }

  /** A published success came from a generation the task was committed to and that saw no
      interruption, crash or start failure under it. */
  lemma PublishedIsGenuine(s: State, e: nat)
    requires Reachable(s) && e in s.registry.published
    ensures e < |s.registry.evals|
    ensures var t := s.registry.evals[e].ticket; t in s.history.committed && t !in s.history.troubled
  {
    hide Inv, Reachable;
    ReachableInv(s);
    Parts(s);
  }

  // ---------------------------------------------------------------- epoch fence

  /** A task admitted before an interruption and not committed by then is never committed. */
  lemma FenceHolds(s: State, s': State, s'': State, t: nat)
    requires Reachable(s) && Later(s, s') && Later(s', s'')
    requires t in s.history.admitted && s.fence.epoch < s'.fence.epoch && t !in s'.history.committed
    ensures t !in s''.history.committed
  {
    hide Inv, Later, Reachable;
    LaterTransitive(s, s', s'');
    LaterInv(s, s');
    LaterInv(s, s'');
    assert Onward(s', s'') by { LaterReachable(s, s'); LaterInv(s', s''); }
    Parts(s);
    Parts(s'');
  }

  /** Every commitment is made in the epoch of admission; for a captured `epochCaller` that
      is the epoch it captured, and no reservation of such a caller is ever in another. */
  lemma CommittedInItsEpoch(s: State, t: nat)
    requires Reachable(s) && t in s.history.committed
    ensures t < |s.book.tickets| && t in s.history.admitted
    ensures s.history.committed[t].epoch == s.history.admitted[t].epoch
    ensures var c := s.book.tickets[t].captured;
      c != 0 ==> s.history.committed[t].epoch == c == s.book.tickets[t].epoch
  {
    hide Inv, Reachable;
    ReachableInv(s);
    Parts(s);
  }

  /** A task being started is in the current epoch: only a committed generation can be
      interrupted, so no fence falls between taking a task up and committing it. And a recorded
      refusal for an ended context names one that has ended. */
  ghost predicate Current(s: State) {
    && (s.pump.Starting? || s.pump.Started? ==> s.pump.task.epoch == s.fence.epoch)
    && forall t :: t in s.history.refused && s.history.refused[t].ended.Some? ==>
         Cancelled(s.world, s.history.refused[t].ended.value)
  }

  lemma PumpCurrent(s: State, p: PumpStep)
    requires Current(s) && PumpEnabled(s, p)
    ensures Current(PumpApply(s, p))
  {
    assert PumpApply(s, p).world.down == s.world.down && PumpApply(s, p).world.ended == s.world.ended;
  }

  lemma StepCurrent(s: State, step: Step)
    requires Current(s) && Enabled(s, step)
    ensures Current(Apply(s, step))
  {
    hide PumpEnabled, PumpApply, RecoveryEnabled;
    if step.Pumping? { PumpCurrent(s, step.pumping); }
  }

  lemma {:induction false} RunCurrent(s: State, run: seq<Step>)
    requires Current(s) && Legal(s, run)
    ensures Current(After(s, run))
    decreases |run|
  {
    hide Current, Enabled, Apply;
    if run != [] {
      StepCurrent(s, run[0]);
      RunCurrent(Apply(s, run[0]), run[1..]);
    }
  }

  lemma ReachableCurrent(s: State)
    requires Reachable(s)
    ensures Current(s)
  {
    hide Legal, After;
    var run :| Legal(Init(), run) && After(Init(), run) == s;
    RunCurrent(Init(), run);
  }

  /** A task that is being started is never fenced: at the commit it is refused only for its own
      cancellation or its own ended context. */
  lemma StartingIsNeverFenced(s: State)
    requires Reachable(s) && PumpEnabled(s, Commit)
    ensures s.pump.task.epoch == s.fence.epoch
    ensures MayCommit(s, s.pump.task)
         <==> !s.book.tickets[s.pump.task.ticket].cancelled && !Cancelled(s.world, s.pump.task.ctx)
  {
    hide Reachable;
    ReachableCurrent(s);
  }

  /** The other direction: the runner turns an admitted task away (in the pump's hand, at the
      commit, in a rotation or behind a fence) only because of an interruption after its
      admission, the task's own cancellation, a failed worker or the end of its own context. */
  lemma RefusedForAReason(s: State, t: nat)
    requires Reachable(s) && t in s.history.refused
    ensures t < |s.book.tickets| && t in s.history.admitted
    ensures var task, why := s.history.admitted[t], s.history.refused[t];
      || task.epoch < why.epoch || s.book.tickets[t].cancelled || s.fence.failed
      || (why.ended == Some(task.ctx) && Cancelled(s.world, task.ctx))
  {
    hide Inv, Reachable, Cancelled;
    ReachableInv(s);
    ReachableCurrent(s);
    Parts(s);
  }

  /** A superseding evaluation that has rebound its ticket is not fenced out by the
      interruption it caused: until a later one, its epoch is the current one. */
  lemma RebindingSurvives(s: State, s': State, e: nat)
    requires Reachable(s) && Enabled(s, Registering(Bind(e)))
    requires Later(Apply(s, Registering(Bind(e))), s') && s'.fence.epoch == s.fence.epoch
    ensures s.registry.evals[e].ticket < |s'.book.tickets|
    ensures s'.book.tickets[s.registry.evals[e].ticket].epoch == s'.fence.epoch
  {
    hide Inv, Later, Reachable;
    var bound := Apply(s, Registering(Bind(e)));
    StepReachable(s, Registering(Bind(e)));
    LaterInv(bound, s');
    Parts(s');
  }

  lemma StepReachable(s: State, step: Step)
    requires Reachable(s) && Enabled(s, step)
    ensures Reachable(Apply(s, step))
  {
    hide Enabled, Apply, Init, Later;
    var s' := Apply(s, step);
    assert Later(s, s') by { StepLater(s, step); }
    LaterTransitive(Init(), s, s');
  }

  lemma StepLater(s: State, step: Step)
    requires Enabled(s, step)
    ensures Later(s, Apply(s, step))
  {
    hide Enabled, Apply;
    assert [step][1..] == [];
    assert Legal(Apply(s, step), []);
    assert Legal(s, [step]) && After(s, [step]) == Apply(s, step);
  }

  // ---------------------------------------------------------------- process ownership

  ghost predicate Live(s: State, k: nat) {
    k < |s.stops| && !s.stops[k].phase.Closed?
  }

  /** At most one recovery is live, and while it is, the pump neither starts nor retires a
      worker: it is calling, or waiting for that very recovery. */
  lemma OneOwner(s: State, j: nat, k: nat)
    requires Reachable(s) && Live(s, j) && Live(s, k)
    ensures j == k
    ensures !s.pump.Starting? && !s.pump.Retiring? && PumpStop(s.pump) == Some(k)
  {
    hide Inv, Reachable;
    ReachableInv(s);
    Parts(s);
  }

  /** No generation is interrupted twice, so none gets two replacements. */
  lemma InterruptedOnce(s: State, j: nat, k: nat)
    requires Reachable(s) && j < k < |s.stops|
    ensures s.stops[j].gen != s.stops[k].gen
  {
    hide Inv, Reachable;
    ReachableInv(s);
    Parts(s);
  }

  function Rank(p: Phase): nat {
    match p
    case Fresh => 0
    case RetiringOld => 1
    case RetiredOld(_) => 2
    case StartingNew => 3
    case StartedNew(_, _) => 4
    case Closing => 5
    case Closed => 6
  }

  ghost predicate Forward(stops: seq<Stop>, stops': seq<Stop>) {
    && |stops| <= |stops'|
    && (forall k :: 0 <= k < |stops| ==>
          stops'[k].gen == stops[k].gen && Rank(stops[k].phase) <= Rank(stops'[k].phase))
  }

  lemma PumpForward(s: State, p: PumpStep)
    requires PumpEnabled(s, p)
    ensures PumpApply(s, p).stops == s.stops
  {
  }

  lemma CancelForward(s: State, k: CancelStep)
    requires CancelEnabled(s, k) && Recoveries(s.pump, s.stops, s.control, s.fence.failed, s.world.retired)
    ensures Forward(s.stops, CancelApply(s, k).stops)
  {
  }

  lemma RecoveryForward(s: State, i: nat, r: RecoveryStep)
    requires i < |s.stops| && RecoveryEnabled(s, i, r)
    ensures Forward(s.stops, RecoveryApply(s, i, r).stops)
    ensures Rank(s.stops[i].phase) < Rank(RecoveryApply(s, i, r).stops[i].phase)
  {
  }

  /** A recovery only moves forward, so it starts at most one replacement. */
  lemma RecoveryMovesForward(s: State, step: Step)
    requires Reachable(s) && Enabled(s, step)
    ensures Forward(s.stops, Apply(s, step).stops)
    ensures step.Recovery? ==>
      step.index < |s.stops| && Rank(s.stops[step.index].phase) < Rank(Apply(s, step).stops[step.index].phase)
  {
    hide Inv, Reachable, PumpEnabled, PumpApply, CancelEnabled, CancelApply, RecoveryEnabled, RecoveryApply, Rank;
    ReachableInv(s);
    Parts(s);
    hide OnePlace, Capacity, Epochs, PumpOk, Recoveries, Generations, Replies, Commitments, Troubles, Results,
         Registrations, Outcomes, Scanning, CancellingVictim, Revocations;
    match step {
      case Pumping(p) => PumpForward(s, p);
      case Cancel(k) => CancelForward(s, k);
      case Recovery(i, r) => RecoveryForward(s, i, r);
      case _ =>
    }
  }

  /** A replacement is only started once the interrupted generation has retired. */
  lemma ReplacementFollowsRetirement(s: State, k: nat)
    requires Reachable(s) && k < |s.stops| && (s.stops[k].phase.StartingNew? || s.stops[k].phase.StartedNew?)
    ensures s.stops[k].gen in s.world.retired
  {
    hide Inv, Reachable;
    ReachableInv(s);
    Parts(s);
  }

  /** A reservation whose generation was interrupted, crashed or failed to start is given
      back only after that generation retired; otherwise it is held or still with the pump. */
  lemma QuotaOutlivesTheGeneration(s: State, t: nat)
    requires Reachable(s) && t in s.history.troubled && s.book.released[t] > 0
    ensures s.history.troubled[t] in s.world.retired
  {
    hide Inv, Reachable;
    ReachableInv(s);
    Parts(s);
    assert TroubledOk(s.book, s.pump, s.stops, s.world.retired, t, s.history.troubled[t]);
    assert Occurrences(s.book, Turning(s.control), PumpTask(s.pump), t) == 1;
  }

  /** After a failure no task is committed any more. */
  lemma FailureIsFinal(s: State, s': State, t: nat)
    requires Reachable(s) && Later(s, s') && s.fence.failed && t !in s.history.committed
    ensures s'.fence.failed && t !in s'.history.committed
  {
    hide Inv, Later, Reachable;
    LaterInv(s, s');
  }

  // ---------------------------------------------------------------- capacity

  /** The accounts: both counters are the totals over owned tickets, queued tasks, the tasks
      in the rotation's and the pump's hands and held reservations, within both caps; and
      every reservation is in exactly one place, so it is released at most once. */
  lemma CapacityConserved(s: State)
    requires Reachable(s)
    ensures Capacity(s.book, Turning(s.control), PumpTask(s.pump))
    ensures forall t :: 0 <= t < |s.book.tickets| ==>
      Occurrences(s.book, Turning(s.control), PumpTask(s.pump), t) == 1 && s.book.released[t] <= 1
  {
    hide Inv, Reachable, Capacity;
    ReachableInv(s);
    Parts(s);
    forall t | 0 <= t < |s.book.tickets|
      ensures Occurrences(s.book, Turning(s.control), PumpTask(s.pump), t) == 1 && s.book.released[t] <= 1
    {
      assert Occurrences(s.book, Turning(s.control), PumpTask(s.pump), t) == 1;
    }
  }

  ghost predicate SendsToQueue(s: State, step: Step)
    requires Enabled(s, step)
  {
    |Apply(s, step).book.queue| > |s.book.queue|
  }

  lemma {:induction false} OwnedSome(ts: seq<Ticket>, t: nat)
    requires t < |ts| && ts[t].owned
    ensures OwnedCount(ts) >= 1
  {
    if t < |ts| - 1 { OwnedSome(ts[..|ts| - 1], t); }
  }

  /** Who sends to the queue: a caller with its own ticket, or the rotation with the task in its hand. */
  lemma CallerSends(s: State, c: CallerStep)
    requires CallerEnabled(s, c) && |CallerApply(s, c).book.queue| > |s.book.queue|
    ensures OwnedCount(s.book.tickets) >= 1
  {
    hide Cancelled, OwnedCount;
    if c.Admit? { OwnedSome(s.book.tickets, c.ticket); }
  }

  lemma RegistrySends(s: State, r: RegistryStep)
    requires RegistryEnabled(s, r) && |RegistryApply(s, r).book.queue| > |s.book.queue|
    ensures OwnedCount(s.book.tickets) >= 1
  {
    hide Cancelled, OwnedCount;
    if r.EvalAdmit? { OwnedSome(s.book.tickets, s.registry.evals[r.eval].ticket); }
  }

  lemma CancelSends(s: State, k: CancelStep)
    requires CancelEnabled(s, k) && |CancelApply(s, k).book.queue| > |s.book.queue|
    ensures Turning(s.control).Some?
  {
  }

  /** The buffered queue has room whenever a task is sent to it, so no send under `mu` can
      block. */
  lemma QueueSendNeverBlocks(s: State, step: Step)
    requires Reachable(s) && Enabled(s, step) && SendsToQueue(s, step)
    ensures |s.book.queue| < MAX_WORKER_TASKS
  {
    hide Inv, Reachable;
    ReachableInv(s);
    Parts(s);
    hide OnePlace, Epochs, PumpOk, Recoveries, Generations, Replies, Commitments, Troubles, Results, Registrations,
         Outcomes, Scanning, CancellingVictim, Revocations, CallerApply, RegistryApply, CancelApply, PumpApply,
         RecoveryApply, CallerEnabled, RegistryEnabled, CancelEnabled, PumpEnabled, RecoveryEnabled, EnvApply;
    match step {
      case Env(e) =>
      case Caller(c) => CallerSends(s, c);
      case Registering(r) => RegistrySends(s, r);
      case Cancel(k) => CancelSends(s, k);
      case Pumping(p) => PumpNeverSends(s, p);
      case Recovery(i, r) => RecoveryNeverSends(s, i, r);
    }
  }

  lemma RecoveryNeverSends(s: State, i: nat, r: RecoveryStep)
    requires i < |s.stops| && RecoveryEnabled(s, i, r)
    ensures RecoveryApply(s, i, r).book == s.book
  {
  }

  lemma PumpNeverSends(s: State, p: PumpStep)
    requires PumpEnabled(s, p)
    ensures |PumpApply(s, p).book.queue| <= |s.book.queue|
  {
  }

  /** The reservation a step answers, if any. */
  function Answers(s: State, step: Step): Option<nat>
    requires Enabled(s, step)
  {
    match step
    case Cancel(Put) =>
      if Matches(s.control.scan.hand.value, s.control.victim) then Some(s.control.scan.hand.value.ticket) else None
    case Cancel(FenceDrop) => Some(s.book.queue[0].ticket)
    case Pumping(Refuse) => Some(s.pump.task.ticket)
    case Pumping(Reply(_)) => Some(s.pump.task.ticket)
    case _ => None
  }

  /** A reply channel holds one reply, and no task is answered twice, so no reply blocks. */
  lemma ReplyNeverBlocks(s: State, step: Step)
    requires Reachable(s) && Enabled(s, step) && Answers(s, step).Some?
    ensures Answers(s, step).value !in s.history.replies
    ensures Answers(s, step).value in Apply(s, step).history.replies
  {
    hide Accounts, Machine, Service, Reachable;
    ReachableInv(s);
    match step {
      case Cancel(Put) => HandWaiting(s);
      case Cancel(FenceDrop) => HeadWaiting(s);
      case Pumping(p) => Parts(s); UnrepliedTask(s);
    }
  }

  // ---------------------------------------------------------------- rotation

  /** When the rotation ends, however the pump interfered: what was queued at entry has been
      dropped, is still queued, or was received by the pump; exactly the victim's evaluations
      were dropped, and none is left in the queue. */
  lemma RotationConserves(s: State)
    requires Reachable(s) && Enabled(s, Cancel(Decide))
    ensures var scan, v := s.control.scan, s.control.victim;
      && multiset(scan.entry) == multiset(scan.dropped) + multiset(s.book.queue) + Bag(scan.taken)
      && (forall i :: 0 <= i < |scan.dropped| ==> Matches(scan.dropped[i], v))
      && (forall i :: 0 <= i < |s.book.queue| ==> !Matches(s.book.queue[i], v))
  {
    hide Inv, Reachable;
    ReachableInv(s);
    Parts(s);
    RotationDone(s.book.queue, s.pump, s.control.victim, s.control.scan);
  }

  /** While a task is active the pump cannot receive, so the rotation is undisturbed: the
      queue is the filtered one, in its order. */
  lemma RotationIsFifoWhileActive(s: State)
    requires Reachable(s) && Enabled(s, Cancel(Decide)) && Active(s.pump).Some?
    ensures s.book.queue == Survivors(s.control.scan.entry, s.control.victim)
    ensures s.control.scan.dropped == Victims(s.control.scan.entry, s.control.victim)
  {
    hide Inv, Reachable;
    ReachableInv(s);
    Parts(s);
    RotationDone(s.book.queue, s.pump, s.control.victim, s.control.scan);
  }
}
