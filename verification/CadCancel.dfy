/** Every step of `cancelEvaluation` keeps the invariant. */
module CadCancel {
  import opened Common
  import opened CadProtocol
  import opened CadAccounts
  import opened CadInvariant
  import opened CadFrames

  // ---------------------------------------------------------------- the rotation by itself

  /** When the scan ends, the queue is what it put back and nothing is left of the entry queue. */
  lemma RotationStream(queue: seq<Task>, scan: Scan)
    requires ScanStream(queue, scan) && scan.hand.None? && (scan.rounds == |scan.entry| || queue == [])
    ensures |scan.entry| <= Removed(scan) <= |scan.entry| + |scan.kept|
    ensures queue == scan.kept[Removed(scan) - |scan.entry|..]
    ensures scan.taken.None? ==> scan.rounds == |scan.entry| && queue == scan.kept
  {
    var n, k := |scan.entry|, Removed(scan);
    assert k >= n;
    assert queue == scan.kept[k - n..];
  }

  lemma RotationSpares(queue: seq<Task>, victim: nat, scan: Scan, from: nat)
    requires ScanSorts(victim, scan) && from <= |scan.kept| && queue == scan.kept[from..]
    ensures forall i :: 0 <= i < |queue| ==> !Matches(queue[i], victim)
  {
    hide Matches, Survivors, Victims;
    forall i | 0 <= i < |queue| ensures !Matches(queue[i], victim) {
      assert queue[i] == scan.kept[from + i];
    }
  }

  lemma RotationFilters(queue: seq<Task>, victim: nat, scan: Scan)
    requires ScanSorts(victim, scan) && scan.taken.None? && scan.rounds == |scan.entry| && queue == scan.kept
    ensures queue == Survivors(scan.entry, victim) && scan.dropped == Victims(scan.entry, victim)
  {
    hide Matches, Survivors, Victims;
    assert scan.entry[..scan.rounds] == scan.entry;
  }

  lemma RotationBags(queue: seq<Task>, scan: Scan)
    requires ScanBags(queue, scan) && scan.hand.None?
    ensures multiset(scan.entry) == multiset(scan.dropped) + multiset(queue) + Bag(scan.taken)
  {
  }

  /** Every task now queued has been examined or received meanwhile: all are survivors. */
  lemma RotationDone(queue: seq<Task>, p: Pump, victim: nat, scan: Scan)
    requires ScanOk(queue, p, victim, scan) && scan.hand.None?
    requires scan.rounds == |scan.entry| || queue == []
    ensures forall i :: 0 <= i < |queue| ==> !Matches(queue[i], victim)
    ensures multiset(scan.entry) == multiset(scan.dropped) + multiset(queue) + Bag(scan.taken)
    ensures scan.taken.None? ==> queue == Survivors(scan.entry, victim) && scan.dropped == Victims(scan.entry, victim)
  {
    hide Matches, Survivors, Victims, ScanStream, ScanBags, ScanSorts, Bag, Removed;
    RotationStream(queue, scan);
    RotationBags(queue, scan);
    RotationSpares(queue, victim, scan, Removed(scan) - |scan.entry|);
    if scan.taken.None? {
      RotationFilters(queue, victim, scan);
    }
  }

  lemma EnterScanOk(queue: seq<Task>, p: Pump, victim: nat)
    ensures ScanOk(queue, p, victim, Scan(queue, 0, None, [], [], None))
  {
    assert queue + [] == queue;
  }

  lemma BagHead(queue: seq<Task>)
    requires queue != []
    ensures multiset(queue) == multiset{queue[0]} + multiset(queue[1..])
  {
    assert queue == [queue[0]] + queue[1..];
  }

  lemma StreamHead(queue: seq<Task>, victim: nat, scan: Scan)
    requires ScanStream(queue, scan) && ScanSorts(victim, scan)
    requires queue != [] && scan.hand.None? && scan.rounds < |scan.entry|
    ensures ScanStream(queue[1..], scan.(hand := Some(queue[0])))
    ensures scan.taken.None? ==> queue[0] == scan.entry[scan.rounds]
  {
  }

  lemma TakeScanOk(queue: seq<Task>, p: Pump, victim: nat, scan: Scan)
    requires ScanOk(queue, p, victim, scan) && queue != [] && scan.hand.None? && scan.rounds < |scan.entry|
    ensures ScanOk(queue[1..], p, victim, scan.(hand := Some(queue[0])))
  {
    hide ScanStream;
    BagHead(queue);
    StreamHead(queue, victim, scan);
  }

  lemma FilterNext(q: seq<Task>, i: nat, victim: nat)
    requires i < |q|
    ensures Survivors(q[..i + 1], victim) == Survivors(q[..i], victim) + if Matches(q[i], victim) then [] else [q[i]]
    ensures Victims(q[..i + 1], victim) == Victims(q[..i], victim) + if Matches(q[i], victim) then [q[i]] else []
  {
    assert q[..i + 1][..i] == q[..i];
  }

  lemma StreamNext(queue: seq<Task>, scan: Scan, task: Task)
    requires ScanStream(queue, scan) && scan.hand == Some(task)
    ensures ScanStream(queue + [task], scan.(rounds := scan.rounds + 1, hand := None, kept := scan.kept + [task]))
    ensures ScanStream(queue, scan.(rounds := scan.rounds + 1, hand := None, dropped := scan.dropped + [task]))
  {
    assert scan.entry + (scan.kept + [task]) == (scan.entry + scan.kept) + [task];
  }

  lemma SortsNext(victim: nat, scan: Scan, task: Task)
    requires ScanSorts(victim, scan) && scan.hand == Some(task)
    ensures var next := scan.(rounds := scan.rounds + 1, hand := None);
      if Matches(task, victim) then ScanSorts(victim, next.(dropped := scan.dropped + [task]))
      else ScanSorts(victim, next.(kept := scan.kept + [task]))
  {
    hide Survivors, Victims, Matches;
    FilterNext(scan.entry, scan.rounds, victim);
  }

  lemma DropScanOk(queue: seq<Task>, p: Pump, victim: nat, scan: Scan, task: Task)
    requires ScanOk(queue, p, victim, scan) && scan.hand == Some(task) && Matches(task, victim)
    ensures ScanOk(queue, p, victim, scan.(rounds := scan.rounds + 1, hand := None, dropped := scan.dropped + [task]))
  {
    hide ScanStream, ScanSorts;
    StreamNext(queue, scan, task);
    SortsNext(victim, scan, task);
  }

  lemma PutScanOk(queue: seq<Task>, p: Pump, victim: nat, scan: Scan, task: Task)
    requires ScanOk(queue, p, victim, scan) && scan.hand == Some(task) && !Matches(task, victim)
    ensures ScanOk(queue + [task], p, victim,
      scan.(rounds := scan.rounds + 1, hand := None, kept := scan.kept + [task]))
  {
    hide ScanStream, ScanSorts;
    StreamNext(queue, scan, task);
    SortsNext(victim, scan, task);
  }

  // ---------------------------------------------------------------- single steps

  lemma NoMatchNoVictim(evals: seq<Eval>, q: seq<Task>, victim: nat)
    requires victim < |evals| && AllAttributed(evals, q)
    requires forall i :: 0 <= i < |q| ==> !Matches(q[i], victim)
    ensures TaskCount(q, evals[victim].ticket) == 0
  {
    forall i | 0 <= i < |q| ensures q[i].ticket != evals[victim].ticket { assert Attributed(evals, q[i]); }
    AbsentCount(q, evals[victim].ticket);
  }

  lemma EnterAccounts(s: State)
    requires Accounts(s) && CancelEnabled(s, Enter)
    ensures Accounts(CancelApply(s, Enter))
  {
    hide Balanced, TaskEpochs, Epochs;
    var t := s.registry.evals[s.control.victim].ticket;
    StampBalanced(s.book, t, s.book.tickets[t].(cancelled := true), None, PumpTask(s.pump));
    EpochsFrame(s.book.tickets, MarkCancelled(s.book, t).tickets, s.fence, s.fence, s.history, s.history);
  }

  lemma MachineRecoveries(s: State)
    requires Machine(s)
    ensures Recoveries(s.pump, s.stops, s.control, s.fence.failed, s.world.retired)
  {
  }

  lemma EnterMachine(s: State)
    requires Machine(s) && CancelEnabled(s, Enter) && AllBooked(s.book, s.book.held)
    requires PumpTask(s.pump).Some? ==> s.pump.task.ticket < |s.book.tickets|
    ensures Machine(CancelApply(s, Enter))
  {
    hide Machine;
    assert Recoveries(s.pump, s.stops, CancelApply(s, Enter).control, s.fence.failed, s.world.retired) by {
      MachineRecoveries(s);
    }
    BookStepMachine(s, CancelApply(s, Enter).book, CancelApply(s, Enter).control);
  }

  lemma EnterService(s: State)
    requires Service(s) && CancelEnabled(s, Enter)
    ensures Service(CancelApply(s, Enter))
  {
    hide Registrations, Outcomes, ScanOk, TaskCount;
    EnterScanOk(s.book.queue, s.pump, s.control.victim);
  }

  lemma TakeAccounts(s: State)
    requires Accounts(s) && CancelEnabled(s, CancelStep.Take)
    ensures Accounts(CancelApply(s, CancelStep.Take))
  {
    hide Balanced, Epochs, Attributed, Admitted;
    TakeBalanced(s.book, None, PumpTask(s.pump), Some(s.book.queue[0]), PumpTask(s.pump));
  }

  lemma TakeMachine(s: State)
    requires Machine(s) && CancelEnabled(s, CancelStep.Take) && AllBooked(s.book, s.book.held)
    requires PumpTask(s.pump).Some? ==> s.pump.task.ticket < |s.book.tickets|
    ensures Machine(CancelApply(s, CancelStep.Take))
  {
    hide Machine;
    MachineRecoveries(s);
    BookStepMachine(s, TakeHead(s.book), CancelApply(s, CancelStep.Take).control);
  }

  lemma TakeService(s: State)
    requires Service(s) && CancelEnabled(s, CancelStep.Take)
    ensures Service(CancelApply(s, CancelStep.Take))
  {
    hide Registrations, Outcomes, ScanOk;
    TakeScanOk(s.book.queue, s.pump, s.control.victim, s.control.scan);
  }

  /** What the rotation drops is the victim's, and the victim's ticket is cancelled. */
  lemma DroppedIsCancelled(s: State)
    requires Accounts(s) && Service(s) && CancelEnabled(s, Put)
    requires Matches(s.control.scan.hand.value, s.control.victim)
    ensures s.book.tickets[s.control.scan.hand.value.ticket].cancelled
    ensures s.control.scan.hand.value.ticket in s.history.admitted
  {
    hide Balanced, Epochs, Registrations, Outcomes, ScanOk, Revocations, AllAttributed, AllAdmitted, TaskCount;
    assert Attributed(s.registry.evals, s.control.scan.hand.value);
    assert Admitted(s.history.admitted, s.fence.epoch, s.control.scan.hand.value);
  }

  lemma PutAccounts(s: State)
    requires Accounts(s) && Service(s) && CancelEnabled(s, Put)
    ensures Accounts(CancelApply(s, Put))
  {
    hide Balanced, Epochs, Attributed, Admitted, Service;
    var task := s.control.scan.hand.value;
    var b := s.book;
    if Matches(task, s.control.victim) {
      DroppedIsCancelled(s);
      ReleaseBalanced(b, task, Some(task), PumpTask(s.pump), None, PumpTask(s.pump));
      EpochsFrame(b.tickets, DoRelease(b, task).tickets, s.fence, s.fence, s.history,
        Answered(s.history, task.ticket, false));
      EpochsRefused(DoRelease(b, task).tickets, s.fence, Answered(s.history, task.ticket, false), task.ticket,
                    Refusal(s.fence.epoch, None));
    } else {
      PutBalanced(b, task, PumpTask(s.pump));
    }
  }

  lemma PutMachine(s: State)
    requires Machine(s) && CancelEnabled(s, Put) && AllBooked(s.book, s.book.held)
    requires PumpTask(s.pump).Some? ==> s.pump.task.ticket < |s.book.tickets|
    ensures Machine(CancelApply(s, Put))
  {
    hide Machine;
    MachineRecoveries(s);
    var s' := CancelApply(s, Put);
    var task := s.control.scan.hand.value;
    BookStepMachine(s, s'.book, s'.control);
    if Matches(task, s.control.victim) {
      RefusalMachine(s.(book := s'.book, control := s'.control), task.ticket, s'.history);
    }
  }

  /** A task that is still queued or in the rotation's hand has no reply yet, and was never
      committed. */
  lemma StillWaiting(b: Book, turning: Option<Task>, p: Pump, h: History, t: nat)
    requires OnePlace(b, turning, PumpTask(p)) && Replies(b, p, h.replies) && Commitments(b, p, h.committed)
    requires t < |b.tickets| && (Holds(turning, t) || TaskCount(b.queue, t) > 0)
    ensures t !in h.replies && t !in h.committed
  {
    hide TaskCount;
    assert Occurrences(b, turning, PumpTask(p), t) == 1;
  }

  lemma OutcomesFrame(evals: seq<Eval>, replies: map<nat, bool>, t: nat)
    requires Outcomes(evals, replies) && t !in replies
    ensures Outcomes(evals, replies[t := false])
  {
  }

  lemma HandWaiting(s: State)
    requires Accounts(s) && Machine(s) && Turning(s.control).Some?
    ensures Turning(s.control).value.ticket !in s.history.replies
    ensures Turning(s.control).value.ticket !in s.history.committed
  {
    hide Attribution, TaskEpochs, Epochs, PumpOk, Recoveries, Generations, Completions, Troubles, Results, Capacity,
         Replies, Commitments, OnePlace;
    StillWaiting(s.book, Turning(s.control), s.pump, s.history, Turning(s.control).value.ticket);
  }

  lemma PutVictim(s: State)
    requires CancelEnabled(s, Put) && s.control.scan.hand.value.ticket !in s.history.committed
    requires CancellingVictim(s.control, s.registry, s.book, s.pump, s.stops, s.history)
    ensures var s' := CancelApply(s, Put);
      CancellingVictim(s'.control, s'.registry, s'.book, s'.pump, s'.stops, s'.history)
  {
    hide TaskCount;
  }

  lemma PutRevocations(s: State)
    requires Revocations(s.registry, s.book, Turning(s.control), s.pump, s.history) && CancelEnabled(s, Put)
    ensures var s' := CancelApply(s, Put); Revocations(s'.registry, s'.book, Turning(s'.control), s'.pump, s'.history)
  {
    hide TaskCount;
    TasksAppend(s.book.queue, s.control.scan.hand.value);
  }

  lemma PutService(s: State)
    requires Accounts(s) && Machine(s) && Service(s) && CancelEnabled(s, Put)
    ensures Service(CancelApply(s, Put))
  {
    hide Accounts, Machine, Registrations, Outcomes, ScanOk, Revocations, CancellingVictim;
    var task := s.control.scan.hand.value;
    HandWaiting(s);
    OutcomesFrame(s.registry.evals, s.history.replies, task.ticket);
    PutVictim(s);
    PutRevocations(s);
    if Matches(task, s.control.victim) { DropScanOk(s.book.queue, s.pump, s.control.victim, s.control.scan, task); }
    else { PutScanOk(s.book.queue, s.pump, s.control.victim, s.control.scan, task); }
  }

  lemma EpochsAdvance(tickets: seq<Ticket>, fence: Fence, h: History)
    requires Epochs(tickets, fence, h)
    ensures Epochs(tickets, fence.(epoch := fence.epoch + 1), h)
  {
  }

  lemma DecideAccounts(s: State)
    requires Accounts(s) && CancelEnabled(s, Decide)
    ensures Accounts(CancelApply(s, Decide))
  {
    hide Balanced, Attribution, Epochs;
    EpochsAdvance(s.book.tickets, s.fence, s.history);
  }

  lemma DecidePump(s: State)
    requires Machine(s) && CancelEnabled(s, Decide)
    ensures var s' := CancelApply(s, Decide);
      && PumpOk(s'.pump, s'.stops) && Recoveries(s'.pump, s'.stops, s'.control, s'.fence.failed, s'.world.retired)
      && Generations(s'.pump, s'.stops, s'.fence.failed)
  {
    hide Replies, Commitments, Completions, Troubles, Results;
  }

  lemma DecideCompletions(s: State)
    requires Completions(s.book, s.pump) && CancelEnabled(s, Decide)
    ensures Completions(CancelApply(s, Decide).book, CancelApply(s, Decide).pump)
  {
    hide TaskCount;
    var s' := CancelApply(s, Decide);
    forall t | 0 <= t < |s.book.tickets| ensures CompletedOk(s'.book, s'.pump, t) {
      assert CompletedOk(s.book, s.pump, t);
    }
  }

  lemma DecideMachine(s: State)
    requires Machine(s) && CancelEnabled(s, Decide)
    ensures Machine(CancelApply(s, Decide))
  {
    DecidePump(s);
    DecideCompletions(s);
    hide TaskCount, PumpOk, Recoveries, Generations, Completions;
  }

  /** Undisturbed by `mu`, the victim's evaluation is either uncommitted for good or the one
      that `active` shows. */
  lemma DecideVictim(s: State)
    requires Accounts(s) && Machine(s) && Service(s) && CancelEnabled(s, Decide)
    ensures var s' := CancelApply(s, Decide);
      CancellingVictim(s'.control, s'.registry, s'.book, s'.pump, s'.stops, s'.history)
  {
    hide Balanced, TaskEpochs, Epochs, Recoveries, Generations, Replies, Completions, Troubles, Results,
         Registrations, Outcomes, Revocations, TaskCount, AllAttributed, ScanOk;
    var v := s.control.victim;
    RotationDone(s.book.queue, s.pump, v, s.control.scan);
    NoMatchNoVictim(s.registry.evals, s.book.queue, v);
  }

  lemma DecideRevocations(s: State)
    requires Revocations(s.registry, s.book, Turning(s.control), s.pump, s.history) && CancelEnabled(s, Decide)
    ensures var s' := CancelApply(s, Decide);
      Revocations(s'.registry, s'.book, Turning(s'.control), s'.pump, s'.history)
  {
    hide TaskCount;
  }

  lemma DecideService(s: State)
    requires Accounts(s) && Machine(s) && Service(s) && CancelEnabled(s, Decide)
    ensures Service(CancelApply(s, Decide))
  {
    hide Accounts, Machine, Registrations, Outcomes, ScanOk, Revocations, CancellingVictim;
    DecideVictim(s);
    DecideRevocations(s);
  }

  lemma FenceDropEpochs(s: State)
    requires CancelEnabled(s, FenceDrop) && Epochs(s.book.tickets, s.fence, s.history)
    requires AllAdmitted(s.history.admitted, s.fence.epoch, s.book.queue)
    requires Outdated(s.control, s.book.queue, s.fence.epoch)
    ensures Epochs(CancelApply(s, FenceDrop).book.tickets, s.fence, CancelApply(s, FenceDrop).history)
  {
  }

  lemma FenceDropAccounts(s: State)
    requires Accounts(s) && CancelEnabled(s, FenceDrop)
    ensures Accounts(CancelApply(s, FenceDrop))
  {
    hide Balanced, Epochs, Attributed;
    var task := s.book.queue[0];
    TakeBalanced(s.book, None, PumpTask(s.pump), Some(task), PumpTask(s.pump));
    ReleaseBalanced(TakeHead(s.book), task, Some(task), PumpTask(s.pump), None, PumpTask(s.pump));
    FenceDropEpochs(s);
  }

  lemma FenceDropMachine(s: State)
    requires Machine(s) && CancelEnabled(s, FenceDrop) && AllBooked(s.book, s.book.held)
    requires PumpTask(s.pump).Some? ==> s.pump.task.ticket < |s.book.tickets|
    ensures Machine(CancelApply(s, FenceDrop))
  {
    hide Machine;
    MachineRecoveries(s);
    var s' := CancelApply(s, FenceDrop);
    BookStepMachine(s, s'.book, s'.control);
    RefusalMachine(s.(book := s'.book), s.book.queue[0].ticket, s'.history);
  }

  lemma HeadWaiting(s: State)
    requires Accounts(s) && Machine(s) && s.book.queue != []
    ensures s.book.queue[0].ticket !in s.history.replies && s.book.queue[0].ticket !in s.history.committed
  {
    hide Attribution, TaskEpochs, Epochs, PumpOk, Recoveries, Generations, Completions, Troubles, Results, Capacity,
         Replies, Commitments, OnePlace;
    assert Booked(s.book, s.book.queue[0]);
    MemberCount(s.book.queue, 0);
    StillWaiting(s.book, Turning(s.control), s.pump, s.history, s.book.queue[0].ticket);
  }

  lemma FenceDropVictim(s: State)
    requires CancelEnabled(s, FenceDrop)
    requires CancellingVictim(s.control, s.registry, s.book, s.pump, s.stops, s.history)
    requires Revocations(s.registry, s.book, Turning(s.control), s.pump, s.history)
    ensures var s' := CancelApply(s, FenceDrop);
      && CancellingVictim(s'.control, s'.registry, s'.book, s'.pump, s'.stops, s'.history)
      && Revocations(s'.registry, s'.book, Turning(s'.control), s'.pump, s'.history)
  {
  }

  lemma FenceDropService(s: State)
    requires Accounts(s) && Machine(s) && Service(s) && CancelEnabled(s, FenceDrop)
    ensures Service(CancelApply(s, FenceDrop))
  {
    hide Accounts, Machine, Registrations, Outcomes, Revocations, CancellingVictim;
    HeadWaiting(s);
    OutcomesFrame(s.registry.evals, s.history.replies, s.book.queue[0].ticket);
    FenceDropVictim(s);
  }

  lemma SpawnMachine(s: State)
    requires Machine(s) && CancelEnabled(s, Spawn)
    ensures Machine(CancelApply(s, Spawn))
  {
    hide Replies, Commitments, Completions, Results, TaskCount;
  }

  lemma SpawnService(s: State)
    requires Service(s) && CancelEnabled(s, Spawn) && Machine(s)
    ensures Service(CancelApply(s, Spawn))
  {
    hide Registrations, Outcomes, TaskCount, Replies, Commitments, Completions, Troubles, Results, Generations;
  }

  lemma SpawnAccounts(s: State)
    requires Accounts(s) && CancelEnabled(s, Spawn)
    ensures Accounts(CancelApply(s, Spawn))
  {
    hide Balanced, Attribution, TaskEpochs, Epochs;
  }

  lemma CancelKeeps(s: State, k: CancelStep)
    requires Inv(s) && CancelEnabled(s, k)
    ensures Inv(CancelApply(s, k))
  {
    assert AllBooked(s.book, s.book.held) && (PumpTask(s.pump).Some? ==> s.pump.task.ticket < |s.book.tickets|) by {
      hide Machine, Service, Attribution, TaskEpochs, Epochs, OnePlace, Capacity;
    }
    hide Accounts, Machine, Service, CancelApply;
    match k {
      case Enter => EnterAccounts(s); EnterMachine(s); EnterService(s);
      case Take => TakeAccounts(s); TakeMachine(s); TakeService(s);
      case Put => PutAccounts(s); PutMachine(s); PutService(s);
      case Decide => DecideAccounts(s); DecideMachine(s); DecideService(s);
      case FenceDrop => FenceDropAccounts(s); FenceDropMachine(s); FenceDropService(s);
      case Spawn => SpawnAccounts(s); SpawnMachine(s); SpawnService(s);
    }
  }
}
