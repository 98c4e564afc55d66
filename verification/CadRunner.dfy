/** The runner itself: its fields, and the critical sections that callers run on them. The
    methods update the fields in place; each is tied to the steps of the protocol. */
module CadRunner {
  import opened Common
  import opened CadProtocol
  import opened CadAccounts
  import opened CadInvariant
  import opened CadTheorems
  import CadCallers

  datatype Refusal = ContextCancelled | RunnerCancelled | WorkerFailed | Fenced | Busy
    | Consumed | TicketCancelled | SizeChanged

  datatype Result<T> = Ok(value: T) | Err(error: Refusal)

  class WorkerRunner {
    var tickets: seq<Ticket>
    var count: int
    var bytes: int
    var queue: seq<Task>
    var epoch: nat
    var failed: bool
    var stopped: bool
    var pump: Pump
    var stops: seq<Stop>
    ghost var control: Control
    ghost var held: seq<Task>
    ghost var released: multiset<nat>
    ghost var registry: Registry
    ghost var world: World
    ghost var history: History

    ghost function Accounts(): Book
      reads this
    {
      Book(tickets, count, bytes, queue, held, released)
    }

    ghost function Now(): State
      reads this
    {
      State(Accounts(), Fence(epoch, failed, stopped), pump, stops, control, registry, world, history)
    }

    /** `reserveEpoch`: the first refusal that applies wins, and a refused caller changes
        nothing. `ctxDone` and `down` are what the two contexts report. */
    method ReserveEpoch(ghost ctx: Ctx, ctxDone: bool, down: bool, size: nat, fence: nat) returns (r: Result<nat>)
      requires ctxDone == Cancelled(world, ctx) && down == world.down
      modifies this
      ensures r.Ok? <==> CanReserve(old(Now()), size, ctx, fence)
      ensures r.Ok? <==> !ctxDone && !down && !old(stopped) && !old(failed) && (fence == 0 || fence == old(epoch))
                         && old(count) < 16 && old(bytes) + size <= 0x200_0000
      ensures r.Ok? ==> r.value == old(|tickets|)
      ensures r.Ok? && fence != 0 ==>
        fence == old(epoch) && r.value < |tickets| && tickets[r.value].epoch == tickets[r.value].captured == fence
      ensures r.Ok? ==> Now() == old(Now()).(book := DoReserve(old(Accounts()), size, old(epoch), fence))
      ensures r.Err? ==> Now() == old(Now())
      ensures r.Err? ==> r.error == if ctxDone then ContextCancelled else if stopped || down then RunnerCancelled
                                    else if failed then WorkerFailed
                                    else if fence != 0 && fence != epoch then Fenced else Busy
    {
      if ctxDone { return Err(ContextCancelled); }
      if stopped || down { return Err(RunnerCancelled); }
      if failed { return Err(WorkerFailed); }
      if fence != 0 && fence != epoch { return Err(Fenced); }
      if count >= MAX_WORKER_TASKS || size > MAX_WORKER_BYTES - bytes { return Err(Busy); }
      count := count + 1;
      bytes := bytes + size;
      tickets := tickets + [Ticket(size, true, epoch, false, false, fence)];
      r := Ok(|tickets| - 1);
    }

    method BindEpoch(t: nat)
      requires t < |tickets|
      modifies this
      ensures Now() == old(Now()).(book := DoBind(old(Accounts()), t, old(epoch)))
    {
      tickets := tickets[t := tickets[t].(epoch := epoch)];
    }

    method ReleaseUnused(t: nat)
      requires t < |tickets|
      modifies this
      ensures Now() == old(Now()).(book := DoReleaseUnused(old(Accounts()), t))
      ensures !tickets[t].owned
    {
      if tickets[t].owned {
        tickets := tickets[t := tickets[t].(owned := false)];
        count := count - 1;
        bytes := bytes - tickets[t].bytes;
        released := released + multiset{t};
      }
    }

    /** The admission section of `ticket.Call`: the reservation moves to the queue, which has
        room for it, or the first refusal that applies is returned. */
    method Admit(t: nat, ctx: Ctx, verb: Verb, ctxDone: bool, down: bool, size: nat) returns (r: Result<()>)
      requires Inv(Now()) && MuFree(control) && t < |tickets|
      requires ctxDone == Cancelled(world, ctx) && down == world.down
      requires Attributed(registry.evals, Task(t, ctx, verb, size, tickets[t].epoch))
      modifies this
      ensures r.Ok? <==> CanAdmit(old(Now()), t, ctx, size)
      ensures r.Ok? <==> old(tickets[t].owned) && !old(tickets[t].cancelled) && !ctxDone && !down && !old(stopped)
                         && !old(failed) && old(tickets[t].epoch == epoch) && size == old(tickets[t].bytes)
      ensures r.Ok? ==> old(|queue|) < MAX_WORKER_TASKS && Now() == Send(old(Now()), t, ctx, verb, size)
      ensures r.Err? ==> Now() == old(Now())
      ensures r.Err? ==> r.error == if !tickets[t].owned then Consumed else if tickets[t].cancelled then TicketCancelled
                                    else if ctxDone then ContextCancelled else if stopped || down then RunnerCancelled
                                    else if tickets[t].epoch != epoch then Fenced else if failed then WorkerFailed
                                    else SizeChanged
      ensures Inv(Now())
    {
      hide Inv;
      if !tickets[t].owned { return Err(Consumed); }
      if tickets[t].cancelled { return Err(TicketCancelled); }
      if ctxDone { return Err(ContextCancelled); }
      if stopped || down { return Err(RunnerCancelled); }
      if tickets[t].epoch != epoch { return Err(Fenced); }
      if failed { return Err(WorkerFailed); }
      if size != tickets[t].bytes { return Err(SizeChanged); }
      ghost var before := Now();
      Parts(before);
      OwnedSome(tickets, t);
      CadCallers.SendKeeps(before, t, ctx, verb, size);
      var task := Task(t, ctx, verb, size, tickets[t].epoch);
      tickets := tickets[t := tickets[t].(owned := false)];
      queue := queue + [task];
      history := history.(admitted := history.admitted[t := Admission(task.epoch, ctx)]);
      r := Ok(());
    }

    /** What the pump may do while `mu` is held: receive one task, if it is waiting for one. */
    method Interfere(ghost start: State)
      requires Inv(Now()) && Later(start, Now())
      modifies this`queue, this`pump, this`control
      ensures Inv(Now()) && Later(start, Now())
      ensures MayReceive(old(Now()), Now())
    {
      hide Inv;
      if (pump.Idle? || pump.Draining?) && queue != [] {
        if * {
          ghost var before := Now();
          ghost var step := Pumping(if pump.Idle? then Dequeue else DrainTake);
          Extend(start, before, step);
          if control.Rotating? {
            control := control.(scan := control.scan.(taken := Some(queue[0])));
          }
          pump := if pump.Idle? then Hand(queue[0]) else DrainHand(queue[0]);
          queue := queue[1..];
        }
      }
    }

    /** `releaseLocked`, after the negative reply to a dropped task. */
    method Drop(task: Task)
      requires task.ticket < |tickets|
      modifies this`tickets, this`count, this`bytes, this`released, this`history
      ensures Accounts() == DoRelease(old(Accounts()), task)
      ensures history == TurnedAway(old(history), task.ticket, epoch)
    {
      history := TurnedAway(history, task.ticket, epoch);
      tickets := tickets[task.ticket := tickets[task.ticket].(completed := true)];
      count := count - 1;
      bytes := bytes - task.bytes;
      released := released + multiset{task.ticket};
    }

    /** `cancelEvaluation`, for the evaluation `victim` whose reservation is `t`: with the
        pump receiving between any two of its queue operations, it is a run of the protocol
        from the entry to the decision. */
    method CancelEvaluation(victim: nat, t: nat) returns (receipt: Option<nat>, answer: bool)
      requires Inv(Now()) && control.Entering? && control.victim == victim
      requires KnownEval(Now(), victim) && registry.evals[victim].ticket == t
      modifies this
      ensures Inv(Now()) && Later(old(Now()), Now())
      ensures control == Decided(old(control.why), victim, answer, receipt)
      ensures answer <==> !old(tickets[t].completed)
    {
      hide Inv, Later;
      ghost var start, why := Now(), control.why;
      StartLater(start);
      Extend(start, start, Cancel(Enter));
      if tickets[t].completed {
        control := Decided(why, victim, false, None);
        return None, false;
      }
      tickets := tickets[t := tickets[t].(cancelled := true)];
      control := Rotating(why, victim, Scan(queue, 0, None, [], [], None));
      Rotate(start, why, victim);
      receipt := Decide(start, why, victim);
      answer := true;
    }

    /** What follows the scan: only a committed evaluation is interrupted, only once, and the
        interruption fences out everything queued. */
    method Decide(ghost start: State, ghost why: Purpose, victim: nat) returns (receipt: Option<nat>)
      requires Inv(Now()) && Later(start, Now()) && Enabled(Now(), Cancel(CancelStep.Decide))
      requires control.why == why && control.victim == victim
      modifies this
      ensures Inv(Now()) && Later(start, Now()) && control == Decided(why, victim, true, receipt)
    {
      hide Inv, Later;
      Extend(start, Now(), Cancel(CancelStep.Decide));
      if !Interruptible(pump, victim) {
        control := Decided(why, victim, true, None);
        return None;
      }
      if pump.stop.Some? {
        receipt := pump.stop;
        control := Decided(why, victim, true, receipt);
        return receipt;
      }
      var stop := |stops|;
      stops := stops + [Stop(pump.gen, Fresh, 0)];
      pump := Interrupt(pump, stop);
      epoch := epoch + 1;
      control := Fencing(why, victim, stop);
      Drain(start, why, victim, stop);
      Spawn(start, why, victim, stop);
      receipt := Some(stop);
    }

    method Spawn(ghost start: State, ghost why: Purpose, victim: nat, stop: nat)
      requires Inv(Now()) && Later(start, Now())
      requires control == Fencing(why, victim, stop) && queue == [] && stop < |stops|
      modifies this`stops, this`control
      ensures Inv(Now()) && Later(start, Now()) && control == Decided(why, victim, true, Some(stop))
    {
      hide Inv, Later;
      Extend(start, Now(), Cancel(CancelStep.Spawn));
      stops := stops[stop := stops[stop].(phase := RetiringOld)];
      control := Decided(why, victim, true, Some(stop));
    }

    /** The scan loop: as many rounds as there were tasks at entry, or until it finds the
        queue empty. */
    method Rotate(ghost start: State, ghost why: Purpose, victim: nat)
      requires Inv(Now()) && Later(start, Now())
      requires control == Rotating(why, victim, Scan(queue, 0, None, [], [], None))
      modifies this
      ensures Inv(Now()) && Later(start, Now()) && Enabled(Now(), Cancel(CancelStep.Decide))
      ensures control.Rotating? && control.why == why && control.victim == victim
    {
      hide Inv, Later;
      var queuedCount, i := |queue|, 0;
      while i < queuedCount
        invariant 0 <= i <= queuedCount
        invariant Inv(Now()) && Later(start, Now())
        invariant AtRound(control, why, victim, i, queuedCount) && control.scan.hand.None?
      {
        Interfere(start);
        if queue == [] { return; }
        var queued := Receive(start, why, victim, i, queuedCount);
        Interfere(start);
        Examine(start, why, victim, i, queuedCount, queued);
        i := i + 1;
      }
    }

    method Receive(ghost start: State, ghost why: Purpose, victim: nat, i: nat, n: nat) returns (queued: Task)
      requires Inv(Now()) && Later(start, Now()) && AtRound(control, why, victim, i, n) && i < n
      requires control.scan.hand.None? && queue != []
      modifies this`queue, this`control
      ensures Inv(Now()) && Later(start, Now()) && AtRound(control, why, victim, i, n)
      ensures control.scan.hand == Some(queued)
    {
      hide Inv, Later;
      Extend(start, Now(), Cancel(CancelStep.Take));
      queued := queue[0];
      queue := queue[1..];
      control := control.(scan := control.scan.(hand := Some(queued)));
    }

    /** One task: the victim's evaluation is answered and released, any other sent back. */
    method Examine(ghost start: State, ghost why: Purpose, victim: nat, i: nat, n: nat, queued: Task)
      requires Inv(Now()) && Later(start, Now()) && AtRound(control, why, victim, i, n) && i < n
      requires control.scan.hand == Some(queued)
      modifies this
      ensures Inv(Now()) && Later(start, Now()) && AtRound(control, why, victim, i + 1, n)
      ensures control.scan.hand.None?
    {
      hide Inv, Later, DoRelease, TurnedAway;
      HandKnown(Now());
      Extend(start, Now(), Cancel(CancelStep.Put));
      ghost var next := control.scan.(rounds := i + 1, hand := None);
      if Matches(queued, victim) {
        control := Rotating(why, victim, next.(dropped := next.dropped + [queued]));
        Drop(queued);
      } else {
        control := Rotating(why, victim, next.(kept := next.kept + [queued]));
        queue := queue + [queued];
      }
    }

    /** The fence's drain loop: the older tasks are answered and released. */
    method Drain(ghost start: State, ghost why: Purpose, victim: nat, ghost stop: nat)
      requires Inv(Now()) && Later(start, Now()) && control == Fencing(why, victim, stop)
      modifies this
      ensures Inv(Now()) && Later(start, Now()) && control == Fencing(why, victim, stop)
      ensures queue == [] && stops == old(stops)
    {
      hide Inv, Later;
      while queue != []
        invariant Inv(Now()) && Later(start, Now()) && control == Fencing(why, victim, stop) && stops == old(stops)
        decreases |queue|
      {
        DrainOne(start, why, victim, stop);
      }
    }

    method DrainOne(ghost start: State, ghost why: Purpose, victim: nat, ghost stop: nat)
      requires Inv(Now()) && Later(start, Now()) && control == Fencing(why, victim, stop) && queue != []
      modifies this
      ensures Inv(Now()) && Later(start, Now()) && control == Fencing(why, victim, stop)
      ensures queue == old(queue[1..]) && stops == old(stops)
    {
      hide Inv, Later, DoRelease, TurnedAway;
      var queued := queue[0];
      HeadKnown(Now());
      Extend(start, Now(), Cancel(FenceDrop));
      queue := queue[1..];
      Drop(queued);
    }
  }

  /** The pump received the head of the queue, or did nothing. */
  ghost predicate MayReceive(s: State, s': State) {
    || s' == s
    || (&& (s.pump.Idle? || s.pump.Draining?) && s.book.queue != []
        && s' == DoDequeue(s, if s.pump.Idle? then Hand(s.book.queue[0]) else DrainHand(s.book.queue[0])))
  }

  ghost predicate AtRound(c: Control, why: Purpose, victim: nat, i: nat, n: nat) {
    c.Rotating? && c.why == why && c.victim == victim && c.scan.rounds == i && |c.scan.entry| == n
  }

  lemma StartLater(s: State)
    ensures Later(s, s)
  {
    assert Legal(s, []) && After(s, []) == s;
  }

  lemma Extend(start: State, s: State, step: Step)
    requires Inv(s) && Later(start, s) && Enabled(s, step)
    ensures Inv(Apply(s, step)) && Later(start, Apply(s, step))
  {
    hide Inv, Later, Enabled, Apply;
    StepKeeps(s, step);
    StepLater(s, step);
    LaterTransitive(start, s, Apply(s, step));
  }

  lemma HandKnown(s: State)
    requires Inv(s) && Turning(s.control).Some?
    ensures Turning(s.control).value.ticket < |s.book.tickets|
  {
    hide Machine, Service, Attribution, TaskEpochs, Epochs, OnePlace, Capacity;
  }

  lemma HeadKnown(s: State)
    requires Inv(s) && s.book.queue != []
    ensures s.book.queue[0].ticket < |s.book.tickets|
  {
    hide Machine, Service, Attribution, TaskEpochs, Epochs, OnePlace, Capacity;
  }
}
