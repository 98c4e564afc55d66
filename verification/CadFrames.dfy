/** What a change of the reservation book leaves alone. */
module CadFrames {
  import opened Common
  import opened CadProtocol
  import opened CadAccounts
  import opened CadInvariant

  /** Epochs only look at a few things, which most steps leave alone. */
  lemma EpochsFrame(tickets: seq<Ticket>, tickets': seq<Ticket>, fence: Fence, fence': Fence, h: History, h': History)
    requires Epochs(tickets, fence, h)
    requires |tickets'| == |tickets| && fence'.epoch == fence.epoch && (fence.failed ==> fence'.failed)
    requires forall t :: 0 <= t < |tickets| ==>
      tickets'[t].epoch == tickets[t].epoch && tickets'[t].owned == tickets[t].owned
      && tickets'[t].captured == tickets[t].captured && (tickets[t].cancelled ==> tickets'[t].cancelled)
    requires h'.admitted == h.admitted && h'.committed == h.committed && h'.refused == h.refused
    ensures Epochs(tickets', fence', h')
  {
  }

  /** A refusal with a reason. */
  lemma EpochsRefused(tickets: seq<Ticket>, fence: Fence, h: History, t: nat, why: Refusal)
    requires Epochs(tickets, fence, h) && t in h.admitted
    requires t < |tickets| && Excused(h.admitted[t], why, tickets[t].cancelled, fence.failed)
    ensures Epochs(tickets, fence, Refused(h, t, why))
  {
  }

  /** The book moves on: tickets are added or stamped, reservations are released, and only a
      released one is newly completed. */
  ghost predicate BookStep(b: Book, b': Book) {
    && |b.tickets| <= |b'.tickets| && b'.held == b.held && AllBooked(b, b.held)
    && (forall t: nat :: b.released[t] <= b'.released[t])
    && (forall t :: 0 <= t < |b.tickets| ==>
          && (b.tickets[t].completed ==> b'.tickets[t].completed)
          && (b.tickets[t].cancelled ==> b'.tickets[t].cancelled)
          && (b'.tickets[t].completed && !b.tickets[t].completed ==> b'.released[t] > 0))
    && (forall t :: |b.tickets| <= t < |b'.tickets| ==> !b'.tickets[t].completed)
  }

  lemma BookStepReplies(b: Book, b': Book, p: Pump, replies: map<nat, bool>)
    requires BookStep(b, b') && Replies(b, p, replies)
    ensures Replies(b', p, replies)
  {
    hide TaskCount;
  }

  lemma BookStepCommitments(b: Book, b': Book, p: Pump, committed: map<nat, Commitment>)
    requires BookStep(b, b') && Commitments(b, p, committed)
    ensures Commitments(b', p, committed)
  {
    hide TaskCount;
  }

  lemma BookStepCompletions(b: Book, b': Book, p: Pump)
    requires BookStep(b, b') && Completions(b, p)
    requires PumpTask(p).Some? ==> p.task.ticket < |b.tickets|
    ensures Completions(b', p)
  {
    hide TaskCount;
    forall t | 0 <= t < |b'.tickets| ensures CompletedOk(b', p, t) {
      if t < |b.tickets| { assert CompletedOk(b, p, t); }
      else { AbsentCount(b.held, t); }
    }
  }

  lemma BookStepTroubles(b: Book, b': Book, p: Pump, stops: seq<Stop>, retired: set<nat>, troubled: map<nat, nat>)
    requires BookStep(b, b') && Troubles(b, p, stops, retired, troubled)
    ensures Troubles(b', p, stops, retired, troubled)
  {
    hide TaskCount, TroubleHeld;
  }

  lemma BookStepMachine(s: State, b: Book, c: Control)
    requires Machine(s) && BookStep(s.book, b)
    requires Recoveries(s.pump, s.stops, c, s.fence.failed, s.world.retired)
    requires PumpTask(s.pump).Some? ==> s.pump.task.ticket < |s.book.tickets|
    ensures Machine(s.(book := b, control := c))
  {
    hide PumpOk, Recoveries, Generations, Replies, Commitments, Completions, Troubles, Results, BookStep;
    BookStepReplies(s.book, b, s.pump, s.history.replies);
    BookStepCommitments(s.book, b, s.pump, s.history.committed);
    BookStepCompletions(s.book, b, s.pump);
    BookStepTroubles(s.book, b, s.pump, s.stops, s.world.retired, s.history.troubled);
  }

  /** A negative reply to a reservation that is already released changes no result. */
  lemma RefusalMachine(s: State, t: nat, h: History)
    requires Machine(s) && t < |s.book.tickets| && s.book.released[t] > 0
    requires h == s.history.(replies := s.history.replies[t := false], refused := h.refused)
    ensures Machine(s.(history := h))
  {
    hide PumpOk, Recoveries, Generations, Commitments, Completions, Troubles;
  }

  /** `Machine` looks at a release history and admissions through nothing but these parts. */
  lemma AdmissionMachine(s: State, admitted: map<nat, Admission>)
    requires Machine(s)
    ensures Machine(s.(history := s.history.(admitted := admitted)))
  {
    hide PumpOk, Recoveries, Generations, Replies, Commitments, Completions, Troubles;
  }
}
