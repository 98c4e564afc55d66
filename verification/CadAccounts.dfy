/** Conservation of worker reservations: every one is in exactly one place, and `count` and
    `bytes` are the totals over the places that still hold capacity. */
module CadAccounts {
  import opened Common
  import opened CadProtocol

  ghost function OwnedCount(ts: seq<Ticket>): nat {
    if ts == [] then 0 else OwnedCount(ts[..|ts| - 1]) + Unit(ts[|ts| - 1].owned)
  }

  ghost function OwnedBytes(ts: seq<Ticket>): nat {
    if ts == [] then 0
    else OwnedBytes(ts[..|ts| - 1]) + if ts[|ts| - 1].owned then ts[|ts| - 1].bytes else 0
  }

  ghost function TaskBytes(q: seq<Task>): nat {
    if q == [] then 0 else q[0].bytes + TaskBytes(q[1..])
  }

  ghost function TaskCount(q: seq<Task>, t: nat): nat {
    if q == [] then 0 else Unit(q[0].ticket == t) + TaskCount(q[1..], t)
  }

  ghost function HandBytes(o: Option<Task>): nat {
    if o.Some? then o.value.bytes else 0
  }

  ghost predicate Holds(o: Option<Task>, t: nat) {
    o.Some? && o.value.ticket == t
  }

  /** How often a reservation occurs over all the places one can be in: owned by its
      ticket, queued, in the rotation's hand, in the pump's, held back, or released. */
  ghost function Occurrences(b: Book, turning: Option<Task>, pumped: Option<Task>, t: nat): nat
    requires t < |b.tickets|
  {
    Unit(b.tickets[t].owned) + TaskCount(b.queue, t) + Unit(Holds(turning, t)) + Unit(Holds(pumped, t))
    + TaskCount(b.held, t) + b.released[t]
  }

  ghost predicate OnePlace(b: Book, turning: Option<Task>, pumped: Option<Task>) {
    && (forall t :: 0 <= t < |b.tickets| ==> Occurrences(b, turning, pumped, t) == 1)
    && (forall t: nat :: b.released[t] > 0 ==> t < |b.tickets|)
  }

  ghost predicate Capacity(b: Book, turning: Option<Task>, pumped: Option<Task>) {
    && b.count == OwnedCount(b.tickets) + |b.queue| + Unit(turning.Some?) + Unit(pumped.Some?) + |b.held|
    && b.bytes ==
      OwnedBytes(b.tickets) + TaskBytes(b.queue) + HandBytes(turning) + HandBytes(pumped) + TaskBytes(b.held)
    && b.count <= MAX_WORKER_TASKS && b.bytes <= MAX_WORKER_BYTES
  }

  ghost predicate Booked(b: Book, task: Task) {
    task.ticket < |b.tickets| && task.bytes == b.tickets[task.ticket].bytes
  }

  ghost predicate AllBooked(b: Book, q: seq<Task>) {
    forall i :: 0 <= i < |q| ==> Booked(b, q[i])
  }

  /** The accounts balance: `turning` is the task in the rotation's hand and `pumped` the
      one in the pump's. */
  ghost predicate Balanced(b: Book, turning: Option<Task>, pumped: Option<Task>) {
    && AllBooked(b, b.queue) && AllBooked(b, b.held)
    && (turning.Some? ==> Booked(b, turning.value)) && (pumped.Some? ==> Booked(b, pumped.value))
    && OnePlace(b, turning, pumped) && Capacity(b, turning, pumped)
  }

  // ---------------------------------------------------------------- sums under updates

  lemma {:induction false} OwnedUpdate(ts: seq<Ticket>, i: nat, x: Ticket)
    requires i < |ts| && x.bytes == ts[i].bytes
    ensures OwnedCount(ts[i := x]) + Unit(ts[i].owned) == OwnedCount(ts) + Unit(x.owned)
    ensures OwnedBytes(ts[i := x]) + (if ts[i].owned then x.bytes else 0)
         == OwnedBytes(ts) + if x.owned then x.bytes else 0
  {
    var last := |ts| - 1;
    if i == last {
      assert ts[i := x][..last] == ts[..last];
    } else {
      assert ts[i := x][..last] == ts[..last][i := x];
      OwnedUpdate(ts[..last], i, x);
    }
  }

  lemma OwnedAppend(ts: seq<Ticket>, x: Ticket)
    ensures OwnedCount(ts + [x]) == OwnedCount(ts) + Unit(x.owned)
    ensures OwnedBytes(ts + [x]) == OwnedBytes(ts) + if x.owned then x.bytes else 0
  {
    assert (ts + [x])[..|ts|] == ts;
  }

  lemma {:induction false} TasksAppend(q: seq<Task>, x: Task)
    ensures TaskBytes(q + [x]) == TaskBytes(q) + x.bytes
    ensures forall t: nat :: TaskCount(q + [x], t) == TaskCount(q, t) + Unit(x.ticket == t)
  {
    if q != [] {
      assert (q + [x])[1..] == q[1..] + [x];
      TasksAppend(q[1..], x);
    } else {
      assert [x][1..] == [];
    }
  }

  lemma TasksHead(q: seq<Task>, t: nat)
    requires q != []
    ensures TaskCount(q, t) == Unit(q[0].ticket == t) + TaskCount(q[1..], t)
  {
  }

  lemma {:induction false} AbsentCount(q: seq<Task>, t: nat)
    requires forall i :: 0 <= i < |q| ==> q[i].ticket != t
    ensures TaskCount(q, t) == 0
  {
    if q != [] { AbsentCount(q[1..], t); }
  }

  lemma {:induction false} MemberCount(q: seq<Task>, i: nat)
    requires i < |q|
    ensures TaskCount(q, q[i].ticket) >= 1
  {
    if i != 0 { MemberCount(q[1..], i - 1); }
  }

  // ---------------------------------------------------------------- moves

  lemma ReserveBalanced(b: Book, size: nat, epoch: nat, captured: nat, turning: Option<Task>, pumped: Option<Task>)
    requires Balanced(b, turning, pumped)
    requires b.count < MAX_WORKER_TASKS && size <= MAX_WORKER_BYTES - b.bytes
    ensures Balanced(DoReserve(b, size, epoch, captured), turning, pumped)
  {
    var b' := DoReserve(b, size, epoch, captured);
    OwnedAppend(b.tickets, b'.tickets[|b.tickets|]);
    forall t | 0 <= t < |b'.tickets| ensures Occurrences(b', turning, pumped, t) == 1 {
      if t == |b.tickets| { AbsentCount(b.queue, t); AbsentCount(b.held, t); }
      else { assert Occurrences(b, turning, pumped, t) == 1; }
    }
  }

  /** A ticket changes, but neither its size nor who owns it. */
  lemma StampBalanced(b: Book, t: nat, x: Ticket, turning: Option<Task>, pumped: Option<Task>)
    requires Balanced(b, turning, pumped) && t < |b.tickets|
    requires x.bytes == b.tickets[t].bytes && x.owned == b.tickets[t].owned
    ensures Balanced(b.(tickets := b.tickets[t := x]), turning, pumped)
  {
    var b' := b.(tickets := b.tickets[t := x]);
    OwnedUpdate(b.tickets, t, x);
    forall u | 0 <= u < |b'.tickets| ensures Occurrences(b', turning, pumped, u) == 1 {
      assert Occurrences(b, turning, pumped, u) == 1;
    }
  }

  lemma ReleaseUnusedBalanced(b: Book, t: nat, turning: Option<Task>, pumped: Option<Task>)
    requires Balanced(b, turning, pumped) && t < |b.tickets|
    ensures Balanced(DoReleaseUnused(b, t), turning, pumped)
  {
    var b' := DoReleaseUnused(b, t);
    OwnedUpdate(b.tickets, t, b.tickets[t].(owned := false));
    forall u | 0 <= u < |b'.tickets| ensures Occurrences(b', turning, pumped, u) == 1 {
      assert Occurrences(b, turning, pumped, u) == 1;
    }
  }

  lemma AdmitBalanced(b: Book, task: Task, turning: Option<Task>, pumped: Option<Task>)
    requires Balanced(b, turning, pumped) && Booked(b, task) && b.tickets[task.ticket].owned
    ensures Balanced(DoAdmit(b, task), turning, pumped)
    ensures |b.queue| < MAX_WORKER_TASKS
  {
    var b' := DoAdmit(b, task);
    OwnedUpdate(b.tickets, task.ticket, b.tickets[task.ticket].(owned := false));
    TasksAppend(b.queue, task);
    forall u | 0 <= u < |b'.tickets| ensures Occurrences(b', turning, pumped, u) == 1 {
      assert Occurrences(b, turning, pumped, u) == 1;
    }
  }

  /** The head of the queue moves to the rotation's hand or to the pump's. */
  lemma TakeBalanced(b: Book, turning: Option<Task>, pumped: Option<Task>, turning': Option<Task>,
    pumped': Option<Task>)
    requires Balanced(b, turning, pumped) && b.queue != []
    requires (turning.None? && turning' == Some(b.queue[0]) && pumped' == pumped)
          || (pumped.None? && pumped' == Some(b.queue[0]) && turning' == turning)
    ensures Balanced(TakeHead(b), turning', pumped')
  {
    var b' := TakeHead(b);
    forall u | 0 <= u < |b'.tickets| ensures Occurrences(b', turning', pumped', u) == 1 {
      assert Occurrences(b, turning, pumped, u) == 1;
    }
  }

  lemma PutBalanced(b: Book, task: Task, pumped: Option<Task>)
    requires Balanced(b, Some(task), pumped)
    ensures Balanced(b.(queue := b.queue + [task]), None, pumped)
    ensures |b.queue| < MAX_WORKER_TASKS
  {
    var b' := b.(queue := b.queue + [task]);
    TasksAppend(b.queue, task);
    forall u | 0 <= u < |b'.tickets| ensures Occurrences(b', None, pumped, u) == 1 {
      assert Occurrences(b, Some(task), pumped, u) == 1;
    }
  }

  /** A task in the rotation's hand or in the pump's gives its reservation back. */
  lemma ReleaseBalanced(b: Book, task: Task, turning: Option<Task>, pumped: Option<Task>,
    turning': Option<Task>, pumped': Option<Task>)
    requires Balanced(b, turning, pumped)
    requires (turning == Some(task) && turning'.None? && pumped' == pumped)
          || (pumped == Some(task) && pumped'.None? && turning' == turning)
    ensures Balanced(DoRelease(b, task), turning', pumped')
  {
    var b' := DoRelease(b, task);
    OwnedUpdate(b.tickets, task.ticket, b.tickets[task.ticket].(completed := true));
    forall u | 0 <= u < |b'.tickets| ensures Occurrences(b', turning', pumped', u) == 1 {
      assert Occurrences(b, turning, pumped, u) == 1;
    }
  }

  lemma KeepBalanced(b: Book, task: Task, turning: Option<Task>)
    requires Balanced(b, turning, Some(task))
    ensures Balanced(b.(held := b.held + [task]), turning, None)
  {
    var b' := b.(held := b.held + [task]);
    TasksAppend(b.held, task);
    forall u | 0 <= u < |b'.tickets| ensures Occurrences(b', turning, None, u) == 1 {
      assert Occurrences(b, turning, Some(task), u) == 1;
    }
  }
}
