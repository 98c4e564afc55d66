/** The council plugin's chat host as an object: its locked sections, each a step (or two) of the
    state machine in `Council`, whatever runs between them. */
module CouncilHost {
  import opened Common
  import opened Council

  /** A channel with room for one line. */
  class Waiter {
    var buffer: Option<Line>
    var closed: bool
    /** The place of its call among all calls. */
    ghost const owner: nat

    constructor (ghost owner: nat)
      ensures buffer == None && !closed && this.owner == owner
    {
      buffer, closed, this.owner := None, false, owner;
    }
  }

  class StdioChatHost {
    var nextID: nat
    var pending: map<string, Waiter>
    var gone: bool
    ghost var machine: State
    ghost var waiters: seq<Waiter?>

    /** The channels are those of the machine's calls, one each. */
    ghost predicate Channels()
      reads this, waiters
    {
      && |waiters| == |machine.calls|
      && forall i :: 0 <= i < |waiters| ==> Mirrors(waiters[i], machine.calls[i], i)
    }

    /** A refused call has no channel; any other has its own, with what the machine says is in it. */
    static ghost predicate Mirrors(w: Waiter?, c: Call, i: nat)
      reads w
    {
      && (w == null <==> Refused(c))
      && (w != null ==> w.owner == i && w.buffer == c.buffer && w.closed == c.closed)
    }

    /** The channel is one of the table's, or none of them. */
    static ghost predicate Closing(w: Waiter?, table: map<string, Waiter>) {
      exists k :: k in table && w == table[k]
    }

    static ghost predicate Spared(w: Waiter?, table: map<string, Waiter>) {
      forall k :: k in table ==> w != table[k]
    }

    ghost predicate Table()
      reads this
    {
      && |waiters| == |machine.calls|
      && (forall k :: k in pending <==> k in machine.pending)
      && (forall k :: k in pending ==> machine.pending[k] < |waiters| && pending[k] == waiters[machine.pending[k]])
    }

    ghost predicate Valid()
      reads this, waiters
    {
      Inv(machine) && Channels() && Table() && nextID == machine.nextID && gone == machine.gone
    }

    constructor ()
      ensures Valid() && machine == START && waiters == []
    {
      nextID, pending, gone := 0, map[], false;
      machine, waiters := START, [];
    }

    /** The opening section of an exchange: refuse once the stream has ended, else register a new
        channel under a new id. */
    method Register() returns (id: string, waiter: Waiter?)
      requires Valid()
      modifies this
      ensures Valid() && machine == Apply(old(machine), Begin)
      ensures (waiter == null) == old(gone)
      ensures waiter != null ==>
        fresh(waiter) && id == CallKey(nextID) && id in pending && pending[id] == waiter && id !in old(pending)
      ensures waiters == old(waiters) + [waiter]
    {
      hide CallKey, Inv, Apply;
      HasBegun(machine);
      if gone {
        machine, waiters := Apply(machine, Begin), waiters + [null];
        return "", null;
      }
      nextID := nextID + 1;
      id := CallKey(nextID);
      waiter := new Waiter(|waiters|);
      pending := pending[id := waiter];
      machine, waiters := Apply(machine, Begin), waiters + [waiter];
    }

    /** Hand one line to the call waiting on its id; it never waits for anyone. */
    method Deliver(id: string, line: Line) returns (claimed: bool)
      requires Valid() && machine.reader.Idle? && line == Line(machine.heard, id)
      modifies this`machine, set w | w in waiters && w != null
      ensures Valid() && pending == old(pending) && waiters == old(waiters)
      ensures claimed <==> id in pending
      ensures !claimed ==> machine == Apply(old(machine), Take(id))
      ensures claimed ==> Enabled(Apply(old(machine), Take(id)), Offer)
                          && machine == Apply(Apply(old(machine), Take(id)), Offer)
    {
      hide CallKey, Inv, Apply, Refused, Filled;
      ghost var before := machine.calls;
      Delivered(machine, id);
      ghost var taken := Apply(machine, Take(id));
      if id !in pending {
        machine := taken;
        return false;
      }
      var waiter := pending[id];
      if waiter.buffer.None? {
        waiter.buffer := Some(line);
      }
      machine := Apply(taken, Offer);
      claimed := true;
      forall i | 0 <= i < |waiters| ensures Mirrors(waiters[i], machine.calls[i], i) {
        FilledAt(before, waiter.owner, line, i);
      }
    }

    /** The deferred removal at the end of an exchange. */
    method Abandon(i: nat, id: string)
      requires Valid() && Enabled(machine, Leave(i)) && id == CallKey(machine.calls[i].id)
      modifies this`pending, this`machine
      ensures Valid() && machine == Apply(old(machine), Leave(i)) && pending == old(pending) - {id}
    {
      hide CallKey, Inv, Apply;
      HasLeft(machine, i);
      pending := pending - {id};
      machine := Apply(machine, Leave(i));
    }

    /** The stream has ended: every channel still waited on is closed, and nothing is pending. */
    method Close()
      requires Valid() && machine.reader.Idle?
      modifies this`pending, this`gone, this`machine, set w | w in waiters && w != null
      ensures Valid() && machine == Apply(old(machine), End) && gone && pending == map[]
    {
      hide CallKey, Inv, Apply, Enabled, Refused, InTable, Closing, Spared;
      HasEnded(machine);
      ghost var before := machine;
      var table := pending;
      forall i | 0 <= i < |waiters| && waiters[i] != null
        ensures if InTable(machine, i) then Closing(waiters[i], table) else Spared(waiters[i], table)
      {
        Shape(i);
      }
      CloseChannels(table, waiters);
      pending, gone := map[], true;
      machine := Apply(machine, End);
      forall i | 0 <= i < |waiters| ensures Mirrors(waiters[i], machine.calls[i], i) {
        EndAt(before, i);
      }
    }

    /** A channel is in the table exactly when its call is pending. */
    lemma Shape(i: nat)
      requires Valid() && i < |waiters| && waiters[i] != null
      ensures if InTable(machine, i) then Closing(waiters[i], pending) else Spared(waiters[i], pending)
    {
      hide CallKey, Inv;
      ClosedExactly(machine, i);
      if InTable(machine, i) {
        assert pending[CallKey(machine.calls[i].id)] == waiters[i];
      } else {
        assert forall k :: k in pending ==> waiters[machine.pending[k]] != waiters[i];
      }
    }

    /** Close every channel of the table, and no other. */
    static method CloseChannels(table: map<string, Waiter>, ghost all: seq<Waiter?>)
      requires forall k :: k in table ==> table[k] in all
      modifies set w | w in all && w != null
      ensures forall w :: w in all && w != null ==> w.buffer == old(w.buffer)
      ensures forall k :: k in table ==> table[k].closed
      ensures forall w :: w in all && w != null && Closing(w, table) ==> w.closed
      ensures forall w :: w in all && w != null && Spared(w, table) ==> w.closed == old(w.closed)
    {
      var left := table.Keys;
      while left != {}
        invariant left <= table.Keys
        invariant forall k :: k in table && k !in left ==> table[k].closed
        invariant forall w :: w in all && w != null ==> w.buffer == old(w.buffer)
        invariant forall w :: w in all && w != null && Spared(w, table) ==> w.closed == old(w.closed)
        decreases left
      {
        var id :| id in left;
        table[id].closed := true;
        left := left - {id};
      }
    }
  }

  /** What a delivery does to the machine. */
  lemma Delivered(s: State, id: string)
    requires Inv(s) && s.reader.Idle?
    ensures Inv(Apply(s, Take(id)))
    ensures id !in s.pending ==> Apply(s, Take(id)) == s.(heard := s.heard + 1)
    ensures id in s.pending ==>
      var t := Apply(s, Take(id));
      && Enabled(t, Offer) && Inv(Apply(t, Offer)) && s.pending[id] < |s.calls| && !Refused(s.calls[s.pending[id]])
      && Apply(t, Offer) == s.(heard := s.heard + 1, calls := Filled(s.calls, s.pending[id], Line(s.heard, id)))
  {
    hide CallKey, CallOk, IdsDiffer, HandIsNew, LinesDiffer;
    Keeps(s, Take(id));
    if id in s.pending {
      Keeps(Apply(s, Take(id)), Offer);
    }
  }

  /** A channel takes a line if it holds none. */
  function Filled(calls: seq<Call>, i: nat, line: Line): (filled: seq<Call>)
    ensures |filled| == |calls|
  {
    if i < |calls| && calls[i].buffer.None? then calls[i := calls[i].(buffer := Some(line))] else calls
  }

  lemma FilledAt(calls: seq<Call>, i: nat, line: Line, j: nat)
    requires j < |calls|
    ensures var c := Filled(calls, i, line)[j];
      && c.closed == calls[j].closed && Refused(c) == Refused(calls[j])
      && c.buffer == if j == i && calls[j].buffer.None? then Some(line) else calls[j].buffer
  {
  }

  lemma HasEnded(s: State)
    requires Inv(s) && s.reader.Idle?
    ensures Enabled(s, End) && Inv(Apply(s, End))
    ensures Apply(s, End) == s.(calls := CloseAll(s.calls, s.pending), pending := map[], gone := true, reader := Ended)
  {
    hide Inv;
    Keeps(s, End);
  }

  lemma HasLeft(s: State, i: nat)
    requires Inv(s) && Enabled(s, Leave(i))
    ensures i < |s.calls| && s.calls[i].phase.Leaving? && !Refused(s.calls[i]) && Inv(Apply(s, Leave(i)))
    ensures var c := s.calls[i].(phase := Returned(s.calls[i].phase.result));
      !Refused(c) && Apply(s, Leave(i)) == s.(calls := s.calls[i := c], pending := s.pending - {CallKey(s.calls[i].id)})
  {
    hide CallKey, Inv;
    Keeps(s, Leave(i));
    LeaveIsNotRefused(s, i);
  }

  lemma HasBegun(s: State)
    requires Inv(s)
    ensures Inv(Apply(s, Begin)) && CallKey(s.nextID + 1) !in s.pending
    ensures s.gone ==> Apply(s, Begin) == s.(calls := s.calls + [Call(0, Returned(NoRoute), None, false)])
    ensures !s.gone ==>
      Apply(s, Begin) == s.(nextID := s.nextID + 1,
                            calls := s.calls + [Call(s.nextID + 1, Registered, None, false)],
                            pending := s.pending[CallKey(s.nextID + 1) := |s.calls|])
  {
    hide CallKey, Inv;
    Keeps(s, Begin);
    NewIdIsNew(s);
  }

  /** The call is pending under its own id. */
  predicate InTable(s: State, i: nat)
    requires i < |s.calls|
  {
    CallKey(s.calls[i].id) in s.pending && s.pending[CallKey(s.calls[i].id)] == i
  }

  /** What the end does to one call. */
  lemma EndAt(s: State, i: nat)
    requires Enabled(s, End) && i < |s.calls|
    ensures |Apply(s, End).calls| == |s.calls|
    ensures var c := Apply(s, End).calls[i];
      && c.buffer == s.calls[i].buffer && Refused(c) == Refused(s.calls[i])
      && c.closed == (InTable(s, i) || s.calls[i].closed)
  {
    hide CallKey;
  }

  lemma NewIdIsNew(s: State)
    requires Inv(s)
    ensures CallKey(s.nextID + 1) !in s.pending
  {
    hide CallKey, IdsDiffer, HandIsNew, LinesDiffer, ReaderOk, LineOk;
    if CallKey(s.nextID + 1) in s.pending {
      var i := s.pending[CallKey(s.nextID + 1)];
      assert CallOk(s.calls[i], i, s);
      CallKeysDiffer(s.nextID + 1, s.calls[i].id);
    }
  }

  lemma LeaveIsNotRefused(s: State, i: nat)
    requires Inv(s) && Enabled(s, Leave(i))
    ensures !Refused(s.calls[i]) && !Refused(Apply(s, Leave(i)).calls[i])
  {
    hide CallKey, IdsDiffer, HandIsNew, LinesDiffer, ReaderOk, LineOk, PendingOk;
    assert CallOk(s.calls[i], i, s);
  }

  /** The calls pending at the end are those whose place the table names. */
  lemma ClosedExactly(s: State, i: nat)
    requires Inv(s) && i < |s.calls| && !Refused(s.calls[i])
    ensures forall k :: k in s.pending && s.pending[k] == i ==> k == CallKey(s.calls[i].id)
  {
    hide CallKey, IdsDiffer, HandIsNew, LinesDiffer, ReaderOk, LineOk, CallOk;
  }
}
