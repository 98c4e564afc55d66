/** The sheets plugin's stream and its serving loop as the program has them, proved against the
    account of `SheetsQueue`. */
module Sheets {
  import opened Common
  import opened Pointer
  import opened SheetsQueue

  /** How many capabilities one tool call may ask for. */
  const MAX_CALLS := 4

  /** The id a capability call asks under. */
  function CapabilityId(n: nat): string {
    "\"sheets-cap-" + Decimal(n) + "\""
  }

  /** No two calls of a stream ask under the same id. */
  lemma CapabilityIdsDiffer(a: nat, b: nat)
    requires CapabilityId(a) == CapabilityId(b)
    ensures a == b
  {
    hide Decimal, Number;
    DecimalReads(a);
    DecimalReads(b);
    var n := |"\"sheets-cap-"|;
    assert CapabilityId(a)[n..|CapabilityId(a)| - 1] == Decimal(a);
    assert CapabilityId(b)[n..|CapabilityId(b)| - 1] == Decimal(b);
  }

  class RpcStream {
    const stream: seq<Packet>
    var pos: nat
    var queued: seq<Waiting>
    var queuedBytes: int
    var current: Waiting
    var activeID: string
    var sequence: nat
    var output: seq<Sent>
    /** How many writes still succeed before the stream is dead. */
    var writes: nat
    ghost var active: Option<nat>
    ghost var lost: set<nat>
    /** The messages read while a call waited, with the id of that call. */
    ghost var during: map<nat, string>
    ghost var broken: bool

    ghost function State(): Desk
      reads this
    {
      Desk(pos, queued, active, output, lost)
    }

    /** While the stream lives, exactly the messages that a waiting call cannot decode or is
        cancelled by, and that are requests too, are forgotten. */
    ghost predicate LostExactly()
      reads this
    {
      && (broken ==> writes == 0)
      && (forall i :: i in during ==> i < pos)
      && pos <= |stream|
      && (!broken ==> forall i :: i in lost <==> i in during && Forgotten(stream[i], during[i]))
    }

    ghost predicate Valid()
      reads this
    {
      && Balanced(stream, State()) && AllReasoned(stream, output) && LostExactly()
      && |queued| <= MAX_QUEUED && queuedBytes == Bytes(queued) <= MAX_QUEUED_BYTES
    }

    constructor (stream: seq<Packet>, writes: nat)
      ensures Valid() && State() == START && this.stream == stream && this.writes == writes && !broken && sequence == 0
    {
      this.stream, this.writes, pos, queued, queuedBytes, activeID, sequence, output :=
        stream, writes, 0, [], 0, "", 0, [];
      current := Waiting(0, Packet(0, None));
      active, lost, during, broken := None, {}, map[], false;
    }

    method Write(s: Sent) returns (ok: bool)
      modifies this`writes, this`output, this`broken
      ensures output == if ok then old(output) + [s] else old(output)
      ensures ok ==> broken == old(broken)
      ensures !ok ==> broken && writes == 0
      ensures old(writes) == 0 ==> !ok
    {
      if writes == 0 {
        broken := true;
        return false;
      }
      writes := writes - 1;
      output := output + [s];
      ok := true;
    }

    /** The packet just read, while a call waits, is of no use; if it was a request, it is
        forgotten. */
    method PassOver()
      requires Valid() && pos < |stream| && (IsRequest(stream[pos]) ==> broken || Forgotten(stream[pos], activeID))
      modifies this`lost, this`during, this`pos
      ensures Valid() && State() == GoBy(old(State()), stream[old(pos)])
      ensures during == old(during)[old(pos) := activeID]
    {
      hide Balanced, AllReasoned, IsRequest, IsCancel, Bytes;
      PassOverKeeps(stream, State());
      if IsRequest(stream[pos]) {
        lost := lost + {pos};
      }
      ForgottenIsRequest(stream[pos], activeID);
      during := during[pos := activeID];
      pos := pos + 1;
    }

    /** Answer and drop the first queued request with that id. */
    method Strike(id: string) returns (ok: bool)
      requires Valid() && pos < |stream| && IsCancel(stream[pos]) && id == TargetOf(stream[pos].message.value)
      modifies this`writes, this`output, this`broken, this`queued, this`queuedBytes
      ensures Valid() && (!ok ==> broken)
      ensures |queued| <= |old(queued)|
      ensures ok ==> broken == old(broken) && State() == Struck(old(State()), id)
    {
      hide Balanced, Bytes, IsCancel;
      ghost var before := State();
      var k := FirstWith(queued, id);
      if k.Some? {
        var place := queued[k.value].place;
        StruckReasoned(stream, before, k.value, id);
        ok := Write(Answer(place, id, Cancelled(pos)));
        if !ok {
          return;
        }
        CancelKeeps(stream, before, k.value, id);
        QueueDrop(queued, k.value, 0);
        queuedBytes := queuedBytes - queued[k.value].packet.size;
        queued := Without(queued, k.value);
      }
      ok := true;
    }

    /** Refuse the request just read: the queue is full. */
    method TurnAway() returns (ok: bool)
      requires Valid() && pos < |stream| && IsRequest(stream[pos]) && !Forgotten(stream[pos], activeID)
      requires Crowded(State(), stream[pos])
      modifies this`writes, this`output, this`broken, this`pos, this`lost, this`during
      ensures during == old(during)[old(pos) := activeID]
      ensures Valid() && pos == old(pos) + 1 && (!ok ==> broken)
      ensures ok ==> broken == old(broken) && State() == Refuse(old(State()), stream[old(pos)].message.value.id)
    {
      hide Balanced, Bytes, IsCancel, Crowded, Forgotten;
      ghost var before := State();
      var id := stream[pos].message.value.id;
      RefusedReasoned(stream, before);
      RefuseKeeps(stream, before, id);
      LoseKeeps(stream, before);
      ok := Write(Answer(pos, id, Full(|queued|, queuedBytes)));
      if !ok {
        lost := lost + {pos};
      }
      during := during[pos := activeID];
      pos := pos + 1;
    }

    /** Queue the request just read, or refuse it when the queue is full. */
    method Admit() returns (ok: bool)
      requires Valid() && pos < |stream| && IsRequest(stream[pos]) && !Forgotten(stream[pos], activeID)
      modifies this`writes, this`output, this`broken, this`queued, this`queuedBytes, this`pos, this`lost, this`during
      ensures during == old(during)[old(pos) := activeID]
      ensures Valid() && pos == old(pos) + 1 && (!ok ==> broken) && |queued| <= |old(queued)| + 1
      ensures ok ==> broken == old(broken) && State() == Admitted(stream, old(State()))
    {
      hide Balanced, Bytes, IsCancel, Forgotten, AllReasoned;
      var p := stream[pos];
      if |queued| >= MAX_QUEUED || queuedBytes + p.size > MAX_QUEUED_BYTES {
        ok := TurnAway();
        return;
      }
      EnqueueKeeps(stream, State());
      QueuePush(queued, Waiting(pos, p), 0);
      queued := queued + [Waiting(pos, p)];
      queuedBytes := queuedBytes + p.size;
      during := during[pos := activeID];
      pos := pos + 1;
      ok := true;
    }

    /** Ask the host for a capability and wait for its reply, keeping what arrives meanwhile. */
    method Capability() returns (result: Result)
      requires Valid() && active.Some? && activeID != ""
      modifies this`writes, this`output, this`broken, this`queued, this`queuedBytes, this`pos, this`lost, this`during,
               this`sequence
      ensures Valid() && sequence == old(sequence) + 1 && old(pos) <= pos
      ensures forall i :: i in during <==> i in old(during) || old(pos) <= i < pos
      ensures forall i :: i in during ==> during[i] == if i < old(pos) then old(during)[i] else activeID
      ensures 2 * (|stream| - pos) + |queued| <= 2 * (|stream| - old(pos)) + |old(queued)|
      ensures !broken ==>
        var (d, r) := Await(stream, Say(old(State()), Ask(CapabilityId(sequence))), activeID, CapabilityId(sequence));
        State() == d && result == r
    {
      hide Balanced, Bytes, IsRequest, IsCancel, Await, Absorb, Struck, Admitted, CapabilityId, AllReasoned;
      sequence := sequence + 1;
      var wanted := CapabilityId(sequence);
      ghost var asked := Say(State(), Ask(wanted));
      SayKeeps(stream, State(), Ask(wanted));
      AskReasoned(stream, output, wanted);
      var ok := Write(Ask(wanted));
      if !ok {
        return Failed;
      }
      while pos < |stream|
        invariant Valid() && 2 * (|stream| - pos) + |queued| <= 2 * (|stream| - old(pos)) + |old(queued)|
        invariant active == old(active) && sequence == old(sequence) + 1 && old(pos) <= pos
        invariant forall i :: i in during <==> i in old(during) || old(pos) <= i < pos
        invariant forall i :: i in during ==> during[i] == if i < old(pos) then old(during)[i] else activeID
        invariant !broken ==> Await(stream, State(), activeID, wanted) == Await(stream, asked, activeID, wanted)
        decreases |stream| - pos
      {
        ghost var before := State();
        AwaitStep(stream, before, activeID, wanted);
        var more: bool;
        more, result := Step(wanted);
        if !more {
          return;
        }
      }
      if !broken {
        AwaitEnd(stream, State(), activeID, wanted);
      }
      result := Failed;
    }

    /** One message while waiting. */
    method Step(wanted: string) returns (more: bool, result: Result)
      requires Valid() && pos < |stream| && active.Some?
      modifies this`writes, this`output, this`broken, this`queued, this`queuedBytes, this`pos, this`lost, this`during
      ensures during == old(during)[old(pos) := activeID]
      ensures Valid() && pos == old(pos) + 1 && |queued| <= |old(queued)| + 1
      ensures !broken ==> !old(broken)
      ensures !broken ==> var (d, r) := Absorb(stream, old(State()), activeID, wanted);
        State() == d && more == !r.Some? && (!more ==> result == r.value)
    {
      hide Balanced, Bytes, Struck, Heed, AllReasoned;
      var p := stream[pos];
      more, result := false, Failed;
      if p.message.None? {
        PassOver();
        return;
      }
      var m := p.message.value;
      if IsCancel(p) {
        if m.params.Undecodable? {
          PassOver();
          return;
        }
        if TargetOf(m) == activeID {
          PassOver();
          result := CallCancelled;
          return;
        }
        var ok := Strike(TargetOf(m));
        if !ok {
          PassOver();
          return;
        }
      }
      more, result := Remainder(wanted);
    }

    method Remainder(wanted: string) returns (more: bool, result: Result)
      requires Valid() && pos < |stream| && stream[pos].message.Some? && !Forgotten(stream[pos], activeID)
      modifies this`writes, this`output, this`broken, this`queued, this`queuedBytes, this`pos, this`lost, this`during
      ensures during == old(during)[old(pos) := activeID]
      ensures Valid() && pos == old(pos) + 1 && |queued| <= |old(queued)| + 1
      ensures !broken ==> !old(broken)
      ensures !broken ==> var (d, r) := Heed(stream, old(State()), wanted);
        State() == d && more == !r.Some? && (!more ==> result == r.value)
    {
      hide Balanced, Bytes, Admitted, AllReasoned;
      var m := stream[pos].message.value;
      if m.verb != "" && m.id != "" {
        more := Admit();
        return more, Failed;
      }
      PassOver();
      more, result := m.id != wanted || m.verb != "", Reply(m.ok);
    }

    /** The next message to handle: the oldest queued one, else the next one read. */
    method Next() returns (more: bool)
      requires Valid() && active.None?
      modifies this`queued, this`queuedBytes, this`pos, this`current, this`active
      ensures Valid()
      ensures !more ==> pos == |stream| && queued == [] && active.None? && State() == old(State())
      ensures more ==> 2 * (|stream| - pos) + |queued| < 2 * (|stream| - old(pos)) + |old(queued)|
      ensures more ==> current.place < |stream| && current.packet == stream[current.place]
      ensures more ==> active == if IsRequest(current.packet) then Some(current.place) else None
      ensures more ==> State() == if old(queued) != [] then StartQueued(old(State()))
                                  else if IsRequest(current.packet) then StartRead(old(State())) else Skip(old(State()))
    {
      hide Balanced, Bytes, IsRequest, AllReasoned;
      ghost var before := State();
      if |queued| != 0 {
        StartQueuedKeeps(stream, before);
        HeadHeld(stream, before);
        current := queued[0];
        queuedBytes := queuedBytes - current.packet.size;
        queued := queued[1..];
        active := Some(current.place);
        return true;
      }
      PosBound(stream, before);
      if pos == |stream| {
        return false;
      }
      current := Waiting(pos, stream[pos]);
      if IsRequest(stream[pos]) {
        StartReadKeeps(stream, before);
        active := Some(pos);
      } else {
        SkipKeeps(stream, before);
      }
      pos := pos + 1;
      more := true;
    }

    /** Serve until the input ends or a write fails: while the stream lives every request is
        answered exactly once (served, refused as full, or cancelled by a message that names it),
        the served ones in arrival order. Forgotten are exactly the requests that are cancellations
        too and that the call waiting then could not decode or was cancelled by; without a message
        that is both, nothing is. `wants` says whether a tool call asks for one more capability,
        given what the earlier ones returned. */
    method Serve(wants: (Packet, seq<Result>) -> bool) returns (alive: bool)
      requires Valid() && State() == START && !broken
      modifies this
      ensures Valid() && (alive ==> !broken && pos == |stream| && queued == [] && active.None?)
      ensures !alive ==> broken
      ensures alive ==> forall i :: 0 <= i < |stream| ==> Answers(output, i) == Unit(IsRequest(stream[i]) && i !in lost)
      ensures forall i :: i in during ==> i < |stream|
      ensures alive ==> forall i :: i in lost <==> i in during && Forgotten(stream[i], during[i])
      ensures alive && (forall i :: 0 <= i < |stream| ==> !Confused(stream[i])) ==>
        forall i :: 0 <= i < |stream| ==> Answers(output, i) == Unit(IsRequest(stream[i]))
      ensures Increasing(ServedOrder(output))
    {
      hide Balanced, Bytes, AllReasoned;
      while true
        invariant Valid() && active.None?
        invariant broken == false
        decreases 2 * (|stream| - pos) + |queued|
      {
        PosBound(stream, State());
        var more := Next();
        if !more {
          AllAnswered(stream, State());
          return true;
        }
        PosBound(stream, State());
        if current.packet.message.None? {
          SayKeeps(stream, State(), NotJson);
          PlainReasoned(stream, output);
          var ok := Write(NotJson);
          if !ok {
            ServedInOrder(stream, State());
            return false;
          }
        } else if IsRequest(current.packet) {
          var ok := Handle(wants);
          if !ok {
            ServedInOrder(stream, State());
            return false;
          }
        }
      }
    }

    /** Handle the request in hand and answer it. */
    method Handle(wants: (Packet, seq<Result>) -> bool) returns (ok: bool)
      requires Valid() && active == Some(current.place)
      requires current.place < |stream| && current.packet == stream[current.place]
      requires IsRequest(current.packet) && !broken
      modifies this
      ensures Valid() && active.None? && broken == !ok
      ensures 2 * (|stream| - pos) + |queued| <= 2 * (|stream| - old(pos)) + |old(queued)|
    {
      hide Balanced, Bytes, AllReasoned, Await, Say, LostExactly;
      if current.packet.message.value.verb == "tools/call" {
        Work(wants);
      }
      ok := Conclude();
    }

    /** A tool call: it asks for capabilities one after another. */
    method Work(wants: (Packet, seq<Result>) -> bool)
      requires Valid() && active == Some(current.place) && current.packet.message.Some?
      requires current.packet.message.value.id != ""
      modifies this
      ensures Valid() && active == Some(current.place) && current == old(current)
      ensures 2 * (|stream| - pos) + |queued| <= 2 * (|stream| - old(pos)) + |old(queued)|
    {
      hide Balanced, Bytes, AllReasoned, Await, Say;
      activeID := current.packet.message.value.id;
      var results: seq<Result> := [];
      while |results| < MAX_CALLS && wants(current.packet, results)
        invariant Valid() && active == Some(current.place) && current == old(current) && activeID != ""
        invariant 2 * (|stream| - pos) + |queued| <= 2 * (|stream| - old(pos)) + |old(queued)|
        decreases MAX_CALLS - |results|
      {
        var result := Capability();
        results := results + [result];
      }
      activeID := "";
    }

    /** The reply to the request in hand. */
    method Conclude() returns (ok: bool)
      requires Valid() && active == Some(current.place) && current.place < |stream|
      requires current.packet == stream[current.place] && IsRequest(current.packet)
      modifies this`writes, this`output, this`broken, this`active, this`lost
      ensures Valid() && active.None? && broken == !ok
    {
      hide Balanced, Bytes, AllReasoned;
      ghost var before := State();
      var id := current.packet.message.value.id;
      ServedReasoned(stream, output, current.place, id);
      FinishKeeps(stream, before, id);
      AbandonKeeps(stream, before);
      ok := Write(Answer(current.place, id, Served));
      if !ok {
        lost := lost + {current.place};
      }
      active := None;
    }
  }
}
