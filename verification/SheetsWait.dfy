/** What a wait for a capability reply comes to, told from the messages it read: which one ended it,
    and which of the requests that were waiting are gone. */
module SheetsWait {
  import opened Common
  import opened SheetsQueue

  // ---------------------------------------------------------------- what ends a wait

  predicate Names(p: Packet, id: string) {
    p.message.Some? && p.message.value.verb == "notifications/cancelled" && p.message.value.params == Target(id)
  }

  predicate Broken(p: Packet) {
    p.message.None? || (p.message.value.verb == "notifications/cancelled" && p.message.value.params == Undecodable)
  }

  predicate IsReply(p: Packet, wanted: string) {
    p.message.Some? && p.message.value.verb == "" && p.message.value.id == wanted
  }

  /** A message that ends the wait of the call `active` for the reply `wanted`. */
  predicate EndsWait(p: Packet, active: string, wanted: string) {
    Broken(p) || Names(p, active) || IsReply(p, wanted)
  }

  /** Whether and how one message ends the wait. */
  lemma OneMessage(stream: seq<Packet>, d: Desk, active: string, wanted: string)
    requires d.pos < |stream| && active != ""
    ensures var (d', r) := Absorb(stream, d, active, wanted);
      && d'.pos == d.pos + 1 && (r.Some? <==> EndsWait(stream[d.pos], active, wanted))
      && (r == Some(Failed) <==> Broken(stream[d.pos]))
      && (r == Some(CallCancelled) <==> Names(stream[d.pos], active))
      && (forall ok :: r == Some(Reply(ok)) <==>
            IsReply(stream[d.pos], wanted) && ok == stream[d.pos].message.value.ok)
  {
    hide Bytes, FirstWith, Crowded;
  }

  /** The wait reads on to the first message that ends it, and its result is what that message says:
      a reply only for the reply with the wanted id, a cancellation only for one that names the very
      call, and a failure for what cannot be decoded or for the end of the stream. */
  lemma {:induction false} WaitEndsForItsOwn(stream: seq<Packet>, d: Desk, active: string, wanted: string)
    requires d.pos <= |stream| && active != ""
    ensures var (d', r) := Await(stream, d, active, wanted);
      && d.pos <= d'.pos <= |stream|
      && (forall i :: d.pos <= i < d'.pos - 1 ==> !EndsWait(stream[i], active, wanted))
      && (if d'.pos > d.pos && EndsWait(stream[d'.pos - 1], active, wanted) then
            var last := stream[d'.pos - 1];
            if Broken(last) then r == Failed
            else if Names(last, active) then r == CallCancelled
            else r == Reply(last.message.value.ok)
          else d'.pos == |stream| && r == Failed)
    decreases |stream| - d.pos
  {
    hide Absorb, EndsWait, Broken, Names, IsReply;
    if d.pos < |stream| {
      AwaitStep(stream, d, active, wanted);
      OneMessage(stream, d, active, wanted);
      Verdicts(stream[d.pos], active, wanted);
      var (d1, r) := Absorb(stream, d, active, wanted);
      if r.None? {
        WaitEndsForItsOwn(stream, d1, active, wanted);
      }
    } else {
      AwaitEnd(stream, d, active, wanted);
    }
  }

  /** The three ways to end a wait exclude each other. */
  lemma Verdicts(p: Packet, active: string, wanted: string)
    ensures EndsWait(p, active, wanted) <==> Broken(p) || Names(p, active) || IsReply(p, wanted)
    ensures !(Broken(p) && Names(p, active)) && !(Broken(p) && IsReply(p, wanted))
    ensures !(Names(p, active) && IsReply(p, wanted))
    ensures IsReply(p, wanted) ==> p.message.Some?
  {
  }

  // ---------------------------------------------------------------- what becomes of who waits

  /** `w` is queued, and nobody before it has its id. */
  ghost predicate FirstOf(queue: seq<Waiting>, w: Waiting, id: string) {
    exists k :: 0 <= k < |queue| && queue[k] == w && IdOf(w) == id && forall j :: 0 <= j < k ==> IdOf(queue[j]) != id
  }

  ghost predicate Absent(queue: seq<Waiting>, place: nat) {
    forall k :: 0 <= k < |queue| ==> queue[k].place != place
  }

  lemma FirstAppend(queue: seq<Waiting>, u: Waiting, w: Waiting, id: string)
    requires FirstOf(queue, w, id)
    ensures FirstOf(queue + [u], w, id)
  {
    var k :| 0 <= k < |queue| && queue[k] == w && IdOf(w) == id && forall j :: 0 <= j < k ==> IdOf(queue[j]) != id;
    assert (queue + [u])[k] == w;
  }

  lemma FirstWithout(queue: seq<Waiting>, i: nat, w: Waiting, id: string)
    requires FirstOf(queue, w, id) && i < |queue| && IdOf(queue[i]) != id
    ensures FirstOf(Without(queue, i), w, id)
  {
    var k :| 0 <= k < |queue| && queue[k] == w && IdOf(w) == id && forall j :: 0 <= j < k ==> IdOf(queue[j]) != id;
    var at := if i < k then k - 1 else k;
    assert Without(queue, i)[at] == w;
    forall j | 0 <= j < at ensures IdOf(Without(queue, i)[j]) != id {
      assert Without(queue, i)[j] == if j < i then queue[j] else queue[j + 1];
    }
  }

  /** The first one with an id is the one that is struck for it. */
  lemma FirstStruck(stream: seq<Packet>, pos: nat, queue: seq<Waiting>, w: Waiting, id: string)
    requires QueueHolds(stream, pos, queue) && FirstOf(queue, w, id)
    ensures FirstWith(queue, id).Some? && queue[FirstWith(queue, id).value] == w
    ensures Absent(Without(queue, FirstWith(queue, id).value), w.place)
  {
    hide FirstWith;
    var k :| 0 <= k < |queue| && queue[k] == w && IdOf(w) == id && forall j :: 0 <= j < k ==> IdOf(queue[j]) != id;
    var at := FirstWith(queue, id);
    assert at.Some? && at.value == k;
  }

  lemma HoldsMore(stream: seq<Packet>, pos: nat, queue: seq<Waiting>)
    requires QueueHolds(stream, pos, queue) && pos < |stream|
    ensures QueueHolds(stream, pos + 1, queue) && QueueHolds(stream, pos + 1, queue + [Waiting(pos, stream[pos])])
  {
  }

  lemma HoldsWithout(stream: seq<Packet>, pos: nat, queue: seq<Waiting>, k: nat)
    requires QueueHolds(stream, pos, queue) && k < |queue|
    ensures QueueHolds(stream, pos, Without(queue, k))
  {
  }

  /** Whom a message strikes from the queue, if anyone. */
  function Aim(p: Packet): string {
    if IsCancel(p) then TargetOf(p.message.value) else ""
  }

  function Hit(queue: seq<Waiting>, p: Packet): Option<nat> {
    if IsCancel(p) then FirstWith(queue, Aim(p)) else None
  }

  lemma AimIs(queue: seq<Waiting>, p: Packet, id: string)
    requires id != ""
    ensures Names(p, id) <==> Aim(p) == id
    ensures Aim(p) == id ==> Hit(queue, p) == FirstWith(queue, id)
    ensures Hit(queue, p).Some? ==> Hit(queue, p).value < |queue| && IdOf(queue[Hit(queue, p).value]) == Aim(p)
  {
    hide FirstWith;
  }

  /** What the queue and the answers are after one message that does not end the wait, in the
      terms of the two things that can happen: somebody is struck, and somebody is added. */
  lemma AbsorbParts(stream: seq<Packet>, d: Desk, active: string, wanted: string)
    requires d.pos < |stream| && active != "" && !EndsWait(stream[d.pos], active, wanted)
    ensures var p, d' := stream[d.pos], Absorb(stream, d, active, wanted).0;
      var at := Hit(d.queue, p);
      var left := if at.Some? && at.value < |d.queue| then Without(d.queue, at.value) else d.queue;
      && (d'.queue == left || d'.queue == left + [Waiting(d.pos, p)])
      && (at.Some? && at.value < |d.queue| ==>
            Answer(d.queue[at.value].place, Aim(p), Cancelled(d.pos)) in d'.output)
      && (forall s :: s in d.output ==> s in d'.output)
  {
    hide Bytes, FirstWith;
  }

  /** One message: the first one with an id stays so unless it is the one named. */
  lemma WaiterStep(stream: seq<Packet>, d: Desk, active: string, wanted: string, w: Waiting, id: string)
    requires d.pos < |stream| && active != "" && id != "" && QueueHolds(stream, d.pos, d.queue)
    requires !EndsWait(stream[d.pos], active, wanted) && FirstOf(d.queue, w, id)
    ensures var d' := Absorb(stream, d, active, wanted).0;
      && QueueHolds(stream, d'.pos, d'.queue) && w.place < d.pos
      && (forall s :: s in d.output ==> s in d'.output)
      && if Names(stream[d.pos], id) then
           Absent(d'.queue, w.place) && Answer(w.place, id, Cancelled(d.pos)) in d'.output
         else FirstOf(d'.queue, w, id)
  {
    hide Absorb, FirstWith, FirstOf, Absent, EndsWait, QueueHolds, Without, Aim, Hit, Names, IdOf, IsReply, Broken;
    var p := stream[d.pos];
    OneMessage(stream, d, active, wanted);
    AbsorbParts(stream, d, active, wanted);
    AimIs(d.queue, p, id);
    PlaceBefore(stream, d.pos, d.queue, w, id);
    var at := Hit(d.queue, p);
    if at.Some? {
      var left := Without(d.queue, at.value);
      HoldsWithout(stream, d.pos, d.queue, at.value);
      HoldsMore(stream, d.pos, left);
      if Aim(p) == id {
        FirstStruck(stream, d.pos, d.queue, w, id);
        AbsentMore(left, w.place, Waiting(d.pos, p));
      } else {
        FirstWithout(d.queue, at.value, w, id);
        FirstAppend(left, Waiting(d.pos, p), w, id);
      }
    } else {
      HoldsMore(stream, d.pos, d.queue);
      if Aim(p) == id { FirstStruck(stream, d.pos, d.queue, w, id); }
      FirstAppend(d.queue, Waiting(d.pos, p), w, id);
    }
  }

  lemma PlaceBefore(stream: seq<Packet>, pos: nat, queue: seq<Waiting>, w: Waiting, id: string)
    requires QueueHolds(stream, pos, queue) && FirstOf(queue, w, id)
    ensures w.place < pos
  {
  }

  lemma AbsentMore(queue: seq<Waiting>, place: nat, u: Waiting)
    requires Absent(queue, place) && u.place != place
    ensures Absent(queue + [u], place)
  {
  }

  /** One message more: who has left does not come back, and no answer is taken back. */
  lemma GoneStep(stream: seq<Packet>, d: Desk, active: string, wanted: string, place: nat)
    requires d.pos < |stream| && active != "" && Absent(d.queue, place) && place < d.pos
    ensures var d' := Absorb(stream, d, active, wanted).0;
      Absent(d'.queue, place) && d'.pos == d.pos + 1 && forall s :: s in d.output ==> s in d'.output
  {
    hide FirstWith, Bytes;
  }

  lemma {:induction false} GoneRun(stream: seq<Packet>, d: Desk, active: string, wanted: string, place: nat)
    requires d.pos <= |stream| && active != "" && Absent(d.queue, place) && place < d.pos
    ensures var d' := Await(stream, d, active, wanted).0;
      Absent(d'.queue, place) && forall s :: s in d.output ==> s in d'.output
    decreases |stream| - d.pos
  {
    hide Absorb, Absent;
    if d.pos < |stream| {
      AwaitStep(stream, d, active, wanted);
      GoneStep(stream, d, active, wanted, place);
      var (d1, r) := Absorb(stream, d, active, wanted);
      if r.None? { GoneRun(stream, d1, active, wanted, place); }
    } else {
      AwaitEnd(stream, d, active, wanted);
    }
  }

  /** The message that ends the wait touches neither the queue nor the answers. */
  lemma LastMessage(stream: seq<Packet>, d: Desk, active: string, wanted: string)
    requires d.pos < |stream| && active != "" && EndsWait(stream[d.pos], active, wanted)
    ensures var d' := Absorb(stream, d, active, wanted).0; d'.queue == d.queue && d'.output == d.output
    ensures forall id :: Names(stream[d.pos], id) ==> id == active
  {
    hide FirstWith, Bytes;
  }

  ghost predicate NamedIn(stream: seq<Packet>, from: nat, to: nat, id: string) {
    exists i :: from <= i < to <= |stream| && Names(stream[i], id)
  }

  ghost predicate CancelledIn(stream: seq<Packet>, from: nat, to: nat, output: seq<Sent>, w: Waiting, id: string) {
    exists i :: from <= i < to <= |stream| && Names(stream[i], id) && Answer(w.place, id, Cancelled(i)) in output
  }

  /** Of the requests that wait when a call begins to wait, the first one with an id is gone at the
      end if and only if a message named it meanwhile, and then it has its cancellation. */
  lemma {:induction false} WaitersLeaveExactly(stream: seq<Packet>, d: Desk, active: string, wanted: string,
                                               w: Waiting, id: string)
    requires d.pos <= |stream| && active != "" && id != "" && id != active
    requires QueueHolds(stream, d.pos, d.queue) && FirstOf(d.queue, w, id)
    ensures var d' := Await(stream, d, active, wanted).0;
      d.pos <= d'.pos <= |stream| &&
      if NamedIn(stream, d.pos, d'.pos, id)
      then Absent(d'.queue, w.place) && CancelledIn(stream, d.pos, d'.pos, d'.output, w, id)
      else FirstOf(d'.queue, w, id)
    decreases |stream| - d.pos
  {
    hide Absorb, Await, Absent, FirstOf, EndsWait, Names, QueueHolds;
    WaitEndsForItsOwn(stream, d, active, wanted);
    if d.pos < |stream| {
      AwaitStep(stream, d, active, wanted);
      OneMessage(stream, d, active, wanted);
      var (d1, r) := Absorb(stream, d, active, wanted);
      var d' := Await(stream, d, active, wanted).0;
      if EndsWait(stream[d.pos], active, wanted) {
        LastMessage(stream, d, active, wanted);
        assert d' == d1;
      } else {
        WaiterStep(stream, d, active, wanted, w, id);
        WaitEndsForItsOwn(stream, d1, active, wanted);
        assert d' == Await(stream, d1, active, wanted).0;
        if Names(stream[d.pos], id) {
          GoneRun(stream, d1, active, wanted, w.place);
        } else {
          WaitersLeaveExactly(stream, d1, active, wanted, w, id);
          if CancelledIn(stream, d1.pos, d'.pos, d'.output, w, id) {
            var i :| d1.pos <= i < d'.pos && Names(stream[i], id) && Answer(w.place, id, Cancelled(i)) in d'.output;
          }
        }
      }
    } else {
      AwaitEnd(stream, d, active, wanted);
    }
  }
}
