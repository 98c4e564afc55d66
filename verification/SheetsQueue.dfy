/** The sheets plugin's one reader: host requests that arrive while a tool call waits for a
    capability reply are queued, refused as full, or cancelled. This is the account of them: every
    request is in exactly one place, and is answered exactly once. */
module SheetsQueue {
  import opened Common

  const MAX_QUEUED := 64
  const MAX_QUEUED_BYTES := 16 * 1024 * 1024

  /** What the parameters of a message say, as far as the reader looks at them. */
  datatype Params = Undecodable | Target(id: string) | Other

  /** A decoded message; an empty id stands for none (or null). `ok` is whether a capability reply
      carries a result. */
  datatype Message = Message(verb: string, id: string, params: Params, ok: bool)

  /** One line from the host; only its length and meaning matter. */
  datatype Packet = Packet(size: nat, message: Option<Message>)

  /** A refusal remembers how full the queue was, a cancellation which message asked for it. */
  datatype Kind = Served | Full(waiting: nat, bytes: nat) | Cancelled(notice: nat)

  /** A request is known by its place in the stream. */
  datatype Sent = Ask(id: string) | Answer(place: nat, id: string, kind: Kind) | NotJson

  datatype Waiting = Waiting(place: nat, packet: Packet)

  predicate IsRequest(p: Packet) {
    p.message.Some? && p.message.value.verb != "" && p.message.value.id != ""
  }

  predicate IsCancel(p: Packet) {
    p.message.Some? && p.message.value.verb == "notifications/cancelled"
  }

  // ---------------------------------------------------------------- the account

  /** `lost` are requests that will never be answered. */
  datatype Desk = Desk(pos: nat, queue: seq<Waiting>, active: Option<nat>, output: seq<Sent>, lost: set<nat>)

  const START := Desk(0, [], None, [], {})

  function Answers(output: seq<Sent>, place: nat): nat {
    if output == [] then 0
    else
      var last := output[|output| - 1];
      Answers(output[..|output| - 1], place) + Unit(last.Answer? && last.place == place)
  }

  function InQueue(queue: seq<Waiting>, place: nat): nat {
    if queue == [] then 0
    else InQueue(queue[..|queue| - 1], place) + Unit(queue[|queue| - 1].place == place)
  }

  function Places(d: Desk, place: nat): nat {
    Answers(d.output, place) + InQueue(d.queue, place) + Unit(d.active == Some(place)) + Unit(place in d.lost)
  }

  function ServedOrder(output: seq<Sent>): seq<nat> {
    if output == [] then []
    else
      var last := output[|output| - 1];
      ServedOrder(output[..|output| - 1]) + if last.Answer? && last.kind == Served then [last.place] else []
  }

  ghost predicate Increasing(s: seq<nat>) {
    forall i, j :: 0 <= i < j < |s| ==> s[i] < s[j]
  }

  ghost predicate Below(s: seq<nat>, bound: nat) {
    forall i :: 0 <= i < |s| ==> s[i] < bound
  }

  /** Every request read so far is in exactly one place; nothing else is in any. */
  ghost predicate Accounted(stream: seq<Packet>, d: Desk) {
    && d.pos <= |stream|
    && forall i: nat :: Places(d, i) == Unit(i < d.pos && IsRequest(stream[i]))
  }

  ghost predicate QueueHolds(stream: seq<Packet>, pos: nat, queue: seq<Waiting>) {
    && pos <= |stream|
    && (forall k :: 0 <= k < |queue| ==> queue[k].place < pos && queue[k].packet == stream[queue[k].place])
    && (forall j, k :: 0 <= j < k < |queue| ==> queue[j].place < queue[k].place)
  }

  /** Served in arrival order, before everything still active or queued. */
  ghost predicate InOrder(d: Desk) {
    && Increasing(ServedOrder(d.output)) && Below(ServedOrder(d.output), d.pos)
    && (d.active.Some? ==> Below(ServedOrder(d.output), d.active.value) && d.active.value < d.pos)
    && (forall k :: 0 <= k < |d.queue| ==> Below(ServedOrder(d.output), d.queue[k].place))
    && (forall k :: 0 <= k < |d.queue| && d.active.Some? ==> d.active.value < d.queue[k].place)
  }

  function Bytes(queue: seq<Waiting>): nat {
    if queue == [] then 0 else Bytes(queue[..|queue| - 1]) + queue[|queue| - 1].packet.size
  }

  /** Every answer has its reason: served under its own id, refused when the queue was full, or
      cancelled by a later message that names it. */
  predicate Reasoned(stream: seq<Packet>, s: Sent) {
    s.Answer? ==>
      && s.place < |stream| && IsRequest(stream[s.place]) && s.id == stream[s.place].message.value.id
      && match s.kind
         case Served => true
         case Full(n, bytes) => n >= MAX_QUEUED || bytes + stream[s.place].size > MAX_QUEUED_BYTES
         case Cancelled(notice) =>
           s.place < notice < |stream| && IsCancel(stream[notice])
           && stream[notice].message.value.params == Target(s.id)
  }

  ghost predicate AllReasoned(stream: seq<Packet>, output: seq<Sent>) {
    forall k :: 0 <= k < |output| ==> Reasoned(stream, output[k])
  }

  ghost predicate Balanced(stream: seq<Packet>, d: Desk) {
    Accounted(stream, d) && QueueHolds(stream, d.pos, d.queue) && InOrder(d)
  }

  // ---------------------------------------------------------------- sums over lists

  lemma AnswersPush(output: seq<Sent>, s: Sent, place: nat)
    ensures Answers(output + [s], place) == Answers(output, place) + Unit(s.Answer? && s.place == place)
    ensures ServedOrder(output + [s]) == ServedOrder(output) + if s.Answer? && s.kind == Served then [s.place] else []
  {
    assert (output + [s])[..|output|] == output;
  }

  lemma QueuePush(queue: seq<Waiting>, w: Waiting, place: nat)
    ensures InQueue(queue + [w], place) == InQueue(queue, place) + Unit(w.place == place)
    ensures Bytes(queue + [w]) == Bytes(queue) + w.packet.size
  {
    assert (queue + [w])[..|queue|] == queue;
  }

  function Without(queue: seq<Waiting>, k: nat): seq<Waiting>
    requires k < |queue|
  {
    queue[..k] + queue[k + 1..]
  }

  lemma {:induction false} QueueDrop(queue: seq<Waiting>, k: nat, place: nat)
    requires k < |queue|
    ensures InQueue(queue, place) == InQueue(Without(queue, k), place) + Unit(queue[k].place == place)
    ensures Bytes(queue) == Bytes(Without(queue, k)) + queue[k].packet.size
  {
    var last := |queue| - 1;
    if k == last {
      assert Without(queue, k) == queue[..last];
    } else {
      QueueDrop(queue[..last], k, place);
      assert Without(queue, k) == Without(queue[..last], k) + [queue[last]];
      QueuePush(Without(queue[..last], k), queue[last], place);
    }
  }

  // ---------------------------------------------------------------- moves

  function Enqueue(stream: seq<Packet>, d: Desk): Desk
    requires d.pos < |stream|
  {
    d.(pos := d.pos + 1, queue := d.queue + [Waiting(d.pos, stream[d.pos])])
  }

  function Refuse(d: Desk, id: string): Desk {
    d.(pos := d.pos + 1, output := d.output + [Answer(d.pos, id, Full(|d.queue|, Bytes(d.queue)))])
  }

  function CancelQueued(d: Desk, k: nat, id: string): Desk
    requires k < |d.queue|
  {
    d.(queue := Without(d.queue, k), output := d.output + [Answer(d.queue[k].place, id, Cancelled(d.pos))])
  }

  function Skip(d: Desk): Desk {
    d.(pos := d.pos + 1)
  }

  function Lose(d: Desk): Desk {
    d.(pos := d.pos + 1, lost := d.lost + {d.pos})
  }

  function Say(d: Desk, s: Sent): Desk {
    d.(output := d.output + [s])
  }

  function StartQueued(d: Desk): Desk
    requires d.queue != []
  {
    d.(queue := d.queue[1..], active := Some(d.queue[0].place))
  }

  function StartRead(d: Desk): Desk {
    d.(pos := d.pos + 1, active := Some(d.pos))
  }

  function Finish(d: Desk, id: string): Desk
    requires d.active.Some?
  {
    d.(active := None, output := d.output + [Answer(d.active.value, id, Served)])
  }

  function Abandon(d: Desk): Desk
    requires d.active.Some?
  {
    d.(active := None, lost := d.lost + {d.active.value})
  }

  lemma EnqueueKeeps(stream: seq<Packet>, d: Desk)
    requires Balanced(stream, d) && d.pos < |stream| && IsRequest(stream[d.pos])
    ensures Balanced(stream, Enqueue(stream, d))
  {
    hide IsRequest, ServedOrder, Answers, InQueue;
    var d' := Enqueue(stream, d);
    forall i: nat ensures Places(d', i) == Unit(i < d'.pos && IsRequest(stream[i])) {
      QueuePush(d.queue, Waiting(d.pos, stream[d.pos]), i);
      assert Places(d, i) == Unit(i < d.pos && IsRequest(stream[i]));
    }
  }

  lemma RefuseKeeps(stream: seq<Packet>, d: Desk, id: string)
    requires Balanced(stream, d) && d.pos < |stream| && IsRequest(stream[d.pos])
    ensures Balanced(stream, Refuse(d, id))
  {
    hide IsRequest, ServedOrder, Answers, InQueue;
    var d' := Refuse(d, id);
    forall i: nat ensures Places(d', i) == Unit(i < d'.pos && IsRequest(stream[i])) {
      AnswersPush(d.output, Answer(d.pos, id, Full(|d.queue|, Bytes(d.queue))), i);
      assert Places(d, i) == Unit(i < d.pos && IsRequest(stream[i]));
    }
    AnswersPush(d.output, Answer(d.pos, id, Full(|d.queue|, Bytes(d.queue))), 0);
  }

  lemma CancelKeeps(stream: seq<Packet>, d: Desk, k: nat, id: string)
    requires Balanced(stream, d) && k < |d.queue|
    ensures Balanced(stream, CancelQueued(d, k, id))
  {
    hide IsRequest, ServedOrder, Answers, InQueue;
    var d' := CancelQueued(d, k, id);
    var s := Answer(d.queue[k].place, id, Cancelled(d.pos));
    forall i: nat ensures Places(d', i) == Unit(i < d'.pos && IsRequest(stream[i])) {
      AnswersPush(d.output, s, i);
      QueueDrop(d.queue, k, i);
      assert Places(d, i) == Unit(i < d.pos && IsRequest(stream[i]));
    }
    AnswersPush(d.output, s, 0);
  }

  lemma SkipKeeps(stream: seq<Packet>, d: Desk)
    requires Balanced(stream, d) && d.pos < |stream| && !IsRequest(stream[d.pos])
    ensures Balanced(stream, Skip(d))
  {
    hide IsRequest, ServedOrder, Answers, InQueue;
    var d' := Skip(d);
    forall i: nat ensures Places(d', i) == Unit(i < d'.pos && IsRequest(stream[i])) {
      assert Places(d, i) == Unit(i < d.pos && IsRequest(stream[i]));
    }
  }

  lemma LoseKeeps(stream: seq<Packet>, d: Desk)
    requires Balanced(stream, d) && d.pos < |stream| && IsRequest(stream[d.pos])
    ensures Balanced(stream, Lose(d))
  {
    hide IsRequest, ServedOrder, Answers, InQueue;
    var d' := Lose(d);
    assert Places(d, d.pos) == 0;
    forall i: nat ensures Places(d', i) == Unit(i < d'.pos && IsRequest(stream[i])) {
      assert Places(d, i) == Unit(i < d.pos && IsRequest(stream[i]));
    }
  }

  lemma PassOverKeeps(stream: seq<Packet>, d: Desk)
    requires Balanced(stream, d) && d.pos < |stream|
    ensures Balanced(stream, GoBy(d, stream[d.pos]))
  {
    hide Balanced, IsRequest;
    if IsRequest(stream[d.pos]) { LoseKeeps(stream, d); } else { SkipKeeps(stream, d); }
  }

  lemma ForgottenIsRequest(p: Packet, activeId: string)
    ensures Forgotten(p, activeId) ==> IsRequest(p)
  {
  }

  lemma SayKeeps(stream: seq<Packet>, d: Desk, s: Sent)
    requires Balanced(stream, d) && !s.Answer?
    ensures Balanced(stream, Say(d, s))
  {
    hide IsRequest, ServedOrder, Answers, InQueue;
    var d' := Say(d, s);
    forall i: nat ensures Places(d', i) == Unit(i < d'.pos && IsRequest(stream[i])) {
      AnswersPush(d.output, s, i);
      assert Places(d, i) == Unit(i < d.pos && IsRequest(stream[i]));
    }
    AnswersPush(d.output, s, 0);
  }

  lemma StartQueuedKeeps(stream: seq<Packet>, d: Desk)
    requires Balanced(stream, d) && d.queue != [] && d.active.None?
    ensures Balanced(stream, StartQueued(d)) && Bytes(StartQueued(d).queue) == Bytes(d.queue) - d.queue[0].packet.size
    ensures d.queue[0].place < |stream| && IsRequest(stream[d.queue[0].place])
  {
    hide IsRequest, ServedOrder, Answers, InQueue, Bytes;
    var d' := StartQueued(d);
    assert Without(d.queue, 0) == d.queue[1..];
    forall i: nat ensures Places(d', i) == Unit(i < d'.pos && IsRequest(stream[i])) {
      QueueDrop(d.queue, 0, i);
      assert Places(d, i) == Unit(i < d.pos && IsRequest(stream[i]));
    }
    QueueDrop(d.queue, 0, d.queue[0].place);
    assert Places(d, d.queue[0].place) == Unit(d.queue[0].place < d.pos && IsRequest(stream[d.queue[0].place]));
  }

  lemma StartReadKeeps(stream: seq<Packet>, d: Desk)
    requires Balanced(stream, d) && d.queue == [] && d.active.None? && d.pos < |stream| && IsRequest(stream[d.pos])
    ensures Balanced(stream, StartRead(d))
  {
    hide IsRequest, ServedOrder, Answers, InQueue;
    var d' := StartRead(d);
    forall i: nat ensures Places(d', i) == Unit(i < d'.pos && IsRequest(stream[i])) {
      assert Places(d, i) == Unit(i < d.pos && IsRequest(stream[i]));
    }
  }

  lemma FinishKeeps(stream: seq<Packet>, d: Desk, id: string)
    requires Balanced(stream, d) && d.active.Some?
    ensures Balanced(stream, Finish(d, id))
  {
    hide IsRequest, ServedOrder, Answers, InQueue;
    var d' := Finish(d, id);
    var s := Answer(d.active.value, id, Served);
    forall i: nat ensures Places(d', i) == Unit(i < d'.pos && IsRequest(stream[i])) {
      AnswersPush(d.output, s, i);
      assert Places(d, i) == Unit(i < d.pos && IsRequest(stream[i]));
    }
    AnswersPush(d.output, s, 0);
  }

  lemma AbandonKeeps(stream: seq<Packet>, d: Desk)
    requires Balanced(stream, d) && d.active.Some?
    ensures Balanced(stream, Abandon(d))
  {
    hide IsRequest, ServedOrder, Answers, InQueue;
    var d' := Abandon(d);
    assert Places(d, d.active.value) <= 1;
    forall i: nat ensures Places(d', i) == Unit(i < d'.pos && IsRequest(stream[i])) {
      assert Places(d, i) == Unit(i < d.pos && IsRequest(stream[i]));
    }
  }

  // ---------------------------------------------------------------- waiting for one reply

  datatype Result = Failed | CallCancelled | Reply(ok: bool)

  function IdOf(w: Waiting): string {
    if w.packet.message.Some? then w.packet.message.value.id else ""
  }

  /** The first queued request with that id. */
  function FirstWith(queue: seq<Waiting>, id: string): (k: Option<nat>)
    ensures k.Some? ==> k.value < |queue| && IdOf(queue[k.value]) == id
    ensures forall j :: 0 <= j < (if k.Some? then k.value else |queue|) ==> IdOf(queue[j]) != id
  {
    FirstFrom(queue, id, 0)
  }

  function FirstFrom(queue: seq<Waiting>, id: string, i: nat): (k: Option<nat>)
    requires i <= |queue|
    ensures k.Some? ==> i <= k.value < |queue| && IdOf(queue[k.value]) == id
    ensures forall j :: i <= j < (if k.Some? then k.value else |queue|) ==> IdOf(queue[j]) != id
    decreases |queue| - i
  {
    if i == |queue| then None else if IdOf(queue[i]) == id then Some(i) else FirstFrom(queue, id, i + 1)
  }

  function TargetOf(m: Message): string {
    if m.params.Target? then m.params.id else ""
  }

  predicate Crowded(d: Desk, p: Packet) {
    |d.queue| >= MAX_QUEUED || Bytes(d.queue) + p.size > MAX_QUEUED_BYTES
  }

  /** The message goes by: what it was is forgotten, and if it was a request, so is that. */
  function GoBy(d: Desk, p: Packet): Desk {
    if IsRequest(p) then Lose(d) else Skip(d)
  }

  /** A cancellation strikes the first queued request with that id, and answers it. */
  function Struck(d: Desk, id: string): Desk {
    var k := FirstWith(d.queue, id);
    if k.Some? then CancelQueued(d, k.value, id) else d
  }

  function Admitted(stream: seq<Packet>, d: Desk): Desk
    requires d.pos < |stream| && IsRequest(stream[d.pos])
  {
    if Crowded(d, stream[d.pos]) then Refuse(d, stream[d.pos].message.value.id) else Enqueue(stream, d)
  }

  /** Keep a request for later; the reply that is waited for ends the wait; nothing else matters. */
  function Heed(stream: seq<Packet>, d: Desk, wanted: string): (Desk, Option<Result>)
    requires d.pos < |stream| && stream[d.pos].message.Some?
  {
    var m := stream[d.pos].message.value;
    if IsRequest(stream[d.pos]) then (Admitted(stream, d), None)
    else if m.verb != "" || m.id != wanted then (Skip(d), None)
    else (Skip(d), Some(Reply(m.ok)))
  }

  /** What one message does to a call waiting for the reply `wanted`, and whether it ends the wait. */
  function Absorb(stream: seq<Packet>, d: Desk, activeId: string, wanted: string): (Desk, Option<Result>)
    requires d.pos < |stream|
  {
    var p := stream[d.pos];
    if p.message.None? then (Skip(d), Some(Failed))
    else
      var m := p.message.value;
      if IsCancel(p) && m.params.Undecodable? then (GoBy(d, p), Some(Failed))
      else if IsCancel(p) && TargetOf(m) == activeId then (GoBy(d, p), Some(CallCancelled))
      else
        Heed(stream, if IsCancel(p) then Struck(d, TargetOf(m)) else d, wanted)
  }

  /** The wait as a whole, while writing works. */
  function Await(stream: seq<Packet>, d: Desk, activeId: string, wanted: string): (Desk, Result)
    decreases |stream| - d.pos
  {
    if d.pos >= |stream| then (d, Failed)
    else
      var (d', result) := Absorb(stream, d, activeId, wanted);
      if result.Some? then (d', result.value) else Await(stream, d', activeId, wanted)
  }

  /** A message that is both a cancellation and a request. The two meet only in a malformed
      message: a notification has no id. */
  predicate Confused(p: Packet) {
    IsRequest(p) && IsCancel(p)
  }

  /** A message read while the call `activeId` waits is forgotten: it is a request, it is also a
      cancellation, and it either cannot be decoded or cancels the very call that waits. */
  predicate Forgotten(p: Packet, activeId: string) {
    Confused(p) && (p.message.value.params.Undecodable? || TargetOf(p.message.value) == activeId)
  }

  /** Such a message can be forgotten: when it cancels the call that waits, nothing answers it. */
  lemma ConfusedIsForgotten()
    ensures var p := Packet(9, Some(Message("notifications/cancelled", "7", Target("1"), false)));
      Absorb([p], Desk(0, [], None, [], {}), "1", "cap") == (Desk(1, [], None, [], {0}), Some(CallCancelled))
  {
    var p := Packet(9, Some(Message("notifications/cancelled", "7", Target("1"), false)));
    assert IsCancel(p) && IsRequest(p) && {} + {0} == {0};
    assert GoBy(Desk(0, [], None, [], {}), p) == Desk(1, [], None, [], {0});
  }

  /** Exactly those messages are forgotten. */
  lemma ForgottenExactly(stream: seq<Packet>, d: Desk, activeId: string, wanted: string)
    requires d.pos < |stream| && d.pos !in d.lost
    ensures Absorb(stream, d, activeId, wanted).0.lost
         == if Forgotten(stream[d.pos], activeId) then d.lost + {d.pos} else d.lost
  {
  }

  /** Once everything is read and nothing waits, every request has been answered exactly once,
      except the forgotten ones, and nothing else was answered. */
  lemma AllAnswered(stream: seq<Packet>, d: Desk)
    requires Balanced(stream, d) && d.pos == |stream| && d.queue == [] && d.active.None?
    ensures forall i :: 0 <= i < |stream| ==> Answers(d.output, i) == Unit(IsRequest(stream[i]) && i !in d.lost)
    ensures Increasing(ServedOrder(d.output))
  {
    hide IsRequest, Answers, ServedOrder;
    forall i | 0 <= i < |stream| ensures Answers(d.output, i) == Unit(IsRequest(stream[i]) && i !in d.lost) {
      assert Places(d, i) == Unit(IsRequest(stream[i]));
    }
  }

  // ---------------------------------------------------------------- steps of a wait

  lemma AwaitStep(stream: seq<Packet>, d: Desk, activeId: string, wanted: string)
    requires d.pos < |stream|
    ensures var (d', r) := Absorb(stream, d, activeId, wanted);
      Await(stream, d, activeId, wanted) == if r.Some? then (d', r.value) else Await(stream, d', activeId, wanted)
  {
    hide Absorb;
  }

  lemma AwaitEnd(stream: seq<Packet>, d: Desk, activeId: string, wanted: string)
    requires d.pos >= |stream|
    ensures Await(stream, d, activeId, wanted) == (d, Failed)
  {
  }

  lemma PosBound(stream: seq<Packet>, d: Desk)
    requires Balanced(stream, d)
    ensures d.pos <= |stream|
  {
  }

  lemma ServedInOrder(stream: seq<Packet>, d: Desk)
    requires Balanced(stream, d)
    ensures Increasing(ServedOrder(d.output))
  {
  }

  lemma HeadHeld(stream: seq<Packet>, d: Desk)
    requires Balanced(stream, d) && d.queue != []
    ensures d.queue[0].place < |stream| && d.queue[0].packet == stream[d.queue[0].place]
  {
  }

  // ---------------------------------------------------------------- reasons

  lemma PlainReasoned(stream: seq<Packet>, output: seq<Sent>)
    requires AllReasoned(stream, output)
    ensures AllReasoned(stream, output + [NotJson])
  {
  }

  lemma AskReasoned(stream: seq<Packet>, output: seq<Sent>, id: string)
    requires AllReasoned(stream, output)
    ensures AllReasoned(stream, output + [Ask(id)])
  {
  }

  lemma ServedReasoned(stream: seq<Packet>, output: seq<Sent>, place: nat, id: string)
    requires AllReasoned(stream, output) && place < |stream|
    requires IsRequest(stream[place]) && id == stream[place].message.value.id
    ensures AllReasoned(stream, output + [Answer(place, id, Served)])
  {
  }

  lemma RefusedReasoned(stream: seq<Packet>, d: Desk)
    requires AllReasoned(stream, d.output) && d.pos < |stream| && IsRequest(stream[d.pos])
    ensures Crowded(d, stream[d.pos]) ==> AllReasoned(stream, Refuse(d, stream[d.pos].message.value.id).output)
  {
    hide IsRequest, IsCancel, Bytes;
  }

  /** What is queued is a request. */
  lemma QueuedIsRequest(stream: seq<Packet>, d: Desk, k: nat)
    requires Balanced(stream, d) && k < |d.queue|
    ensures d.queue[k].place < d.pos <= |stream| && IsRequest(stream[d.queue[k].place])
    ensures d.queue[k].packet == stream[d.queue[k].place]
  {
    hide IsRequest, Answers, InQueue, ServedOrder;
    QueueDrop(d.queue, k, d.queue[k].place);
    assert Places(d, d.queue[k].place) == Unit(d.queue[k].place < d.pos && IsRequest(stream[d.queue[k].place]));
  }

  lemma StruckReasoned(stream: seq<Packet>, d: Desk, k: nat, id: string)
    requires Balanced(stream, d) && AllReasoned(stream, d.output) && d.pos < |stream| && k < |d.queue|
    requires IsCancel(stream[d.pos]) && id == TargetOf(stream[d.pos].message.value) && IdOf(d.queue[k]) == id
    ensures AllReasoned(stream, CancelQueued(d, k, id).output)
  {
    hide Balanced;
    QueuedIsRequest(stream, d, k);
  }
}
