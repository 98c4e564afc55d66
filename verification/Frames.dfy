/** The CAD server's transport: reading newline-terminated request frames out of a buffered
    reader, and answering them one by one. The specification is the plain newline split of the
    whole stream. */
module Frames {
  type Byte = b: int | 0 <= b < 256

  const NEWLINE: Byte := 10
  const RETURN: Byte := 13
  const MAX_FRAME_BYTES := 16 * 1024 * 1024

  // ---------------------------------------------------------------- the newline split

  predicate Pure(s: seq<Byte>) {
    NEWLINE !in s
  }

  /** How many bytes come before the first newline. */
  function LineLength(s: seq<Byte>): (n: nat)
    ensures n <= |s| && Pure(s[..n])
    ensures n < |s| ==> s[n] == NEWLINE
  {
    if s == [] || s[0] == NEWLINE then 0
    else
      assert s[..1 + LineLength(s[1..])] == [s[0]] + s[1..][..LineLength(s[1..])];
      1 + LineLength(s[1..])
  }

  lemma {:induction false} LineLengthIs(s: seq<Byte>, n: nat)
    requires n <= |s| && Pure(s[..n]) && (n < |s| ==> s[n] == NEWLINE)
    ensures LineLength(s) == n
  {
    if n > 0 {
      assert s[0] == s[..n][0] && s[1..][..n - 1] == s[..n][1..];
      LineLengthIs(s[1..], n - 1);
    }
  }

  /** The pieces between newlines; the last one is what no newline has ended yet. */
  function Split(s: seq<Byte>): (pieces: seq<seq<Byte>>)
    ensures |pieces| > 0
    decreases |s|
  {
    var n := LineLength(s);
    if n == |s| then [s] else [s[..n]] + Split(s[n + 1..])
  }

  function Join(pieces: seq<seq<Byte>>): seq<Byte>
    requires |pieces| > 0
  {
    if |pieces| == 1 then pieces[0] else pieces[0] + [NEWLINE] + Join(pieces[1..])
  }

  lemma AfterNewline(s: seq<Byte>, p: seq<Byte>, tail: seq<Byte>)
    requires s == p + [NEWLINE] + tail && Pure(p)
    ensures Split(s) == [p] + Split(tail)
  {
    assert s[..|p|] == p && s[|p|] == NEWLINE && s[|p| + 1..] == tail;
    LineLengthIs(s, |p|);
  }

  lemma NoNewline(s: seq<Byte>)
    requires Pure(s)
    ensures Split(s) == [s]
  {
    assert s[..|s|] == s;
    LineLengthIs(s, |s|);
  }

  /** The split loses nothing and leaves no newline in a piece ... */
  lemma {:induction false} SplitIsFaithful(s: seq<Byte>)
    ensures Join(Split(s)) == s && forall p :: p in Split(s) ==> Pure(p)
    decreases |s|
  {
    hide Pure;
    var n := LineLength(s);
    if n < |s| {
      SplitIsFaithful(s[n + 1..]);
      assert s == s[..n] + [NEWLINE] + s[n + 1..];
    } else {
      assert s[..n] == s;
    }
  }

  /** ... and is the only way to cut the stream like that. */
  lemma {:induction false} SplitIsUnique(pieces: seq<seq<Byte>>)
    requires |pieces| > 0 && forall p :: p in pieces ==> Pure(p)
    ensures Split(Join(pieces)) == pieces
  {
    hide Pure, Split;
    if |pieces| == 1 {
      NoNewline(pieces[0]);
    } else {
      SplitIsUnique(pieces[1..]);
      AfterNewline(Join(pieces), pieces[0], Join(pieces[1..]));
    }
  }

  // ---------------------------------------------------------------- one frame

  datatype Frame = Line(bytes: seq<Byte>) | Oversized

  /** At most one carriage return is cut from the end. */
  function Strip(p: seq<Byte>): seq<Byte> {
    if |p| > 0 && p[|p| - 1] == RETURN then p[..|p| - 1] else p
  }

  function Judge(p: seq<Byte>): Frame {
    if |Strip(p)| > MAX_FRAME_BYTES then Oversized else Line(Strip(p))
  }

  /** What a frame has of the piece it came from: all of it but one carriage return at the end, or
      nothing when that is more than 16 MiB. */
  predicate FrameOf(p: seq<Byte>, frame: Frame) {
    var returned := p != [] && p[|p| - 1] == RETURN;
    match frame
    case Line(bytes) => |bytes| <= 0x100_0000 && p == if returned then bytes + [RETURN] else bytes
    case Oversized => |p| > if returned then 0x100_0001 else 0x100_0000
  }

  /** The judgement is that frame and no other. */
  lemma JudgeIs(p: seq<Byte>, frame: Frame)
    ensures FrameOf(p, frame) <==> frame == Judge(p)
  {
    if frame.Line? && p == frame.bytes + [RETURN] {
      assert p[..|p| - 1] == frame.bytes;
    }
  }

  datatype Outcome = Open | Ended | Failed | Cancelled

  /** The buffered reader: what is still to come, and how the stream ends. */
  class Reader {
    var rest: seq<Byte>
    const fails: bool

    constructor (stream: seq<Byte>, fails: bool)
      ensures rest == stream && this.fails == fails
    {
      rest, this.fails := stream, fails;
    }

    /** Up to and including the newline; or a full buffer without one, of whatever size; or
        the last bytes with the error that ended the stream. */
    method ReadSlice() returns (part: seq<Byte>, full: bool, end: bool)
      modifies this`rest
      ensures part + rest == old(rest) && !(full && end)
      ensures full ==> |part| > 0 && Pure(part)
      ensures end ==> Pure(part) && rest == []
      ensures !full && !end ==> |part| > 0 && Pure(part[..|part| - 1]) && part[|part| - 1] == NEWLINE
    {
      var room: nat :| room > 0;
      var n := LineLength(rest);
      full, end := false, false;
      if n < |rest| && n < room {
        part := rest[..n + 1];
        assert part[..n] == rest[..n];
        rest := rest[n + 1..];
      } else if room <= n {
        full := true;
        part := rest[..room];
        assert part == rest[..n][..room];
        rest := rest[room..];
      } else {
        end := true;
        part := rest;
        assert rest[..n] == rest;
        rest := [];
      }
    }
  }

  lemma PureJoin(a: seq<Byte>, b: seq<Byte>)
    requires Pure(a) && Pure(b)
    ensures Pure(a + b)
  {
  }

  /** A piece too long for the buffer is too long however it ends. */
  lemma LongIsOversized(p: seq<Byte>)
    requires |p| > MAX_FRAME_BYTES + 1
    ensures Judge(p) == Oversized
  {
  }

  /** One frame: the next piece of the split, judged after its carriage return is cut. `polls` is
      how often the context still answers that it is alive; `peak` is the most the line buffer
      ever held room for. */
  method ReadRequestFrame(r: Reader, polls: nat) returns (frame: Frame, outcome: Outcome, left: nat, ghost peak: nat)
    modifies r`rest
    ensures outcome != Cancelled ==> frame == Judge(Split(old(r.rest))[0])
    ensures outcome != Cancelled ==> FrameOf(Split(old(r.rest))[0], frame)
    ensures outcome == Open ==> [Split(old(r.rest))[0]] + Split(r.rest) == Split(old(r.rest))
    ensures outcome == Open ==> |r.rest| < |old(r.rest)|
    ensures outcome == Ended || outcome == Failed ==> |Split(old(r.rest))| == 1 && r.rest == []
    ensures (outcome == Ended ==> !r.fails) && (outcome == Failed ==> r.fails)
    ensures peak <= MAX_FRAME_BYTES + 1 && left <= polls
    ensures outcome == Cancelled ==> left == 0
  {
    hide Split, Judge, Pure, FrameOf;
    var line: seq<Byte>, capacity: nat, oversized := [], 0, false;
    frame, left, peak := Line([]), polls, 0;
    ghost var seen: seq<Byte> := [];
    NothingPure();
    while true
      invariant left <= polls && seen + r.rest == old(r.rest) && Pure(seen)
      invariant |line| <= capacity <= MAX_FRAME_BYTES + 1 && capacity <= peak <= MAX_FRAME_BYTES + 1
      invariant if oversized then |seen| > MAX_FRAME_BYTES + 1 else line == seen
      decreases |r.rest|
    {
      if left == 0 {
        return Line([]), Cancelled, 0, peak;
      }
      left := left - 1;
      var part, full, end := r.ReadSlice();
      var terminated := |part| > 0 && part[|part| - 1] == NEWLINE;
      EndsWithNewline(part, full, end);
      ghost var taken := part;
      if terminated {
        part := part[..|part| - 1];
        assert taken == part + [NEWLINE];
      }
      PureJoin(seen, part);
      if !oversized {
        var needed := |line| + |part|;
        if needed > MAX_FRAME_BYTES + 1 {
          line, capacity, oversized := [], 0, true;
        } else {
          if needed > capacity {
            capacity := Larger(needed, Smaller(MAX_FRAME_BYTES + 1, Larger(4096, 2 * capacity)));
            peak := Larger(peak, capacity);
          }
          line := line + part;
        }
      }
      seen := seen + part;
      if terminated || !full {
        line := Strip(line);
        if |line| > MAX_FRAME_BYTES {
          line, oversized := [], true;
        }
        frame := if oversized then Oversized else Line(line);
        JudgeLine(seen, frame);
        JudgeIs(seen, frame);
        outcome := if terminated then Open else if r.fails then Failed else Ended;
        if terminated {
          AfterNewline(old(r.rest), seen, r.rest);
        } else {
          assert seen == old(r.rest);
          NoNewline(seen);
        }
        return;
      }
    }
  }

  function Larger(a: nat, b: nat): nat {
    if a < b then b else a
  }

  function Smaller(a: nat, b: nat): nat {
    if b < a then b else a
  }

  lemma NothingPure()
    ensures Pure([])
  {
  }

  lemma EndsWithNewline(part: seq<Byte>, full: bool, end: bool)
    requires full || end ==> Pure(part)
    requires !full && !end ==> |part| > 0 && Pure(part[..|part| - 1]) && part[|part| - 1] == NEWLINE
    ensures (|part| > 0 && part[|part| - 1] == NEWLINE) <==> !full && !end
  {
  }

  /** Judging as the reader does: give up early on a piece that is too long, else strip and
      measure. */
  lemma JudgeLine(seen: seq<Byte>, frame: Frame)
    requires frame
          == if |seen| > MAX_FRAME_BYTES + 1 || |Strip(seen)| > MAX_FRAME_BYTES then Oversized else Line(Strip(seen))
    ensures frame == Judge(seen)
  {
    if |seen| > MAX_FRAME_BYTES + 1 { LongIsOversized(seen); }
  }

  // ---------------------------------------------------------------- serving a stream

  /** What a request line asks for: nothing that parses, a request, or the end of serving. */
  datatype Request = Malformed | Ordinary | Last

  datatype Answer = TooLong | ParseError | Dispatched(line: seq<Byte>)

  function Answered(piece: seq<Byte>, parse: seq<Byte> -> Request): seq<Answer> {
    match Judge(piece)
    case Oversized => [TooLong]
    case Line(bytes) =>
      if bytes == [] then []
      else match parse(bytes)
        case Malformed => [ParseError]
        case _ => [Dispatched(bytes)]
  }

  predicate Stops(piece: seq<Byte>, parse: seq<Byte> -> Request) {
    Judge(piece).Line? && Judge(piece).bytes != [] && parse(Judge(piece).bytes) == Last
  }

  /** The answers to a list of pieces, up to the request that ends serving. */
  function Answers(pieces: seq<seq<Byte>>, parse: seq<Byte> -> Request): seq<Answer> {
    if pieces == [] then []
    else if Stops(pieces[0], parse) then Answered(pieces[0], parse)
    else Answered(pieces[0], parse) + Answers(pieces[1..], parse)
  }

  lemma AnswersCons(piece: seq<Byte>, more: seq<seq<Byte>>, parse: seq<Byte> -> Request)
    ensures Answers([piece] + more, parse)
         == if Stops(piece, parse) then Answered(piece, parse) else Answered(piece, parse) + Answers(more, parse)
  {
    hide Answered, Stops;
    assert ([piece] + more)[1..] == more;
  }

  /** Serving a whole stream answers the pieces of its newline split, one by one and in order:
      all of them when the stream ends, all but the unfinished last one when reading fails, and a
      first part of them when the context was cancelled. */
  method Serve(r: Reader, parse: seq<Byte> -> Request, polls: nat) returns (out: seq<Answer>, outcome: Outcome)
    modifies r`rest
    ensures outcome == Ended || outcome == Open ==> out == Answers(Split(old(r.rest)), parse)
    ensures var pieces := Split(old(r.rest)); outcome == Failed ==> out == Answers(pieces[..|pieces| - 1], parse)
    ensures outcome == Cancelled ==> out <= Answers(Split(old(r.rest)), parse)
  {
    hide Split, Judge, Answers;
    out := [];
    var left := polls;
    ghost var stream := Split(r.rest);
    ghost var done: seq<seq<Byte>> := [];
    NoAnswers(parse);
    while true
      invariant done + Split(r.rest) == stream
      invariant forall more :: Answers(done + more, parse) == out + Answers(more, parse)
      decreases |r.rest|
    {
      ghost var pieces := Split(r.rest);
      var frame;
      ghost var peak;
      frame, outcome, left, peak := ReadRequestFrame(r, left);
      if outcome == Cancelled {
        assert Answers(done + pieces, parse) == out + Answers(pieces, parse);
        return;
      }
      if outcome == Failed {
        assert stream[..|stream| - 1] == done + [];
        assert out + [] == out;
        return;
      }
      var stop := false;
      ghost var before := out;
      if frame == Oversized {
        out := out + [TooLong];
      } else if |frame.bytes| > 0 {
        match parse(frame.bytes) {
          case Malformed => out := out + [ParseError];
          case Ordinary => out := out + [Dispatched(frame.bytes)];
          case Last => out := out + [Dispatched(frame.bytes)]; stop := true;
        }
      }
      assert out == before + Answered(pieces[0], parse) && stop == Stops(pieces[0], parse);
      OneMore(done, pieces[0], before, parse);
      if stop || outcome == Ended {
        Finish(done, pieces, stream, before, out, parse, stop, outcome == Ended);
        outcome := if stop then Open else Ended;
        return;
      }
      assert done + [pieces[0]] + Split(r.rest) == done + pieces;
      done := done + [pieces[0]];
    }
  }

  lemma NoAnswers(parse: seq<Byte> -> Request)
    ensures Answers([], parse) == []
    ensures forall more :: Answers([] + more, parse) == [] + Answers(more, parse)
  {
    forall more: seq<seq<Byte>> ensures Answers([] + more, parse) == [] + Answers(more, parse) {
      assert [] + more == more;
    }
  }

  lemma OneMore(done: seq<seq<Byte>>, piece: seq<Byte>, before: seq<Answer>, parse: seq<Byte> -> Request)
    requires forall more :: Answers(done + more, parse) == before + Answers(more, parse)
    ensures !Stops(piece, parse) ==>
      forall more :: Answers(done + [piece] + more, parse) == before + Answered(piece, parse) + Answers(more, parse)
    ensures Stops(piece, parse) ==>
      forall more :: Answers(done + ([piece] + more), parse) == before + Answered(piece, parse)
  {
    hide Answers, Stops, Answered;
    forall more: seq<seq<Byte>>
      ensures Answers(done + ([piece] + more), parse)
           == before + if Stops(piece, parse) then Answered(piece, parse)
             else Answered(piece, parse) + Answers(more, parse)
      ensures done + ([piece] + more) == done + [piece] + more
    {
      AnswersCons(piece, more, parse);
      assert done + ([piece] + more) == done + [piece] + more;
    }
  }

  lemma Finish(done: seq<seq<Byte>>, pieces: seq<seq<Byte>>, stream: seq<seq<Byte>>, before: seq<Answer>,
               out: seq<Answer>, parse: seq<Byte> -> Request, stop: bool, ended: bool)
    requires |pieces| > 0 && done + pieces == stream && out == before + Answered(pieces[0], parse)
    requires stop == Stops(pieces[0], parse) && (stop || ended) && (ended ==> |pieces| == 1)
    requires forall more :: Answers(done + more, parse) == before + Answers(more, parse)
    ensures out == Answers(stream, parse)
  {
    hide Answers, Stops, Answered;
    assert pieces == [pieces[0]] + pieces[1..];
    AnswersCons(pieces[0], pieces[1..], parse);
    if !stop {
      assert pieces[1..] == [];
      NoAnswers(parse);
      assert Answered(pieces[0], parse) + [] == Answered(pieces[0], parse);
    }
  }

  // ---------------------------------------------------------------- requests as they are written

  /** The answer to one request line, told from its own bytes. */
  function Reply(body: seq<Byte>, parse: seq<Byte> -> Request): seq<Answer> {
    if |body| > 0x100_0000 then [TooLong]
    else if body == [] then []
    else if parse(body) == Malformed then [ParseError]
    else [Dispatched(body)]
  }

  function Replies(bodies: seq<seq<Byte>>, parse: seq<Byte> -> Request): seq<Answer> {
    if bodies == [] then []
    else
      var last := 0 < |bodies[0]| <= 0x100_0000 && parse(bodies[0]) == Last;
      Reply(bodies[0], parse) + if last then [] else Replies(bodies[1..], parse)
  }

  /** A line may be written with a carriage return or without; it has neither a newline in it nor a
      carriage return of its own at the end. */
  ghost predicate Writable(body: seq<Byte>) {
    Pure(body) && (body != [] ==> body[|body| - 1] != RETURN)
  }

  function Written(bodies: seq<seq<Byte>>, crs: seq<bool>): seq<seq<Byte>>
    requires |crs| == |bodies|
  {
    if bodies == [] then [[]]
    else [bodies[0] + if crs[0] then [RETURN] else []] + Written(bodies[1..], crs[1..])
  }

  lemma PieceAnswered(body: seq<Byte>, returned: bool, parse: seq<Byte> -> Request)
    requires Writable(body)
    ensures var piece := body + if returned then [RETURN] else [];
      && Pure(piece) && Answered(piece, parse) == Reply(body, parse)
      && (Stops(piece, parse) <==> 0 < |body| <= 0x100_0000 && parse(body) == Last)
  {
    var piece := body + if returned then [RETURN] else [];
    JudgeIs(piece, if |body| > 0x100_0000 then Oversized else Line(body));
    hide Judge;
  }

  lemma EmptyPiece(parse: seq<Byte> -> Request)
    ensures Pure([]) && Answers([[]], parse) == []
  {
    var none: seq<Byte> := [];
    assert Writable(none) && none + [] == none;
    PieceAnswered(none, false, parse);
    AnswersCons(none, [], parse);
  }

  lemma {:induction false} WrittenAnswered(bodies: seq<seq<Byte>>, crs: seq<bool>, parse: seq<Byte> -> Request)
    requires |crs| == |bodies| && forall b :: b in bodies ==> Writable(b)
    ensures var pieces := Written(bodies, crs);
      && |pieces| > 0 && (forall p :: p in pieces ==> Pure(p)) && Answers(pieces, parse) == Replies(bodies, parse)
  {
    hide Answered, Stops, Pure, Reply, Writable;
    if bodies == [] {
      EmptyPiece(parse);
    } else {
      PieceAnswered(bodies[0], crs[0], parse);
      WrittenAnswered(bodies[1..], crs[1..], parse);
      AnswersCons(bodies[0] + if crs[0] then [RETURN] else [], Written(bodies[1..], crs[1..]), parse);
    }
  }

  /** Requests written one to a line are answered as written, in order and up to the one that ends
      serving, whichever way each line ends. */
  lemma ServedAsWritten(bodies: seq<seq<Byte>>, crs: seq<bool>, parse: seq<Byte> -> Request)
    requires |crs| == |bodies| && forall b :: b in bodies ==> Writable(b)
    ensures |Written(bodies, crs)| > 0
    ensures Answers(Split(Join(Written(bodies, crs))), parse) == Replies(bodies, parse)
  {
    hide Answers, Split, Join, Pure, Writable, Written;
    WrittenAnswered(bodies, crs, parse);
    SplitIsUnique(Written(bodies, crs));
  }
}
