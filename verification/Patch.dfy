/** JSON documents and JSON Patch (RFC 6902, section 4), with paths read as RFC 6901 says. */
module Patch {
  import opened Common
  import opened Pointer

  datatype Json =
    | Null
    | Bool(b: bool)
    | Num(n: real)
    | Str(s: string)
    | Arr(items: seq<Json>)
    | Obj(fields: map<string, Json>)

  datatype Change = Add(value: Json) | Replace(value: Json) | Remove

  datatype Op = Edit(path: string, change: Change) | Move(from: string, path: string)

  // ---------------------------------------------------------------- sequences

  function InsertAt<T>(s: seq<T>, i: nat, v: T): seq<T>
    requires i <= |s|
  {
    s[..i] + [v] + s[i..]
  }

  function RemoveAt<T>(s: seq<T>, i: nat): seq<T>
    requires i < |s|
  {
    s[..i] + s[i + 1..]
  }

  // ---------------------------------------------------------------- looking up

  function Child(doc: Json, t: string): Option<Json> {
    match doc
    case Obj(fields) => if t in fields then Some(fields[t]) else None
    case Arr(items) =>
      var i := ArrayIndex(t);
      if i.Some? && i.value < |items| then Some(items[i.value]) else None
    case _ => None
  }

  function Get(doc: Json, tokens: seq<string>): Option<Json> {
    if tokens == [] then Some(doc)
    else
      match Child(doc, tokens[0])
      case None => None
      case Some(c) => Get(c, tokens[1..])
  }

  // ---------------------------------------------------------------- changing

  /** The change made at one member of an object or one place of an array. */
  function ChangeMember(doc: Json, t: string, ch: Change): Option<Json> {
    match doc
    case Obj(fields) =>
      if ch.Add? then Some(Obj(fields[t := ch.value]))
      else if t !in fields then None
      else if ch.Replace? then Some(Obj(fields[t := ch.value]))
      else Some(Obj(fields - {t}))
    case Arr(items) =>
      if ch.Add? && t == "-" then Some(Arr(items + [ch.value]))
      else
        var i := ArrayIndex(t);
        if i.None? then None
        else if ch.Add? then if i.value <= |items| then Some(Arr(InsertAt(items, i.value, ch.value))) else None
        else if i.value >= |items| then None
        else if ch.Replace? then Some(Arr(items[i.value := ch.value]))
        else Some(Arr(RemoveAt(items, i.value)))
    case _ => None
  }

  function ChangeAt(doc: Json, tokens: seq<string>, ch: Change): Option<Json> {
    if tokens == [] then if ch.Remove? then None else Some(ch.value)
    else if |tokens| == 1 then ChangeMember(doc, tokens[0], ch)
    else
      match Child(doc, tokens[0])
      case None => None
      case Some(c) =>
        match ChangeAt(c, tokens[1..], ch)
        case None => None
        case Some(c') => ChangeMember(doc, tokens[0], Replace(c'))
  }

  function Apply(doc: Json, op: Op): Option<Json> {
    match op
    case Edit(path, ch) =>
      var tokens := Tokens(path);
      if tokens.None? then None else ChangeAt(doc, tokens.value, ch)
    case Move(from, path) =>
      var source, target := Tokens(from), Tokens(path);
      if source.None? || target.None? || source.value < target.value then None
      else
        var v := Get(doc, source.value);
        if v.None? then None
        else
          match ChangeAt(doc, source.value, Remove)
          case None => None
          case Some(doc') => ChangeAt(doc', target.value, Add(v.value))
  }

  /** All operations, or none. */
  function ApplyAll(doc: Json, ops: seq<Op>): Option<Json>
    decreases |ops|
  {
    if ops == [] then Some(doc)
    else
      match Apply(doc, ops[0])
      case None => None
      case Some(doc') => ApplyAll(doc', ops[1..])
  }

  lemma ApplyOne(doc: Json, op: Op)
    ensures ApplyAll(doc, [op]) == Apply(doc, op)
  {
    hide Apply;
    assert [op][1..] == [];
  }

  // ---------------------------------------------------------------- the builder

  datatype Sent = EmptyPatch | AlreadySent | Dispatched(ops: seq<Op>)

  /** Collects operations and hands them over once. */
  class PatchBuilder {
    var ops: seq<Op>
    var sent: bool

    constructor ()
      ensures ops == [] && !sent
    {
      ops, sent := [], false;
    }

    method Push(op: Op)
      modifies this`ops
      ensures ops == old(ops) + [op]
    {
      ops := ops + [op];
    }

    method Send() returns (result: Sent)
      modifies this`sent
      ensures result == if old(sent) then AlreadySent else if ops == [] then EmptyPatch else Dispatched(ops)
      ensures sent == (old(sent) || ops != [])
    {
      if sent {
        return AlreadySent;
      }
      if ops == [] {
        return EmptyPatch;
      }
      sent := true;
      result := Dispatched(ops);
    }
  }
}
