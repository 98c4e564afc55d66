/** Laws of looking up and changing one place of a document, and a patch confined to one part of
    it. */
module Lenses {
  import opened Common
  import opened Pointer
  import opened Patch

  lemma MemberPutGet(doc: Json, t: string, v: Json)
    requires Child(doc, t).Some?
    ensures ChangeMember(doc, t, Replace(v)).Some?
    ensures var doc' := ChangeMember(doc, t, Replace(v)).value;
      Child(doc', t) == Some(v) && forall w :: ChangeMember(doc', t, Replace(w)) == ChangeMember(doc, t, Replace(w))
    ensures ChangeMember(doc, t, Replace(Child(doc, t).value)) == Some(doc)
  {
    var doc' := ChangeMember(doc, t, Replace(v)).value;
    hide ArrayIndex;
    forall w ensures ChangeMember(doc', t, Replace(w)) == ChangeMember(doc, t, Replace(w)) {
      match doc {
        case Obj(fields) => assert fields[t := v][t := w] == fields[t := w];
        case Arr(items) =>
          assert items[ArrayIndex(t).value := v][ArrayIndex(t).value := w] == items[ArrayIndex(t).value := w];
      }
    }
    match doc {
      case Obj(fields) => assert fields[t := fields[t]] == fields;
      case Arr(items) => assert items[ArrayIndex(t).value := items[ArrayIndex(t).value]] == items;
    }
  }

  /** What is put at a place is found there. */
  lemma {:induction false} PutGet(doc: Json, p: seq<string>, v: Json)
    requires Get(doc, p).Some?
    ensures ChangeAt(doc, p, Replace(v)).Some? && Get(ChangeAt(doc, p, Replace(v)).value, p) == Some(v)
    decreases |p|
  {
    hide ChangeMember, Child;
    if |p| == 1 {
      MemberPutGet(doc, p[0], v);
    } else if |p| > 1 {
      var c := Child(doc, p[0]).value;
      PutGet(c, p[1..], v);
      MemberPutGet(doc, p[0], ChangeAt(c, p[1..], Replace(v)).value);
    }
  }

  /** Putting back what is there changes nothing. */
  lemma {:induction false} GetPut(doc: Json, p: seq<string>)
    requires Get(doc, p).Some?
    ensures ChangeAt(doc, p, Replace(Get(doc, p).value)) == Some(doc)
    decreases |p|
  {
    hide ChangeMember, Child;
    if |p| >= 1 {
      var c := Child(doc, p[0]).value;
      MemberPutGet(doc, p[0], c);
      if |p| > 1 { GetPut(c, p[1..]); }
    }
  }

  /** The second of two puts at one place is what counts. */
  lemma {:induction false} PutPut(doc: Json, p: seq<string>, v: Json, w: Json)
    requires Get(doc, p).Some? && ChangeAt(doc, p, Replace(v)).Some?
    ensures ChangeAt(ChangeAt(doc, p, Replace(v)).value, p, Replace(w)) == ChangeAt(doc, p, Replace(w))
    decreases |p|
  {
    hide ChangeMember, Child;
    if |p| == 1 {
      MemberPutGet(doc, p[0], v);
    } else if |p| > 1 {
      var c := Child(doc, p[0]).value;
      PutPut(c, p[1..], v, w);
      MemberPutGet(doc, p[0], ChangeAt(c, p[1..], Replace(v)).value);
    }
  }

  /** A change further down is a change of the part, put back. */
  lemma {:induction false} ChangeUnder(doc: Json, p: seq<string>, rest: seq<string>, ch: Change)
    requires Get(doc, p).Some? && rest != []
    ensures ChangeAt(doc, p + rest, ch)
         == (match ChangeAt(Get(doc, p).value, rest, ch) case None => None case Some(c) => ChangeAt(doc, p, Replace(c)))
    decreases |p|
  {
    hide ChangeMember, Child;
    if p == [] {
      assert p + rest == rest;
    } else {
      assert (p + rest)[1..] == p[1..] + rest;
      ChangeUnder(Child(doc, p[0]).value, p[1..], rest, ch);
    }
  }

  // ---------------------------------------------------------------- patches of one part

  datatype Rel = Rel(rest: seq<string>, change: Change)

  ghost predicate AllClean(tokens: seq<string>) {
    forall t :: t in tokens ==> Clean(t)
  }

  ghost predicate Proper(rels: seq<Rel>) {
    forall r :: r in rels ==> r.rest != [] && AllClean(r.rest)
  }

  /** The operations of a patch under `p`. */
  function Under(p: seq<string>, rels: seq<Rel>): (ops: seq<Op>)
    ensures |ops| == |rels|
  {
    if rels == [] then [] else [Edit(Text(p + rels[0].rest), rels[0].change)] + Under(p, rels[1..])
  }

  function Fold(doc: Json, rels: seq<Rel>): Option<Json>
    decreases |rels|
  {
    if rels == [] then Some(doc)
    else
      match ChangeAt(doc, rels[0].rest, rels[0].change)
      case None => None
      case Some(doc') => Fold(doc', rels[1..])
  }

  lemma {:induction false} FoldJoin(doc: Json, a: seq<Rel>, b: seq<Rel>)
    ensures Fold(doc, a + b) == (match Fold(doc, a) case None => None case Some(doc') => Fold(doc', b))
    decreases |a|
  {
    hide ChangeAt;
    if a == [] {
      assert a + b == b;
    } else {
      assert (a + b)[1..] == a[1..] + b;
      match ChangeAt(doc, a[0].rest, a[0].change) {
        case None =>
        case Some(doc') => FoldJoin(doc', a[1..], b);
      }
    }
  }

  lemma ApplyUnder(doc: Json, p: seq<string>, r: Rel)
    requires AllClean(p) && AllClean(r.rest) && r.rest != [] && Get(doc, p).Some?
    ensures Apply(doc, Edit(Text(p + r.rest), r.change))
         == (match ChangeAt(Get(doc, p).value, r.rest, r.change)
           case None => None
           case Some(c) => ChangeAt(doc, p, Replace(c)))
  {
    hide ChangeAt, Get, Clean, Text, Tokens;
    PathRoundTrip(p + r.rest);
    ChangeUnder(doc, p, r.rest, r.change);
  }

  /** Applying a patch confined to one part is patching the part and putting it back. */
  lemma {:induction false} Lift(doc: Json, p: seq<string>, rels: seq<Rel>)
    requires AllClean(p) && Proper(rels) && Get(doc, p).Some?
    ensures ApplyAll(doc, Under(p, rels))
         == (match Fold(Get(doc, p).value, rels) case None => None case Some(c) => ChangeAt(doc, p, Replace(c)))
    decreases |rels|
  {
    hide ChangeAt, Get, AllClean, Apply;
    if rels == [] {
      GetPut(doc, p);
    } else {
      var part := Get(doc, p).value;
      ApplyUnder(doc, p, rels[0]);
      var ops := Under(p, rels);
      assert ops[1..] == Under(p, rels[1..]);
      match ChangeAt(part, rels[0].rest, rels[0].change) {
        case None =>
        case Some(c) =>
          PutGet(doc, p, c);
          var doc' := ChangeAt(doc, p, Replace(c)).value;
          Lift(doc', p, rels[1..]);
          match Fold(c, rels[1..]) {
            case None =>
            case Some(c') => PutPut(doc, p, c, c');
          }
      }
    }
  }
}
