/** Tab mode and disk mode on the values of one tile, and on annotations. */
module AgreementEdits {
  import opened Common
  import opened Pointer
  import opened Patch
  import opened Slices
  import opened Lenses
  import opened Presentation
  import opened Agreement

  // ---------------------------------------------------------------- setting values, in any order

  function SetRels(tile: Json, order: seq<string>, patch: map<string, Json>): seq<Rel>
    requires forall i :: 0 <= i < |order| ==> order[i] in patch
  {
    if order == [] then []
    else
      var k := order[|order| - 1];
      SetRels(tile, order[..|order| - 1], patch)
      + [Rel([k], if Field(tile, k).Some? then Replace(patch[k]) else Add(patch[k]))]
  }

  lemma {:induction false} SetOpsAre(base: seq<string>, tile: Json, order: seq<string>, patch: map<string, Json>)
    requires forall i :: 0 <= i < |order| ==> order[i] in patch
    ensures SetOps(base, tile, order, patch) == Under(base, SetRels(tile, order, patch))
  {
    hide Field, Text;
    if order != [] {
      var front, k := order[..|order| - 1], order[|order| - 1];
      SetOpsAre(base, tile, front, patch);
      var r := Rel([k], if Field(tile, k).Some? then Replace(patch[k]) else Add(patch[k]));
      UnderOne(base, r);
      UnderJoin(base, SetRels(tile, front, patch), [r]);
    }
  }

  lemma {:induction false} SetRelsProper(tile: Json, order: seq<string>, patch: map<string, Json>)
    requires (forall i :: 0 <= i < |order| ==> order[i] in patch) && forall k :: k in patch ==> Clean(k)
    ensures Proper(SetRels(tile, order, patch))
  {
    hide Field, Clean;
    if order != [] {
      var front, k := order[..|order| - 1], order[|order| - 1];
      SetRelsProper(tile, front, patch);
      ProperKey(k, if Field(tile, k).Some? then Replace(patch[k]) else Add(patch[k]));
    }
  }

  /** Whatever the order, the values set so far are there and nothing else changed. */
  lemma {:induction false} SetFolds(tile: Json, order: seq<string>, patch: map<string, Json>)
    requires tile.Obj? && forall i :: 0 <= i < |order| ==> order[i] in patch
    ensures var done := Fold(tile, SetRels(tile, order, patch));
      && done.Some? && done.value.Obj?
      && (forall k :: k in done.value.fields <==> k in tile.fields || k in order)
      && (forall k :: k in done.value.fields ==>
        done.value.fields[k] == if k in order then patch[k] else tile.fields[k])
  {
    hide ChangeAt;
    if order != [] {
      var front, k := order[..|order| - 1], order[|order| - 1];
      SetFolds(tile, front, patch);
      var r := Rel([k], if Field(tile, k).Some? then Replace(patch[k]) else Add(patch[k]));
      FoldJoin(tile, SetRels(tile, front, patch), [r]);
      var so := Fold(tile, SetRels(tile, front, patch)).value;
      FoldOne(so, r);
      ChangeKey(so, k, r.change);
      assert order == front + [k];
    }
  }

  lemma AllSet(tile: Json, order: seq<string>, patch: map<string, Json>)
    requires tile.Obj? && Orders(order, patch)
    ensures Fold(tile, SetRels(tile, order, patch)) == Some(Obj(tile.fields + patch))
  {
    hide Fold, SetRels;
    SetFolds(tile, order, patch);
    assert Fold(tile, SetRels(tile, order, patch)).value.fields == tile.fields + patch;
  }

  // ---------------------------------------------------------------- erasing keys

  function EraseRels(tile: Json, erase: seq<string>): seq<Rel> {
    if erase == [] then []
    else
      var k := erase[|erase| - 1];
      EraseRels(tile, erase[..|erase| - 1]) + if Field(tile, k).Some? then [Rel([k], Remove)] else []
  }

  lemma {:induction false} EraseOpsAre(base: seq<string>, tile: Json, erase: seq<string>)
    requires forall k :: k in erase ==> Clean(k)
    ensures EraseOps(base, tile, erase) == Under(base, EraseRels(tile, erase)) && Proper(EraseRels(tile, erase))
  {
    hide Field, Text, Clean;
    if erase != [] {
      var front, k := erase[..|erase| - 1], erase[|erase| - 1];
      EraseOpsAre(base, tile, front);
      if Field(tile, k).Some? {
        UnderOne(base, Rel([k], Remove));
        UnderJoin(base, EraseRels(tile, front), [Rel([k], Remove)]);
        ProperKey(k, Remove);
      } else {
        assert EraseOps(base, tile, erase) == EraseOps(base, tile, front) &&
          EraseRels(tile, erase) == EraseRels(tile, front);
      }
    }
  }

  lemma KeysLast(keys: seq<string>)
    requires keys != []
    ensures Keys(keys) == Keys(keys[..|keys| - 1]) + {keys[|keys| - 1]}
  {
    assert keys == keys[..|keys| - 1] + [keys[|keys| - 1]];
  }

  lemma EraseOne(tile: Json, left: Json, k: string)
    requires left.Obj? && (Field(tile, k).Some? <==> k in left.fields)
    ensures Fold(left, if Field(tile, k).Some? then [Rel([k], Remove)] else []) == Some(Obj(left.fields - {k}))
  {
    hide ChangeAt;
    if Field(tile, k).Some? {
      FoldOne(left, Rel([k], Remove));
      ChangeKey(left, k, Remove);
    } else {
      assert left.fields - {k} == left.fields;
    }
  }

  /** The erased keys that were there go, and nothing else changes. */
  lemma {:induction false} EraseFolds(tile: Json, doc: Json, erase: seq<string>)
    requires doc.Obj? && tile.Obj? && (forall i, j :: 0 <= i < j < |erase| ==> erase[i] != erase[j])
    requires forall k :: k in erase ==> (k in tile.fields <==> k in doc.fields)
    ensures Fold(doc, EraseRels(tile, erase)) == Some(Obj(doc.fields - Keys(erase)))
  {
    if erase == [] {
      assert doc.fields - Keys(erase) == doc.fields;
    } else {
      hide Fold;
      var front, k := erase[..|erase| - 1], erase[|erase| - 1];
      EraseFolds(tile, doc, front);
      KeysLast(erase);
      assert k !in front && k in erase;
      var left := Obj(doc.fields - Keys(front));
      EraseOne(tile, left, k);
      FoldJoin(doc, EraseRels(tile, front), if Field(tile, k).Some? then [Rel([k], Remove)] else []);
      assert left.fields - {k} == doc.fields - Keys(erase);
    }
  }

  // ---------------------------------------------------------------- modifying a tile

  lemma ModifyKeys(a: ModifyArgs)
    ensures forall k :: k in PatchOf(a) ==>
      k in ["x", "y", "w", "h", "rotation", "content", "text_mode", "font_size", "auto_fit", "src"] && k !in EraseOf(a)
    ensures forall k :: k in EraseOf(a) ==> k in ["rotation", "font_size", "auto_fit"]
    ensures forall i, j :: 0 <= i < j < |EraseOf(a)| ==> EraseOf(a)[i] != EraseOf(a)[j]
  {
  }

  lemma ModifyKeysClean(a: ModifyArgs)
    ensures forall k :: k in PatchOf(a) || k in EraseOf(a) ==> Clean(k)
  {
    hide PatchOf, EraseOf;
    ModifyKeys(a);
  }

  function ModifyRels(tile: Json, a: ModifyArgs, order: seq<string>): seq<Rel>
    requires forall i :: 0 <= i < |order| ==> order[i] in PatchOf(a)
  {
    SetRels(tile, order, PatchOf(a)) + EraseRels(tile, EraseOf(a))
  }

  lemma ModifyFolds(tile: Json, a: ModifyArgs, order: seq<string>)
    requires tile.Obj? && Orders(order, PatchOf(a))
    ensures Proper(ModifyRels(tile, a, order))
    ensures Fold(tile, ModifyRels(tile, a, order)) == Some(Modified(tile, PatchOf(a), EraseOf(a)))
  {
    hide Fold, SetRels, EraseRels, PatchOf, EraseOf, Clean, Proper;
    ModifyKeys(a);
    ModifyKeysClean(a);
    SetRelsProper(tile, order, PatchOf(a));
    EraseOpsAre([], tile, EraseOf(a));
    ProperJoin(SetRels(tile, order, PatchOf(a)), EraseRels(tile, EraseOf(a)));
    AllSet(tile, order, PatchOf(a));
    var set_ := Obj(tile.fields + PatchOf(a));
    EraseFolds(tile, set_, EraseOf(a));
    FoldJoin(tile, SetRels(tile, order, PatchOf(a)), EraseRels(tile, EraseOf(a)));
  }

  /** The patch has no operation exactly when there is nothing to set and nothing there to erase. */
  lemma {:induction false} NothingErased(tile: Json, erase: seq<string>)
    ensures EraseRels(tile, erase) == [] <==> forall k :: k in erase ==> Field(tile, k).None?
  {
    hide Field;
    if erase != [] {
      var front, k := erase[..|erase| - 1], erase[|erase| - 1];
      NothingErased(tile, front);
      assert erase == front + [k];
    }
  }

  lemma NoPatch(order: seq<string>, patch: map<string, Json>)
    requires Orders(order, patch)
    ensures order == [] <==> patch == map[]
  {
    if order != [] { assert order[0] in patch; }
  }

  lemma UnderNone(p: seq<string>, rels: seq<Rel>)
    ensures Under(p, rels) == [] <==> rels == []
  {
  }

  /** Nothing to set, something to erase, and none of it there. */
  predicate OnlyErasesAbsent(tile: Json, a: ModifyArgs) {
    PatchOf(a) == map[] && EraseOf(a) != [] && forall k :: k in EraseOf(a) ==> Field(tile, k).None?
  }

  lemma ModifyOps(deck: Json, i: int, id: string, a: ModifyArgs, order: seq<string>)
    requires IsDeck(deck) && TileAt(deck, i, id).Some? && Orders(order, PatchOf(a))
    ensures var at := TileAt(deck, i, id).value;
      var tile := Items(Field(Slides(deck)[i], "tiles"))[at];
      TabModify(deck, i, id, a, order)
      == if ChangesFor(a, tile).Bad? then Refused(ChangesFor(a, tile).code)
         else if PatchOf(a) == map[] && EraseOf(a) == [] then Unchanged
         else Patched(Under(SlidePath(i) + ["tiles", IntText(at)], ModifyRels(tile, a, order)))
  {
    hide Node, Text, SlidePath, Find, IntText, PatchOf, EraseOf, SetOps, EraseOps, SetRels, EraseRels, Under;
    NodeSlide(deck, i);
    var at := TileAt(deck, i, id).value;
    var tile := Items(Field(Slides(deck)[i], "tiles"))[at];
    var base := SlidePath(i) + ["tiles", IntText(at)];
    ModifyKeysClean(a);
    SetOpsAre(base, tile, order, PatchOf(a));
    EraseOpsAre(base, tile, EraseOf(a));
    UnderJoin(base, SetRels(tile, order, PatchOf(a)), EraseRels(tile, EraseOf(a)));
  }

  lemma ModifyEmpty(tile: Json, a: ModifyArgs, order: seq<string>)
    requires Orders(order, PatchOf(a)) && !(PatchOf(a) == map[] && EraseOf(a) == [])
    ensures ModifyRels(tile, a, order) == [] <==> OnlyErasesAbsent(tile, a)
  {
    hide PatchOf, EraseOf, EraseRels, Field;
    NoPatch(order, PatchOf(a));
    NothingErased(tile, EraseOf(a));
  }

  lemma Untouched(deck: Json, i: int, at: nat)
    requires IsDeck(deck) && SlideAt(deck, i).Some? && at < |Items(Field(Slides(deck)[i], "tiles"))|
    requires Items(Field(Slides(deck)[i], "tiles"))[at].Obj?
    ensures var tile := Items(Field(Slides(deck)[i], "tiles"))[at];
      WithSlide(deck, i, WithTile(Slides(deck)[i], at, Modified(tile, map[], []))) == deck
  {
    var tile := Items(Field(Slides(deck)[i], "tiles"))[at];
    assert tile.fields + map[] - Keys([]) == tile.fields;
    TileItself(Slides(deck)[i], at);
    assert Slides(deck)[i := Slides(deck)[i]] == Slides(deck);
    assert deck.fields["slides" := Arr(Slides(deck))] == deck.fields;
  }

  /** The live deck after modifying a tile does not depend on how the values were ordered. */
  lemma ModifyLive(deck: Json, i: int, id: string, a: ModifyArgs, order: seq<string>)
    requires IsDeck(deck) && TileAt(deck, i, id).Some? && Orders(order, PatchOf(a))
    ensures var at := TileAt(deck, i, id).value;
      var tile := Items(Field(Slides(deck)[i], "tiles"))[at];
      Live(deck, TabModify(deck, i, id, a, order))
      == if ChangesFor(a, tile).Bad? then Fault(ChangesFor(a, tile).code)
         else if OnlyErasesAbsent(tile, a) then Fault("empty_patch")
         else Done(WithSlide(deck, i, WithTile(Slides(deck)[i], at, Modified(tile, PatchOf(a), EraseOf(a)))))
  {
    hide Node, SlidePath, Find, IntText, PatchOf, EraseOf, Under, ApplyAll, Fold, WithSlide, WithTile, Proper,
         Modified, ModifyRels, TabModify, ChangesFor;
    ModifyOps(deck, i, id, a, order);
    var at := TileAt(deck, i, id).value;
    var tile := Items(Field(Slides(deck)[i], "tiles"))[at];
    if PatchOf(a) == map[] && EraseOf(a) == [] {
      Untouched(deck, i, at);
    } else {
      ModifyEmpty(tile, a, order);
      UnderNone(SlidePath(i) + ["tiles", IntText(at)], ModifyRels(tile, a, order));
      ModifyFolds(tile, a, order);
      InTile(deck, i, at, ModifyRels(tile, a, order));
    }
  }

  /** Modifying a tile agrees exactly unless the call only erases keys the tile does not have:
      then tab mode fails with an empty patch where disk mode succeeds and changes nothing. */
  lemma ModifyAgrees(deck: Json, i: int, id: string, a: ModifyArgs, order: seq<string>)
    requires IsDeck(deck) && Orders(order, PatchOf(a))
    ensures Agree(Live(deck, TabModify(deck, i, id, a, order)), DiskModify(deck, i, id, a))
         <==> !(TileAt(deck, i, id).Some?
                && ChangesFor(a, Items(Field(Slides(deck)[i], "tiles"))[TileAt(deck, i, id).value]).Changes?
                && OnlyErasesAbsent(Items(Field(Slides(deck)[i], "tiles"))[TileAt(deck, i, id).value], a))
  {
    hide Node, SlidePath, Find, IntText, PatchOf, EraseOf, ApplyAll, WithSlide, WithTile, Modified, OnlyErasesAbsent;
    if TileAt(deck, i, id).Some? {
      hide TabModify;
      ModifyLive(deck, i, id, a, order);
    } else {
      NodeSlide(deck, i);
    }
  }

  lemma OrderDoesNotMatter(deck: Json, i: int, id: string, a: ModifyArgs, one: seq<string>, other: seq<string>)
    requires IsDeck(deck) && Orders(one, PatchOf(a)) && Orders(other, PatchOf(a))
    ensures Live(deck, TabModify(deck, i, id, a, one)) == Live(deck, TabModify(deck, i, id, a, other))
  {
    hide Node, SlidePath, Find, IntText, PatchOf, EraseOf, ApplyAll, WithSlide, WithTile, Modified, OnlyErasesAbsent;
    if TileAt(deck, i, id).Some? {
      hide TabModify;
      ModifyLive(deck, i, id, a, one);
      ModifyLive(deck, i, id, a, other);
    } else {
      NodeSlide(deck, i);
    }
  }

  function SetOp(base: seq<string>, tile: Json, k: string, v: Json): Op {
    Edit(Text(base + [k]), if Field(tile, k).Some? then Replace(v) else Add(v))
  }

  lemma SetNext(base: seq<string>, tile: Json, order: seq<string>, k: string, patch: map<string, Json>)
    requires (forall i :: 0 <= i < |order| ==> order[i] in patch) && k in patch
    ensures forall i :: 0 <= i < |order + [k]| ==> (order + [k])[i] in patch
    ensures SetOps(base, tile, order + [k], patch) ==
      SetOps(base, tile, order, patch) + [SetOp(base, tile, k, patch[k])]
  {
    hide Text, Field;
    assert (order + [k])[..|order|] == order;
  }

  lemma EraseNext(base: seq<string>, tile: Json, erase: seq<string>, i: nat)
    requires i < |erase|
    ensures EraseOps(base, tile, erase[..i + 1])
         == EraseOps(base, tile, erase[..i])
           + if Field(tile, erase[i]).Some? then [Edit(Text(base + [erase[i]]), Remove)] else []
  {
    hide Text, Field;
    assert erase[..i + 1][..i] == erase[..i];
  }

  /** The part of `order` that a range has gone through, and what it has `left`. */
  ghost predicate Ranging(order: seq<string>, left: set<string>, patch: map<string, Json>) {
    && (forall i :: 0 <= i < |order| ==> order[i] in patch && order[i] !in left)
    && (forall i, j :: 0 <= i < j < |order| ==> order[i] != order[j])
    && (forall k :: k in patch <==> k in left || k in order)
  }

  lemma RangeNext(order: seq<string>, left: set<string>, patch: map<string, Json>, k: string)
    requires Ranging(order, left, patch) && k in left
    ensures Ranging(order + [k], left - {k}, patch)
  {
    assert forall x :: x in order + [k] <==> x in order || x == k;
  }

  /** Tab mode's patch, built by a range over the map of new values in whatever order it goes. */
  method BuildSets(b: PatchBuilder, base: seq<string>, tile: Json, patch: map<string, Json>)
    returns (ghost order: seq<string>)
    modifies b`ops
    ensures Orders(order, patch)
    ensures b.ops == old(b.ops) + SetOps(base, tile, order, patch)
  {
    hide SetOps, Text, Field;
    order := [];
    var left := patch.Keys;
    NoSets(base, tile, patch);
    while left != {}
      invariant Ranging(order, left, patch)
      invariant b.ops == old(b.ops) + SetOps(base, tile, order, patch)
      decreases left
    {
      var k :| k in left;
      SetNext(base, tile, order, k, patch);
      RangeNext(order, left, patch, k);
      b.Push(SetOp(base, tile, k, patch[k]));
      order := order + [k];
      left := left - {k};
    }
  }

  lemma NoSets(base: seq<string>, tile: Json, patch: map<string, Json>)
    ensures SetOps(base, tile, [], patch) == [] && EraseOps(base, tile, []) == []
  {
  }

  method BuildErases(b: PatchBuilder, base: seq<string>, tile: Json, erase: seq<string>)
    modifies b`ops
    ensures b.ops == old(b.ops) + EraseOps(base, tile, erase)
  {
    hide EraseOps, Text;
    NoSets(base, tile, map[]);
    assert erase[..0] == [];
    var i := 0;
    while i < |erase|
      invariant 0 <= i <= |erase|
      invariant b.ops == old(b.ops) + EraseOps(base, tile, erase[..i])
    {
      EraseNext(base, tile, erase, i);
      if Field(tile, erase[i]).Some? {
        b.Push(Edit(Text(base + [erase[i]]), Remove));
      }
      i := i + 1;
    }
    assert erase[..i] == erase;
  }

  /** Modifying a tile in tab mode, as the tool does it: look the slide and the tile up, build the
      patch and send it. Except for the empty patch it is what disk mode does, faults and all. */
  method ModifyInTab(deck: Json, i: int, id: string, a: ModifyArgs) returns (out: Outcome)
    requires IsDeck(deck)
    ensures out == if TileAt(deck, i, id).Some?
                      && ChangesFor(a, Items(Field(Slides(deck)[i], "tiles"))[TileAt(deck, i, id).value]).Changes?
                      && OnlyErasesAbsent(Items(Field(Slides(deck)[i], "tiles"))[TileAt(deck, i, id).value], a)
                   then Fault("empty_patch") else DiskModify(deck, i, id, a)
  {
    hide Node, SlidePath, Find, IntText, PatchOf, EraseOf, ApplyAll, WithSlide, WithTile, Modified,
         OnlyErasesAbsent, Text, SetOps, EraseOps;
    NodeSlide(deck, i);
    var slide := Node(deck, SlidePath(i));
    if slide.None? || !slide.value.Obj? {
      return Fault("out_of_range");
    }
    var tiles := Items(Field(slide.value, "tiles"));
    var at := Find(tiles, id);
    if at.None? {
      return Fault("not_found");
    }
    var tile := tiles[at.value];
    var changes := ChangesFor(a, tile);
    if changes.Bad? {
      return Fault(changes.code);
    }
    if changes.patch == map[] && changes.erase == [] {
      Untouched(deck, i, at.value);
      NotOnlyErases(tile, a);
      return Done(deck);
    }
    var b := new PatchBuilder();
    var base := SlidePath(i) + ["tiles", IntText(at.value)];
    ghost var order := BuildSets(b, base, tile, changes.patch);
    BuildErases(b, base, tile, changes.erase);
    assert TabModify(deck, i, id, a, order) == Patched(b.ops);
    ModifyLive(deck, i, id, a, order);
    var sent := b.Send();
    if sent.EmptyPatch? {
      return Fault("empty_patch");
    }
    var applied := ApplyAll(deck, sent.ops);
    out := if applied.None? then Fault("patch_rejected") else Done(applied.value);
  }

  lemma NotOnlyErases(tile: Json, a: ModifyArgs)
    requires EraseOf(a) == []
    ensures !OnlyErasesAbsent(tile, a)
  {
  }

  // ---------------------------------------------------------------- adding an annotation

  /** The patch as seen from the slide. */
  function AnnotationRels(slide: Json, env: Json): seq<Rel> {
    (if Field(slide, "annotations").None? then [Rel(["annotations"], Add(Arr([])))] else [])
    + [Rel(["annotations", "-"], Add(env))]
  }

  function Appended(v: Json, env: Json): Option<Json> {
    match v
    case Arr(items) => Some(Arr(items + [env]))
    case Obj(fields) => Some(Obj(fields["-" := env]))
    case _ => None
  }

  lemma AnnotationFolds(slide: Json, env: Json)
    requires slide.Obj?
    ensures Proper(AnnotationRels(slide, env))
    ensures var old_ := Field(slide, "annotations");
      Fold(slide, AnnotationRels(slide, env))
      == if old_.None? then Some(WithField(slide, "annotations", Arr([env])))
         else if Appended(old_.value, env).None? then None
         else Some(WithField(slide, "annotations", Appended(old_.value, env).value))
  {
    hide ChangeAt, Fold, Proper;
    var last := Rel(["annotations", "-"], Add(env));
    assert Clean("annotations") && Clean("-");
    ProperEntry("annotations", "-", Add(env));
    if Field(slide, "annotations").None? {
      var first := Rel(["annotations"], Add(Arr([])));
      ProperKey("annotations", first.change);
      ProperJoin([first], [last]);
      FoldJoin(slide, [first], [last]);
      FoldOne(slide, first);
      ChangeKey(slide, "annotations", first.change);
      var slide' := WithField(slide, "annotations", Arr([]));
      FoldOne(slide', last);
      ChangeEntry(slide', "annotations", "-", Add(env));
      assert [] + [env] == [env];
      MoveAnnotations(slide, Arr([]), Arr([env]));
    } else {
      assert [] + [last] == [last];
      FoldOne(slide, last);
      ChangeEntry(slide, "annotations", "-", Add(env));
    }
  }

  lemma MoveAnnotations(slide: Json, a: Json, b: Json)
    requires slide.Obj?
    ensures WithField(WithField(slide, "annotations", a), "annotations", b) == WithField(slide, "annotations", b)
  {
    assert slide.fields["annotations" := a]["annotations" := b] == slide.fields["annotations" := b];
  }

  lemma AnnotationOps(deck: Json, i: int, envelope: string -> Option<Json>)
    requires IsDeck(deck) && SlideAt(deck, i).Some? && envelope(TextOf(Field(Slides(deck)[i], "id"))).Some?
    ensures TabAddAnnotation(deck, i, envelope)
         == Patched(Under(SlidePath(i),
           AnnotationRels(Slides(deck)[i], envelope(TextOf(Field(Slides(deck)[i], "id"))).value)))
  {
    hide Node, Text, SlidePath;
    NodeSlide(deck, i);
    var slide := Slides(deck)[i];
    var last := Rel(["annotations", "-"], Add(envelope(TextOf(Field(slide, "id"))).value));
    UnderOne(SlidePath(i), last);
    if Field(slide, "annotations").None? {
      var first := Rel(["annotations"], Add(Arr([])));
      UnderOne(SlidePath(i), first);
      UnderJoin(SlidePath(i), [first], [last]);
    } else {
      assert [] + [last] == [last];
    }
  }

  /** Adding an annotation agrees exactly when the slide has no annotations yet or has a list of
      them (or the call is refused): over anything else tab mode fails or makes an object of it,
      and disk mode starts a new list. */
  lemma AddAnnotationAgrees(deck: Json, i: int, envelope: string -> Option<Json>)
    requires IsDeck(deck)
    ensures Agree(Live(deck, TabAddAnnotation(deck, i, envelope)), DiskAddAnnotation(deck, i, envelope))
         <==> (SlideAt(deck, i).Some? && envelope(TextOf(Field(Slides(deck)[i], "id"))).Some?
               ==> Field(Slides(deck)[i], "annotations").None? || Field(Slides(deck)[i], "annotations").value.Arr?)
  {
    hide Node, SlidePath, ApplyAll, Fold, Under, WithSlide, Proper, AnnotationRels;
    if SlideAt(deck, i).Some? && envelope(TextOf(Field(Slides(deck)[i], "id"))).Some? {
      hide TabAddAnnotation;
      AnnotationOps(deck, i, envelope);
      var slide := Slides(deck)[i];
      var env := envelope(TextOf(Field(slide, "id"))).value;
      AnnotationFolds(slide, env);
      InSlide(deck, i, AnnotationRels(slide, env));
      UnderNone(SlidePath(i), AnnotationRels(slide, env));
      NonEmptyAnnotation(slide, env);
      var had := Field(slide, "annotations");
      assert had.None? ==> Items(had) + [env] == [env];
      if had.Some? && Appended(had.value, env).Some? {
        var kept := Items(had);
        WithFieldInjective(slide, "annotations", Appended(had.value, env).value, Arr(kept + [env]));
        WithSlideInjective(deck, i, WithField(slide, "annotations", Appended(had.value, env).value),
                           WithField(slide, "annotations", Arr(kept + [env])));
      }
    } else {
      NodeSlide(deck, i);
    }
  }

  lemma NonEmptyAnnotation(slide: Json, env: Json)
    ensures AnnotationRels(slide, env) != []
  {
  }

  // ---------------------------------------------------------------- removing an annotation

  function DropRels(slide: Json, at: nat): seq<Rel> {
    [Rel(["annotations", IntText(at)], Remove)]
    + if |Items(Field(slide, "annotations"))| == 1 then [Rel(["annotations"], Remove)] else []
  }

  function ScrubRels(slide: Json, id: string): seq<Rel> {
    var shown := Items(Field(slide, "reveal"));
    if Refers(shown, id) then [Rel(["reveal"], Replace(Arr(Without(shown, id))))] else []
  }

  lemma DropFolds(slide: Json, at: nat)
    requires slide.Obj? && at < |Items(Field(slide, "annotations"))|
    ensures Proper(DropRels(slide, at)) && Fold(slide, DropRels(slide, at)) == Some(Dropped(slide, at))
  {
    hide ChangeAt, Fold, Proper, IntText, ArrayIndex;
    var list := Items(Field(slide, "annotations"));
    var first := Rel(["annotations", IntText(at)], Remove);
    IntTextClean(at);
    IndexRoundTrip(at);
    assert Clean("annotations");
    ProperEntry("annotations", IntText(at), Remove);
    FoldOne(slide, first);
    ChangeEntry(slide, "annotations", IntText(at), Remove);
    if |list| == 1 {
      var last := Rel(["annotations"], Remove);
      ProperKey("annotations", Remove);
      ProperJoin([first], [last]);
      FoldJoin(slide, [first], [last]);
      var slide' := WithField(slide, "annotations", Arr(RemoveAt(list, at)));
      FoldOne(slide', last);
      ChangeKey(slide', "annotations", Remove);
      assert slide'.fields - {"annotations"} == slide.fields - {"annotations"};
    } else {
      assert [first] + [] == [first];
      assert |RemoveAt(list, at)| > 0;
    }
  }

  lemma {:induction false} NothingToScrub(list: seq<Json>, id: string)
    requires !Refers(list, id)
    ensures Without(list, id) == list
  {
    if list != [] {
      var front := list[..|list| - 1];
      assert StringOf(list[|list| - 1]) != id;
      assert forall k :: 0 <= k < |front| ==> front[k] == list[k];
      NothingToScrub(front, id);
    }
  }

  lemma ScrubFolds(slide: Json, id: string)
    requires slide.Obj?
    ensures Proper(ScrubRels(slide, id)) && Fold(slide, ScrubRels(slide, id)) == Some(Scrubbed(slide, id))
  {
    hide ChangeAt, Fold, Proper, Refers, Without;
    var shown := Items(Field(slide, "reveal"));
    if Refers(shown, id) {
      var r := Rel(["reveal"], Replace(Arr(Without(shown, id))));
      assert Clean("reveal");
      ProperKey("reveal", r.change);
      FoldOne(slide, r);
      ChangeKey(slide, "reveal", r.change);
      NoneReferred(id);
    } else {
      NothingToScrub(shown, id);
      FoldNone(slide);
      if shown != [] { assert slide.fields["reveal" := Arr(shown)] == slide.fields; }
    }
  }

  lemma NoneReferred(id: string)
    ensures !Refers([], id)
  {
  }

  lemma FoldNone(doc: Json)
    ensures Fold(doc, []) == Some(doc) && Proper([])
  {
  }

  lemma DropKeepsShown(slide: Json, at: nat)
    requires slide.Obj? && at < |Items(Field(slide, "annotations"))|
    ensures Dropped(slide, at).Obj? && Field(Dropped(slide, at), "reveal") == Field(slide, "reveal")
  {
  }

  lemma RemoveOps(deck: Json, i: int, id: string)
    requires IsDeck(deck) && SlideAt(deck, i).Some? && Find(Items(Field(Slides(deck)[i], "annotations")), id).Some?
    ensures var slide := Slides(deck)[i];
      var at := Find(Items(Field(slide, "annotations")), id).value;
      TabRemoveAnnotation(deck, i, id) == Patched(Under(SlidePath(i), DropRels(slide, at) + ScrubRels(slide, id)))
  {
    hide Node, Text, SlidePath, Find, Refers, Without, IntText;
    NodeSlide(deck, i);
    var slide := Slides(deck)[i];
    var at := Find(Items(Field(slide, "annotations")), id).value;
    var first := Rel(["annotations", IntText(at)], Remove);
    var p := SlidePath(i);
    UnderOne(p, first);
    if |Items(Field(slide, "annotations"))| == 1 {
      UnderOne(p, Rel(["annotations"], Remove));
      UnderJoin(p, [first], [Rel(["annotations"], Remove)]);
    } else {
      assert [first] + [] == [first];
    }
    UnderJoin(p, DropRels(slide, at), ScrubRels(slide, id));
    var shown := Items(Field(slide, "reveal"));
    if Refers(shown, id) { UnderOne(p, Rel(["reveal"], Replace(Arr(Without(shown, id))))); }
  }

  lemma DropNotEmpty(slide: Json, at: nat, more: seq<Rel>)
    ensures DropRels(slide, at) + more != []
  {
  }

  /** Removing an annotation gives the same deck in both modes: the annotation goes, the list goes
      with its last one, and the reveal list is scrubbed. */
  lemma RemoveAnnotationAgrees(deck: Json, i: int, id: string)
    requires IsDeck(deck)
    ensures Live(deck, TabRemoveAnnotation(deck, i, id)) == DiskRemoveAnnotation(deck, i, id)
  {
    hide Node, SlidePath, ApplyAll, Fold, Under, WithSlide, Proper, DropRels, ScrubRels, Scrubbed, Dropped, Find;
    if SlideAt(deck, i).Some? && Find(Items(Field(Slides(deck)[i], "annotations")), id).Some? {
      hide TabRemoveAnnotation;
      RemoveOps(deck, i, id);
      var slide := Slides(deck)[i];
      var at := Find(Items(Field(slide, "annotations")), id).value;
      DropFolds(slide, at);
      DropKeepsShown(slide, at);
      ScrubFolds(slide, id);
      ScrubFolds(Dropped(slide, at), id);
      ScrubSame(slide, Dropped(slide, at), id);
      FoldJoin(slide, DropRels(slide, at), ScrubRels(slide, id));
      ProperJoin(DropRels(slide, at), ScrubRels(slide, id));
      InSlide(deck, i, DropRels(slide, at) + ScrubRels(slide, id));
      DropNotEmpty(slide, at, ScrubRels(slide, id));
      UnderNone(SlidePath(i), DropRels(slide, at) + ScrubRels(slide, id));
    } else {
      NodeSlide(deck, i);
    }
  }

  lemma ScrubSame(slide: Json, slide': Json, id: string)
    requires Field(slide, "reveal") == Field(slide', "reveal")
    ensures ScrubRels(slide, id) == ScrubRels(slide', id)
  {
  }

  // ---------------------------------------------------------------- where they differ

  function DeckOf(slide: Json): Json {
    Obj(map["slides" := Arr([slide])])
  }

  const TEXT_TILE := Obj(map["id" := Str("t"), "kind" := Str("text")])

  const CLEAR_SIZE := ModifyArgs(None, None, None, None, None, None, None, Some(0), None, None)

  /** Clearing the font size of a tile that has none: disk mode succeeds, tab mode does not. */
  lemma ClearingNothing()
    ensures var deck := DeckOf(Obj(map["tiles" := Arr([TEXT_TILE])]));
      && IsDeck(deck) && Live(deck, TabModify(deck, 0, "t", CLEAR_SIZE, [])) == Fault("empty_patch")
      && DiskModify(deck, 0, "t", CLEAR_SIZE).Done?
  {
    var deck := DeckOf(Obj(map["tiles" := Arr([TEXT_TILE])]));
    hide TabModify, Live, DeckOf, ChangesFor, OnlyErasesAbsent, PatchOf, EraseOf, WithSlide, WithTile, Modified;
    OneTile(TEXT_TILE, "t");
    OnlyClears();
    ModifyLive(deck, 0, "t", CLEAR_SIZE, []);
    assert TileAt(deck, 0, "t") == Some(0);
  }

  lemma OnlyClears()
    ensures PatchOf(CLEAR_SIZE) == map[] && OnlyErasesAbsent(TEXT_TILE, CLEAR_SIZE)
    ensures ChangesFor(CLEAR_SIZE, TEXT_TILE).Changes?
  {
    assert EraseOf(CLEAR_SIZE) == ["font_size"] && PatchOf(CLEAR_SIZE) == map[];
  }

  lemma OneTile(tile: Json, id: string)
    requires HasId(tile, id)
    ensures var deck := DeckOf(Obj(map["tiles" := Arr([tile])]));
      IsDeck(deck) && SlideAt(deck, 0).Some? && TileAt(deck, 0, id) == Some(0)
      && Items(Field(Slides(deck)[0], "tiles")) == [tile]
  {
  }

  /** A reveal list with a number in it: tab mode turns the number into an empty string. */
  lemma NumberInTheList()
    ensures var deck := DeckOf(Obj(map["tiles" := Arr([TEXT_TILE]), "reveal" := Arr([Num(1.0)])]));
      IsDeck(deck) && !Agree(Live(deck, TabRemoveTile(deck, 0, "t")), DiskRemoveTile(deck, 0, "t"))
  {
    var slide := Obj(map["tiles" := Arr([TEXT_TILE]), "reveal" := Arr([Num(1.0)])]);
    hide TabRemoveTile, DiskRemoveTile;
    assert HasId(TEXT_TILE, "t") && TileAt(DeckOf(slide), 0, "t").Some?;
    assert !Items(Field(slide, "reveal"))[0].Str?;
    RemoveTileAgrees(DeckOf(slide), 0, "t");
  }

  const NEW_SHEET := Obj(map["id" := Str("t"), "kind" := Str("spreadsheet")])

  /** A spreadsheet tile without a size: disk mode gives it one, tab mode's patch is rejected. */
  lemma SheetWithoutSize()
    ensures var deck := DeckOf(Obj(map["tiles" := Arr([NEW_SHEET])]));
      IsDeck(deck) && !Agree(Live(deck, TabResize(deck, 0, "t", 1, 1)), DiskResize(deck, 0, "t", 1, 1))
  {
    hide TabResize, DiskResize;
    OneTile(NEW_SHEET, "t");
    ResizeAgrees(DeckOf(Obj(map["tiles" := Arr([NEW_SHEET])])), 0, "t", 1, 1);
  }

  /** Annotations that are null: disk mode starts a list, tab mode's patch is rejected. */
  lemma NullAnnotations(env: Json)
    ensures var deck := DeckOf(Obj(map["annotations" := Null]));
      IsDeck(deck) &&
        !Agree(Live(deck, TabAddAnnotation(deck, 0, id => Some(env))), DiskAddAnnotation(deck, 0, id => Some(env)))
  {
    hide TabAddAnnotation, DiskAddAnnotation;
    AddAnnotationAgrees(DeckOf(Obj(map["annotations" := Null])), 0, id => Some(env));
  }
}
