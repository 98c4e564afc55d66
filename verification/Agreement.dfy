/** Live tab mode and disk mode do the same to a deck: without condition for adding, removing and
    un-annotating, and otherwise exactly under the condition each theorem names. */
module Agreement {
  import opened Common
  import opened Pointer
  import opened Patch
  import opened Slices
  import opened Lenses
  import opened Presentation

  // ---------------------------------------------------------------- one slide of a deck

  lemma SlidePathClean(i: int)
    ensures AllClean(SlidePath(i)) && AllClean(["slides"]) && AllClean(["slides", "-"])
  {
    IntTextClean(i);
  }

  lemma NodeIs(deck: Json, tokens: seq<string>)
    requires AllClean(tokens)
    ensures Node(deck, tokens) == Get(deck, tokens)
  {
    PathRoundTrip(tokens);
  }

  lemma GetSlides(deck: Json)
    requires IsDeck(deck)
    ensures Node(deck, ["slides"]) == Some(Arr(Slides(deck))) && Field(deck, "slides") == Some(Arr(Slides(deck)))
  {
    hide Tokens, Text;
    SlidePathClean(0);
    NodeIs(deck, ["slides"]);
    assert ["slides"][1..] == [];
  }

  lemma GetSlide(deck: Json, i: int)
    requires IsDeck(deck)
    ensures Get(deck, SlidePath(i)) == if 0 <= i < |Slides(deck)| then Some(Slides(deck)[i]) else None
  {
    hide IntText, ArrayIndex;
    IndexRoundTrip(i);
    GetSecond(deck, "slides", IntText(i));
  }

  lemma GetSecond(doc: Json, key: string, t: string)
    ensures Get(doc, [key, t]) == if Child(doc, key).None? then None else Child(Child(doc, key).value, t)
  {
    hide Child;
    assert [key, t][1..] == [t] && [t][1..] == [];
    if Child(doc, key).Some? {
      var c := Child(doc, key).value;
      assert Get(c, [t]) == (match Child(c, t) case None => None case Some(d) => Get(d, []));
    }
  }

  lemma NodeSlide(deck: Json, i: int)
    requires IsDeck(deck)
    ensures Node(deck, SlidePath(i)) == if 0 <= i < |Slides(deck)| then Some(Slides(deck)[i]) else None
  {
    hide Node, Get, SlidePath;
    SlidePathClean(i);
    NodeIs(deck, SlidePath(i));
    GetSlide(deck, i);
  }

  /** A change of one member of the list of slides. */
  lemma ChangeSlide(deck: Json, t: string, ch: Change)
    requires IsDeck(deck)
    ensures ChangeAt(deck, ["slides", t], ch)
         == (match ChangeMember(Arr(Slides(deck)), t, ch)
           case None => None
           case Some(v) => Some(WithField(deck, "slides", v)))
  {
    hide ArrayIndex;
    assert ["slides", t][1..] == [t];
  }

  lemma PutSlide(deck: Json, i: int, slide: Json)
    requires IsDeck(deck) && 0 <= i < |Slides(deck)|
    ensures ChangeAt(deck, SlidePath(i), Replace(slide)) == Some(WithSlide(deck, i, slide))
  {
    hide IntText, ArrayIndex, ChangeAt;
    IndexRoundTrip(i);
    ChangeSlide(deck, IntText(i), Replace(slide));
  }

  /** A patch of one slide. */
  lemma InSlide(deck: Json, i: int, rels: seq<Rel>)
    requires IsDeck(deck) && 0 <= i < |Slides(deck)| && Proper(rels)
    ensures ApplyAll(deck, Under(SlidePath(i), rels))
         == (match Fold(Slides(deck)[i], rels) case None => None case Some(s) => Some(WithSlide(deck, i, s)))
  {
    hide Get, ChangeAt, SlidePath, AllClean, Proper, ApplyAll, Under, Fold, WithSlide;
    SlidePathClean(i);
    GetSlide(deck, i);
    Lift(deck, SlidePath(i), rels);
    match Fold(Slides(deck)[i], rels) {
      case None =>
      case Some(s) => PutSlide(deck, i, s);
    }
  }

  /** One operation on the list of slides itself. */
  lemma OnSlides(deck: Json, t: string, ch: Change)
    requires IsDeck(deck) && Clean(t)
    ensures ApplyAll(deck, [Edit(Text(["slides", t]), ch)])
         == (match ChangeMember(Arr(Slides(deck)), t, ch)
           case None => None
           case Some(v) => Some(WithField(deck, "slides", v)))
  {
    hide ChangeAt, ChangeMember, ApplyAll, Text, Tokens;
    ApplyOne(deck, Edit(Text(["slides", t]), ch));
    assert Clean("slides");
    PathRoundTrip(["slides", t]);
    ChangeSlide(deck, t, ch);
  }

  // ---------------------------------------------------------------- slides

  /** Adding a slide gives the same deck in both modes, wherever it goes. */
  lemma AddSlideAgrees(deck: Json, position: Option<int>, slide: Json)
    requires IsDeck(deck)
    ensures Live(deck, TabAddSlide(deck, position, slide)) == DiskAddSlide(deck, position, slide)
  {
    hide ApplyAll, Text, IntText, ArrayIndex, Node;
    GetSlides(deck);
    var n := |Slides(deck)|;
    var at := if position.Some? then Clamp(position.value, n) else n;
    if at == n {
      assert Clean("-");
      OnSlides(deck, "-", Add(slide));
      assert Slides(deck)[..n] + [slide] + Slides(deck)[n..] == Slides(deck) + [slide];
    } else {
      IntTextClean(at);
      IndexRoundTrip(at);
      NotDash(at);
      OnSlides(deck, IntText(at), Add(slide));
    }
  }

  lemma NotDash(i: nat)
    ensures IntText(i) != "-"
  {
    assert IntText(i)[0] in IntText(i);
  }

  /** Removing a slide agrees, faults and all: the last slide stays in both modes. */
  lemma RemoveSlideAgrees(deck: Json, i: int)
    requires IsDeck(deck)
    ensures Live(deck, TabRemoveSlide(deck, i)) == DiskRemoveSlide(deck, i)
    ensures DiskRemoveSlide(deck, i).Done? ==> |Slides(deck)| == |Slides(DiskRemoveSlide(deck, i).deck)| + 1 >= 2
  {
    hide ApplyAll, Text, IntText, ArrayIndex, Node;
    GetSlides(deck);
    if 0 <= i < |Slides(deck)| && |Slides(deck)| > 1 {
      IntTextClean(i);
      IndexRoundTrip(i);
      OnSlides(deck, IntText(i), Remove);
    }
  }

  lemma SlidePathsPart(from: int, to: int)
    ensures !(SlidePath(from) < SlidePath(to))
  {
  }

  lemma MoveApplies(deck: Json, from: nat, to: nat)
    requires IsDeck(deck) && from < |Slides(deck)| && to < |Slides(deck)|
    ensures ApplyAll(deck, [Move(Text(SlidePath(from)), Text(SlidePath(to)))])
         == Some(WithField(deck, "slides", Arr(Moved(Slides(deck), from, to))))
  {
    hide ApplyAll, ChangeAt, Get, Text, IntText, ArrayIndex, Tokens;
    ApplyOne(deck, Move(Text(SlidePath(from)), Text(SlidePath(to))));
    SlidePathClean(from);
    SlidePathClean(to);
    PathRoundTrip(SlidePath(from));
    PathRoundTrip(SlidePath(to));
    SlidePathsPart(from, to);
    GetSlide(deck, from);
    IndexRoundTrip(from);
    ChangeSlide(deck, IntText(from), Remove);
    var less := WithField(deck, "slides", Arr(RemoveAt(Slides(deck), from)));
    IndexRoundTrip(to);
    NotDash(to);
    ChangeSlide(less, IntText(to), Add(Slides(deck)[from]));
    MoveFields(deck, RemoveAt(Slides(deck), from), Moved(Slides(deck), from, to));
  }

  lemma MoveFields(deck: Json, a: seq<Json>, b: seq<Json>)
    requires deck.Obj?
    ensures WithField(WithField(deck, "slides", Arr(a)), "slides", Arr(b)) == WithField(deck, "slides", Arr(b))
  {
    assert deck.fields["slides" := Arr(a)]["slides" := Arr(b)] == deck.fields["slides" := Arr(b)];
  }

  predicate InRange(i: int, n: nat) {
    0 <= i < n
  }

  /** Moving a slide agrees exactly unless it is asked to move a slide that is not there onto
      itself: tab mode calls that done before it looks. The deck stays as it was either way. */
  lemma MoveSlideAgrees(deck: Json, from: int, to: int)
    requires IsDeck(deck)
    ensures Agree(Live(deck, TabMoveSlide(deck, from, to)), DiskMoveSlide(deck, from, to))
         <==> !(from == to && !InRange(from, |Slides(deck)|))
    ensures DiskMoveSlide(deck, from, to).Done? ==>
      Live(deck, TabMoveSlide(deck, from, to)) == DiskMoveSlide(deck, from, to)
  {
    hide ApplyAll, Text, Moved, Node, SlidePath;
    GetSlides(deck);
    if InRange(from, |Slides(deck)|) && InRange(to, |Slides(deck)|) && from != to {
      MoveApplies(deck, from, to);
    }
  }

  /** ... and moving back undoes a move. */
  lemma MoveBack(slides: seq<Json>, from: nat, to: nat)
    requires from < |slides| && to < |slides|
    ensures |Moved(slides, from, to)| == |slides| && Moved(Moved(slides, from, to), to, from) == slides
  {
    var left := RemoveAt(slides, from);
    assert RemoveAt(InsertAt(left, to, slides[from]), to) == left;
    assert InsertAt(left, from, slides[from]) == slides;
  }

  const NO_SLIDES := Obj(map["slides" := Arr([])])

  lemma MovingNothing()
    ensures IsDeck(NO_SLIDES)
    ensures Live(NO_SLIDES, TabMoveSlide(NO_SLIDES, 0, 0)) == Done(NO_SLIDES)
    ensures DiskMoveSlide(NO_SLIDES, 0, 0) == Fault("out_of_range")
  {
  }

  // ---------------------------------------------------------------- one member of a slide

  lemma FoldOne(doc: Json, r: Rel)
    ensures Fold(doc, [r]) == ChangeAt(doc, r.rest, r.change)
  {
    hide ChangeAt;
    assert [r][1..] == [];
  }

  lemma ChangeKey(doc: Json, key: string, ch: Change)
    requires doc.Obj?
    ensures ChangeAt(doc, [key], ch)
         == if ch.Add? then Some(WithField(doc, key, ch.value))
            else if key !in doc.fields then None
            else if ch.Replace? then Some(WithField(doc, key, ch.value))
            else Some(Obj(doc.fields - {key}))
  {
  }

  /** A change of one entry of a list member. */
  lemma ChangeEntry(doc: Json, key: string, t: string, ch: Change)
    requires doc.Obj?
    ensures ChangeAt(doc, [key, t], ch)
         == (if Field(doc, key).None? then None
             else match ChangeMember(Field(doc, key).value, t, ch)
               case None => None
               case Some(v) => Some(WithField(doc, key, v)))
  {
    hide ChangeMember;
    assert [key, t][1..] == [t];
    if key in doc.fields && ChangeMember(doc.fields[key], t, ch).Some? { ChangeKeyMember(doc, key, t, ch); }
  }

  lemma ChangeKeyMember(doc: Json, key: string, t: string, ch: Change)
    requires doc.Obj? && key in doc.fields && ChangeMember(doc.fields[key], t, ch).Some?
    ensures ChangeMember(doc, key, Replace(ChangeMember(doc.fields[key], t, ch).value))
         == Some(WithField(doc, key, ChangeMember(doc.fields[key], t, ch).value))
  {
  }

  // ---------------------------------------------------------------- comparing decks

  lemma WithFieldInjective(doc: Json, key: string, a: Json, b: Json)
    requires doc.Obj?
    ensures WithField(doc, key, a) == WithField(doc, key, b) <==> a == b
  {
    assert WithField(doc, key, a).fields[key] == a && WithField(doc, key, b).fields[key] == b;
  }

  lemma WithSlideInjective(deck: Json, i: int, a: Json, b: Json)
    requires IsDeck(deck) && 0 <= i < |Slides(deck)|
    ensures WithSlide(deck, i, a) == WithSlide(deck, i, b) <==> a == b
  {
    WithFieldInjective(deck, "slides", Arr(Slides(deck)[i := a]), Arr(Slides(deck)[i := b]));
    assert Slides(deck)[i := a][i] == a && Slides(deck)[i := b][i] == b;
  }

  // ---------------------------------------------------------------- removing a tile

  /** Where the tile is, if the slide and the tile are there. */
  function TileAt(deck: Json, i: int, id: string): Option<nat> {
    if SlideAt(deck, i).None? then None else Find(Items(Field(Slides(deck)[i], "tiles")), id)
  }

  predicate StringList(list: seq<Json>) {
    forall k :: 0 <= k < |list| ==> list[k].Str?
  }

  lemma {:induction false} RebuiltLength(list: seq<Json>, id: string)
    ensures |RebuiltList(list, id)| == |Without(list, id)|
  {
    if list != [] { RebuiltLength(list[..|list| - 1], id); }
  }

  /** Rebuilding a list of strings is scrubbing it, and rebuilding anything else is not. */
  lemma {:induction false} RebuiltIsScrubbed(list: seq<Json>, id: string)
    requires id != ""
    ensures RebuiltList(list, id) == Without(list, id) <==> StringList(list)
  {
    if list != [] {
      var front, last := list[..|list| - 1], list[|list| - 1];
      RebuiltIsScrubbed(front, id);
      RebuiltLength(front, id);
      assert StringList(list) <==> StringList(front) && last.Str?;
      if StringOf(last) == id {
        assert last.Str? && RebuiltList(list, id) == RebuiltList(front, id) && Without(list, id) == Without(front, id);
      } else {
        LastDiffers(RebuiltList(front, id), Without(front, id), Str(StringOf(last)), last);
      }
    }
  }

  lemma LastDiffers(a: seq<Json>, b: seq<Json>, x: Json, y: Json)
    requires |a| == |b|
    ensures a + [x] == b + [y] <==> a == b && x == y
  {
    if a + [x] == b + [y] {
      assert a == (a + [x])[..|a|] && b == (b + [y])[..|b|];
      assert x == (a + [x])[|a|] && y == (b + [y])[|b|];
    }
  }

  function RemoveTileRels(slide: Json, at: nat, id: string): seq<Rel> {
    var shown := Field(slide, "reveal");
    [Rel(["tiles", IntText(at)], Remove)]
    + if shown.Some? && shown.value.Arr?
      then [Rel(["reveal"], Replace(Arr(RebuiltList(shown.value.items, id))))] else []
  }

  lemma UnderOne(p: seq<string>, r: Rel)
    ensures Under(p, [r]) == [Edit(Text(p + r.rest), r.change)]
  {
    assert [r][1..] == [];
  }

  lemma {:induction false} UnderJoin(p: seq<string>, a: seq<Rel>, b: seq<Rel>)
    ensures Under(p, a + b) == Under(p, a) + Under(p, b)
  {
    if a == [] {
      assert a + b == b;
    } else {
      assert (a + b)[1..] == a[1..] + b;
      UnderJoin(p, a[1..], b);
    }
  }

  lemma ProperJoin(a: seq<Rel>, b: seq<Rel>)
    requires Proper(a) && Proper(b)
    ensures Proper(a + b)
  {
  }

  lemma ProperKey(key: string, ch: Change)
    requires Clean(key)
    ensures Proper([Rel([key], ch)])
  {
  }

  lemma ProperEntry(key: string, t: string, ch: Change)
    requires Clean(key) && Clean(t)
    ensures Proper([Rel([key, t], ch)])
  {
  }

  /** What the patch leaves of the slide. */
  function RebuiltSlide(slide: Json, at: nat, id: string): Json
    requires at < |Items(Field(slide, "tiles"))|
  {
    var slide' := WithField(slide, "tiles", Arr(RemoveAt(Items(Field(slide, "tiles")), at)));
    var shown := Field(slide', "reveal");
    if shown.Some? && shown.value.Arr? then WithField(slide', "reveal", Arr(RebuiltList(shown.value.items, id)))
    else slide'
  }

  lemma RemoveTileFolds(slide: Json, at: nat, id: string)
    requires slide.Obj? && at < |Items(Field(slide, "tiles"))|
    ensures Proper(RemoveTileRels(slide, at, id))
    ensures Fold(slide, RemoveTileRels(slide, at, id)) == Some(RebuiltSlide(slide, at, id))
  {
    hide Proper, ArrayIndex, IntText, Fold, ChangeAt, RebuiltList;
    IntTextClean(at);
    IndexRoundTrip(at);
    assert Clean("tiles") && Clean("reveal");
    ProperEntry("tiles", IntText(at), Remove);
    var first := Rel(["tiles", IntText(at)], Remove);
    ChangeEntry(slide, "tiles", IntText(at), Remove);
    FoldOne(slide, first);
    var slide' := WithField(slide, "tiles", Arr(RemoveAt(Items(Field(slide, "tiles")), at)));
    var shown := Field(slide, "reveal");
    if shown.Some? && shown.value.Arr? {
      var second := Rel(["reveal"], Replace(Arr(RebuiltList(shown.value.items, id))));
      ProperKey("reveal", second.change);
      ProperJoin([first], [second]);
      FoldJoin(slide, [first], [second]);
      FoldOne(slide', second);
      ChangeKey(slide', "reveal", second.change);
    } else {
      assert [first] + [] == [first];
    }
  }

  lemma RemoveTileOps(deck: Json, i: int, id: string)
    requires IsDeck(deck) && TileAt(deck, i, id).Some?
    ensures TabRemoveTile(deck, i, id) ==
      Patched(Under(SlidePath(i), RemoveTileRels(Slides(deck)[i], TileAt(deck, i, id).value, id)))
  {
    hide Node, Text, SlidePath, Find, RebuiltList;
    NodeSlide(deck, i);
    var at := TileAt(deck, i, id).value;
    var shown := Field(Slides(deck)[i], "reveal");
    var first := Rel(["tiles", IntText(at)], Remove);
    UnderOne(SlidePath(i), first);
    if shown.Some? && shown.value.Arr? {
      var second := Rel(["reveal"], Replace(Arr(RebuiltList(shown.value.items, id))));
      UnderOne(SlidePath(i), second);
      UnderJoin(SlidePath(i), [first], [second]);
    } else {
      assert [first] + [] == [first];
    }
  }

  lemma RemoveTileLive(deck: Json, i: int, id: string)
    requires IsDeck(deck) && TileAt(deck, i, id).Some?
    ensures Live(deck, TabRemoveTile(deck, i, id))
         == Done(WithSlide(deck, i, RebuiltSlide(Slides(deck)[i], TileAt(deck, i, id).value, id)))
  {
    hide Proper, Fold, Under, ApplyAll, SlidePath, RebuiltSlide, WithSlide, Find, TabRemoveTile;
    RemoveTileOps(deck, i, id);
    var at := TileAt(deck, i, id).value;
    RemoveTileFolds(Slides(deck)[i], at, id);
    InSlide(deck, i, RemoveTileRels(Slides(deck)[i], at, id));
  }

  lemma RebuiltSlideIs(slide: Json, at: nat, id: string)
    requires slide.Obj? && id != "" && at < |Items(Field(slide, "tiles"))|
    ensures RebuiltSlide(slide, at, id) == WithoutTile(slide, at, id)
         <==> (var shown := Field(slide, "reveal");
               !(shown.Some? && shown.value.Arr? && !StringList(shown.value.items)))
  {
    hide StringList, RebuiltList, Without;
    var slide' := WithField(slide, "tiles", Arr(RemoveAt(Items(Field(slide, "tiles")), at)));
    var shown := Field(slide, "reveal");
    if shown.Some? && shown.value.Arr? {
      var list := shown.value.items;
      RebuiltIsScrubbed(list, id);
      WithFieldInjective(slide', "reveal", Arr(RebuiltList(list, id)), Arr(Without(list, id)));
    }
  }

  /** Removing a tile agrees exactly when the slide's reveal list, if it is a list, holds nothing
      but strings (or there is no tile to remove). */
  lemma RemoveTileAgrees(deck: Json, i: int, id: string)
    requires IsDeck(deck) && id != ""
    ensures Agree(Live(deck, TabRemoveTile(deck, i, id)), DiskRemoveTile(deck, i, id))
         <==> (TileAt(deck, i, id).Some? ==> StringList(Items(Field(Slides(deck)[i], "reveal"))))
  {
    hide ApplyAll, Node, SlidePath, RebuiltSlide, WithoutTile, WithSlide, Find;
    NodeSlide(deck, i);
    if TileAt(deck, i, id).Some? {
      var at := TileAt(deck, i, id).value;
      RemoveTileLive(deck, i, id);
      RebuiltSlideIs(Slides(deck)[i], at, id);
      WithSlideInjective(deck, i, RebuiltSlide(Slides(deck)[i], at, id), WithoutTile(Slides(deck)[i], at, id));
    }
  }

  // ---------------------------------------------------------------- one tile of a slide

  /** The whole of what the tools do to one tile, seen from the slide. */
  function TileRels(at: nat, rels: seq<Rel>): seq<Rel> {
    if rels == [] then [] else [Rel(["tiles", IntText(at)] + rels[0].rest, rels[0].change)] + TileRels(at, rels[1..])
  }

  lemma {:induction false} UnderTile(i: int, at: nat, rels: seq<Rel>)
    ensures Under(SlidePath(i), TileRels(at, rels)) == Under(SlidePath(i) + ["tiles", IntText(at)], rels)
  {
    hide Text, SlidePath;
    if rels != [] {
      UnderTile(i, at, rels[1..]);
      assert SlidePath(i) + (["tiles", IntText(at)] + rels[0].rest) ==
        SlidePath(i) + ["tiles", IntText(at)] + rels[0].rest;
      assert TileRels(at, rels)[1..] == TileRels(at, rels[1..]);
    }
  }

  lemma TilePathClean(at: nat)
    ensures AllClean(["tiles", IntText(at)])
  {
    IntTextClean(at);
    assert Clean("tiles");
  }

  lemma {:induction false} TileRelsProper(at: nat, rels: seq<Rel>)
    requires Proper(rels)
    ensures Proper(TileRels(at, rels))
  {
    hide Clean;
    TilePathClean(at);
    if rels != [] {
      TileRelsProper(at, rels[1..]);
      assert rels[0] in rels;
    }
  }

  lemma TileInSlide(slide: Json, at: nat)
    requires slide.Obj? && at < |Items(Field(slide, "tiles"))|
    ensures Get(slide, ["tiles", IntText(at)]) == Some(Items(Field(slide, "tiles"))[at])
    ensures forall v :: ChangeAt(slide, ["tiles", IntText(at)], Replace(v)) == Some(WithTile(slide, at, v))
  {
    hide ArrayIndex, IntText, ChangeAt;
    IndexRoundTrip(at);
    GetSecond(slide, "tiles", IntText(at));
    forall v ensures ChangeAt(slide, ["tiles", IntText(at)], Replace(v)) == Some(WithTile(slide, at, v)) {
      ChangeEntry(slide, "tiles", IntText(at), Replace(v));
    }
  }

  /** Folding a tile's changes over the slide changes that tile. */
  lemma {:induction false} FoldTile(slide: Json, at: nat, rels: seq<Rel>)
    requires slide.Obj? && at < |Items(Field(slide, "tiles"))| && Proper(rels)
    ensures Fold(slide, TileRels(at, rels))
         == (match Fold(Items(Field(slide, "tiles"))[at], rels)
           case None => None
           case Some(t) => Some(WithTile(slide, at, t)))
    decreases |rels|
  {
    hide ChangeAt, Get, IntText, AllClean;
    TileInSlide(slide, at);
    var tile := Items(Field(slide, "tiles"))[at];
    if rels == [] {
      TileItself(slide, at);
    } else {
      var all := TileRels(at, rels);
      assert all[1..] == TileRels(at, rels[1..]);
      ChangeUnder(slide, ["tiles", IntText(at)], rels[0].rest, rels[0].change);
      match ChangeAt(tile, rels[0].rest, rels[0].change) {
        case None =>
        case Some(t) =>
          TileAgain(slide, at, t);
          FoldTile(WithTile(slide, at, t), at, rels[1..]);
          match Fold(t, rels[1..]) {
            case None =>
            case Some(u) => TileTwice(slide, at, t, u);
          }
      }
    }
  }

  lemma TileItself(slide: Json, at: nat)
    requires slide.Obj? && at < |Items(Field(slide, "tiles"))|
    ensures WithTile(slide, at, Items(Field(slide, "tiles"))[at]) == slide
  {
    var tiles := Items(Field(slide, "tiles"));
    assert tiles[at := tiles[at]] == tiles;
    assert slide.fields["tiles" := Arr(tiles)] == slide.fields;
  }

  lemma TileAgain(slide: Json, at: nat, t: Json)
    requires slide.Obj? && at < |Items(Field(slide, "tiles"))|
    ensures var s := WithTile(slide, at, t);
      s.Obj? && at < |Items(Field(s, "tiles"))| && Items(Field(s, "tiles"))[at] == t
  {
  }

  lemma TileTwice(slide: Json, at: nat, t: Json, u: Json)
    requires slide.Obj? && at < |Items(Field(slide, "tiles"))|
    ensures WithTile(WithTile(slide, at, t), at, u) == WithTile(slide, at, u)
  {
    var tiles := Items(Field(slide, "tiles"));
    assert tiles[at := t][at := u] == tiles[at := u];
    assert slide.fields["tiles" := Arr(tiles[at := t])]["tiles" := Arr(tiles[at := u])] ==
      slide.fields["tiles" := Arr(tiles[at := u])];
  }

  /** A patch of one tile. */
  lemma InTile(deck: Json, i: int, at: nat, rels: seq<Rel>)
    requires IsDeck(deck) && SlideAt(deck, i).Some? && at < |Items(Field(Slides(deck)[i], "tiles"))| && Proper(rels)
    ensures ApplyAll(deck, Under(SlidePath(i) + ["tiles", IntText(at)], rels))
         == (match Fold(Items(Field(Slides(deck)[i], "tiles"))[at], rels)
             case None => None
             case Some(t) => Some(WithSlide(deck, i, WithTile(Slides(deck)[i], at, t))))
  {
    hide Fold, Under, ApplyAll, SlidePath, WithSlide, WithTile, IntText, Proper;
    UnderTile(i, at, rels);
    TileRelsProper(at, rels);
    InSlide(deck, i, TileRels(at, rels));
    FoldTile(Slides(deck)[i], at, rels);
  }

  // ---------------------------------------------------------------- resizing

  function SizeRels(rows: nat, cols: nat, cells: Json): seq<Rel> {
    [Rel(["rows"], Replace(Num(rows as real))), Rel(["cols"], Replace(Num(cols as real))),
      Rel(["cells"], Replace(cells))]
  }

  predicate HasSize(tile: Json) {
    Field(tile, "rows").Some? && Field(tile, "cols").Some? && Field(tile, "cells").Some?
  }

  lemma SizeFolds(tile: Json, rows: nat, cols: nat, cells: Json)
    requires tile.Obj?
    ensures Fold(tile, SizeRels(rows, cols, cells))
         == if HasSize(tile) then Some(WithSize(tile, rows, cols, cells)) else None
  {
    hide ChangeAt;
    var rels := SizeRels(rows, cols, cells);
    var t1 := WithField(tile, "rows", Num(rows as real));
    var t2 := WithField(t1, "cols", Num(cols as real));
    ChangeKey(tile, "rows", rels[0].change);
    ChangeKey(t1, "cols", rels[1].change);
    ChangeKey(t2, "cells", rels[2].change);
    FoldThree(tile, rels[0], rels[1], rels[2]);
  }

  lemma FoldThree(doc: Json, a: Rel, b: Rel, c: Rel)
    ensures Fold(doc, [a, b, c])
         == (match ChangeAt(doc, a.rest, a.change) case None => None
             case Some(d) => match ChangeAt(d, b.rest, b.change) case None => None
               case Some(e) => ChangeAt(e, c.rest, c.change))
  {
    hide ChangeAt;
    assert [a, b, c][1..] == [b, c] && [b, c][1..] == [c];
    match ChangeAt(doc, a.rest, a.change) {
      case None =>
      case Some(d) =>
        match ChangeAt(d, b.rest, b.change) {
          case None =>
          case Some(e) => FoldOne(e, c);
        }
    }
  }

  lemma SizeProper(rows: nat, cols: nat, cells: Json)
    ensures Proper(SizeRels(rows, cols, cells))
  {
    assert Clean("rows") && Clean("cols") && Clean("cells");
  }

  lemma UnderThree(p: seq<string>, a: Rel, b: Rel, c: Rel)
    ensures Under(p, [a, b, c]) ==
      [Edit(Text(p + a.rest), a.change), Edit(Text(p + b.rest), b.change), Edit(Text(p + c.rest), c.change)]
  {
    hide Text;
    assert [a, b, c][1..] == [b, c] && [b, c][1..] == [c];
    UnderOne(p, c);
  }

  lemma ResizeLive(deck: Json, i: int, id: string, rows: nat, cols: nat)
    requires IsDeck(deck) && TileAt(deck, i, id).Some?
    requires ResizedCells(Items(Field(Slides(deck)[i], "tiles"))[TileAt(deck, i, id).value], rows, cols).Some?
    ensures var at := TileAt(deck, i, id).value;
      var tile := Items(Field(Slides(deck)[i], "tiles"))[at];
      Live(deck, TabResize(deck, i, id, rows, cols))
      == if HasSize(tile)
         then Done(WithSlide(deck, i,
           WithTile(Slides(deck)[i], at, WithSize(tile, rows, cols, ResizedCells(tile, rows, cols).value))))
         else Fault("patch_rejected")
  {
    hide Node, Text, Fold, Under, ApplyAll, SlidePath, WithSlide, WithTile, IntText, Find, ResizedCells, WithSize,
         Proper, HasSize;
    NodeSlide(deck, i);
    var at := TileAt(deck, i, id).value;
    var tile := Items(Field(Slides(deck)[i], "tiles"))[at];
    var cells := ResizedCells(tile, rows, cols).value;
    var rels := SizeRels(rows, cols, cells);
    SizeProper(rows, cols, cells);
    UnderThree(SlidePath(i) + ["tiles", IntText(at)], rels[0], rels[1], rels[2]);
    InTile(deck, i, at, rels);
    SizeFolds(tile, rows, cols, cells);
  }

  /** Resizing agrees exactly when the tile it would resize already has its three size keys: tab
      mode replaces them, disk mode sets them. */
  lemma ResizeAgrees(deck: Json, i: int, id: string, rows: nat, cols: nat)
    requires IsDeck(deck)
    ensures Agree(Live(deck, TabResize(deck, i, id, rows, cols)), DiskResize(deck, i, id, rows, cols))
         <==> (TileAt(deck, i, id).Some?
               && ResizedCells(Items(Field(Slides(deck)[i], "tiles"))[TileAt(deck, i, id).value], rows, cols).Some?
               ==> HasSize(Items(Field(Slides(deck)[i], "tiles"))[TileAt(deck, i, id).value]))
  {
    hide ApplyAll, Text, Node, SlidePath, WithSlide, WithTile, IntText, Find, ResizedCells, WithSize, HasSize;
    NodeSlide(deck, i);
    if TileAt(deck, i, id).Some?
       && ResizedCells(Items(Field(Slides(deck)[i], "tiles"))[TileAt(deck, i, id).value], rows, cols).Some? {
      ResizeLive(deck, i, id, rows, cols);
    }
  }
}
