/** What each presentation tool makes of the deck, told from its arguments: where a slide lands,
    which fields of a tile are set, which cells a sheet keeps. The results are stated for any
    outcome that is a success, so they hold of both modes. */
module DeckChanges {
  import opened Common
  import opened Patch
  import opened Slices
  import opened Presentation
  import opened Agreement
  import opened AgreementEdits

  // ---------------------------------------------------------------- what stays

  /** Two objects differ in that key at most. */
  ghost predicate OnlyKey(a: Json, b: Json, key: string) {
    a.Obj? && b.Obj? && forall k :: k != key ==> Field(a, k) == Field(b, k)
  }

  ghost predicate SlidesAre(deck: Json, deck': Json, slides: seq<Json>) {
    OnlyKey(deck, deck', "slides") && IsDeck(deck') && Slides(deck') == slides
  }

  /** One slide is another one now, and the rest of the deck is as it was. */
  ghost predicate SlideIs(deck: Json, deck': Json, i: int, slide: Json) {
    0 <= i < |Slides(deck)| && SlidesAre(deck, deck', Slides(deck)[i := slide])
  }

  ghost predicate ListIs(doc: Json, doc': Json, key: string, items: seq<Json>) {
    OnlyKey(doc, doc', key) && Field(doc', key) == Some(Arr(items))
  }

  lemma SlidesSet(deck: Json, slides: seq<Json>)
    requires IsDeck(deck)
    ensures SlidesAre(deck, WithField(deck, "slides", Arr(slides)), slides)
  {
  }

  lemma SlideSet(deck: Json, i: int, slide: Json)
    requires IsDeck(deck) && 0 <= i < |Slides(deck)|
    ensures SlideIs(deck, WithSlide(deck, i, slide), i, slide)
  {
    SlidesSet(deck, Slides(deck)[i := slide]);
  }

  lemma FieldSet(doc: Json, key: string, items: seq<Json>)
    requires doc.Obj?
    ensures ListIs(doc, WithField(doc, key, Arr(items)), key, items)
  {
  }

  /** Success in either mode. */
  ghost predicate Succeeds(live: Outcome, disk: Outcome, deck': Json) {
    live == Done(deck') || disk == Done(deck')
  }

  // ---------------------------------------------------------------- slides

  /** A new slide goes where it is asked to, to the nearest end when that is off the list, and to
      the end when nothing is asked; the other slides keep their order. */
  lemma AddedSlide(deck: Json, position: Option<int>, slide: Json, deck': Json)
    requires IsDeck(deck)
    requires Succeeds(Live(deck, TabAddSlide(deck, position, slide)), DiskAddSlide(deck, position, slide), deck')
    ensures SlidesAre(deck, deck', Slides(deck'))
    ensures exists at ::
      && 0 <= at <= |Slides(deck)|
      && Slides(deck') == Slides(deck)[..at] + [slide] + Slides(deck)[at..]
      && (position.None? ==> at == |Slides(deck)|)
      && (position.Some? && 0 <= position.value <= |Slides(deck)| ==> at == position.value)
      && (position.Some? && position.value < 0 ==> at == 0)
      && (position.Some? && position.value > |Slides(deck)| ==> at == |Slides(deck)|)
  {
    hide TabAddSlide, Live, Slides, IsDeck;
    AddSlideAgrees(deck, position, slide);
    var n := |Slides(deck)|;
    var at := if position.Some? then Clamp(position.value, n) else n;
    SlidesSet(deck, InsertAt(Slides(deck), at, slide));
    assert Slides(deck') == Slides(deck)[..at] + [slide] + Slides(deck)[at..];
  }

  /** A moved slide is at the place asked for, and without it the slides are in their old order. */
  lemma MovedSlide(deck: Json, from: int, to: int, deck': Json)
    requires IsDeck(deck) && 0 <= from < |Slides(deck)|
    requires Succeeds(Live(deck, TabMoveSlide(deck, from, to)), DiskMoveSlide(deck, from, to), deck')
    ensures SlidesAre(deck, deck', Slides(deck')) && |Slides(deck')| == |Slides(deck)| && 0 <= to < |Slides(deck)|
    ensures Slides(deck')[to] == Slides(deck)[from]
    ensures Slides(deck')[..to] + Slides(deck')[to + 1..] == Slides(deck)[..from] + Slides(deck)[from + 1..]
  {
    hide TabMoveSlide, Live, Slides, IsDeck;
    MoveSlideAgrees(deck, from, to);
    if from != to {
      SlidesSet(deck, Moved(Slides(deck), from, to));
    } else {
      SameSlides(deck);
    }
  }

  lemma SameSlides(deck: Json)
    requires IsDeck(deck)
    ensures SlidesAre(deck, deck, Slides(deck))
  {
  }

  /** A removed slide is the one at that place, and it is never the only one. */
  lemma RemovedSlide(deck: Json, i: int, deck': Json)
    requires IsDeck(deck)
    requires Succeeds(Live(deck, TabRemoveSlide(deck, i)), DiskRemoveSlide(deck, i), deck')
    ensures 0 <= i < |Slides(deck)| && |Slides(deck)| > 1
    ensures SlidesAre(deck, deck', Slides(deck)[..i] + Slides(deck)[i + 1..])
  {
    hide TabRemoveSlide, Live, Slides, IsDeck;
    RemoveSlideAgrees(deck, i);
    SlidesSet(deck, RemoveAt(Slides(deck), i));
  }

  /** Which of the three fail: only for a place that is not there, or for the last slide. */
  lemma SlidesRefusals(deck: Json, position: Option<int>, slide: Json, from: int, to: int)
    requires IsDeck(deck)
    ensures DiskAddSlide(deck, position, slide).Done?
    ensures DiskMoveSlide(deck, from, to).Done? <==> 0 <= from < |Slides(deck)| && 0 <= to < |Slides(deck)|
    ensures DiskRemoveSlide(deck, from).Done? <==> 0 <= from < |Slides(deck)| && |Slides(deck)| > 1
  {
  }

  // ---------------------------------------------------------------- one tile

  /** The first tile with that id on that slide has become `tile'`; everything else is as it was. */
  ghost predicate TileIs(deck: Json, deck': Json, i: int, id: string, tile': Json) {
    && SlideAt(deck, i).Some? && Find(Items(Field(Slides(deck)[i], "tiles")), id).Some?
    && var tiles := Items(Field(Slides(deck)[i], "tiles"));
       var at := Find(tiles, id).value;
       exists slide' :: SlideIs(deck, deck', i, slide') && ListIs(Slides(deck)[i], slide', "tiles", tiles[at := tile'])
  }

  lemma TileSet(deck: Json, i: int, id: string, tile': Json)
    requires IsDeck(deck) && SlideAt(deck, i).Some? && Find(Items(Field(Slides(deck)[i], "tiles")), id).Some?
    ensures var at := Find(Items(Field(Slides(deck)[i], "tiles")), id).value;
      TileIs(deck, WithSlide(deck, i, WithTile(Slides(deck)[i], at, tile')), i, id, tile')
  {
    hide SlideIs, ListIs, Slides, Find, Field, Items, WithField, IsDeck, WithSlide;
    assert Slides(deck)[i].Obj?;
    var tiles := Items(Field(Slides(deck)[i], "tiles"));
    var at := Find(tiles, id).value;
    var slide' := WithTile(Slides(deck)[i], at, tile');
    FieldSet(Slides(deck)[i], "tiles", tiles[at := tile']);
    SlideSet(deck, i, slide');
  }

  function TileOf(deck: Json, i: int, id: string): Json
    requires SlideAt(deck, i).Some? && Find(Items(Field(Slides(deck)[i], "tiles")), id).Some?
  {
    var tiles := Items(Field(Slides(deck)[i], "tiles"));
    tiles[Find(tiles, id).value]
  }

  // ---------------------------------------------------------------- modifying a tile

  /** What the arguments want of a field. */
  datatype Wish = Keep | Clear | Become(value: Json)

  function WishFor(a: ModifyArgs, k: string): Wish {
    if k == "x" then Wanting(if a.x.Some? then Some(Num(a.x.value)) else None)
    else if k == "y" then Wanting(if a.y.Some? then Some(Num(a.y.value)) else None)
    else if k == "w" then Wanting(if a.w.Some? then Some(Num(a.w.value)) else None)
    else if k == "h" then Wanting(if a.h.Some? then Some(Num(a.h.value)) else None)
    else if k == "rotation" then
      if a.rotation == Some(0.0) then Clear
      else Wanting(if a.rotation.Some? then Some(Num(a.rotation.value)) else None)
    else if k == "content" then Wanting(if a.content.Some? then Some(Str(a.content.value)) else None)
    else if k == "text_mode" then Wanting(if a.textMode.Some? then Some(Str(a.textMode.value)) else None)
    else if k == "font_size" then
      if a.fontSize == Some(0) then Clear
      else Wanting(if a.fontSize.Some? then Some(Num(a.fontSize.value as real)) else None)
    else if k == "auto_fit" then
      match a.autoFit
      case Some(Some(true)) => Become(Bool(true))
      case Some(Some(false)) => Clear
      case _ => Keep
    else if k == "src" then Wanting(if a.source.Some? && a.source.value.Image? then Some(a.source.value.blob) else None)
    else Keep
  }

  function Wanting(v: Option<Json>): Wish {
    if v.Some? then Become(v.value) else Keep
  }

  /** What a modification does to one field. */
  lemma OneField(tile: Json, patch: map<string, Json>, erase: seq<string>, k: string)
    requires tile.Obj?
    ensures Field(Modified(tile, patch, erase), k)
         == if k in erase then None else if k in patch then Some(patch[k]) else Field(tile, k)
  {
  }

  /** Every argument is in its own field, and nothing else has changed. */
  ghost predicate ArgumentsSet(a: ModifyArgs, tile: Json, tile': Json) {
    forall k :: Field(tile', k) == match WishFor(a, k)
                                   case Keep => Field(tile, k)
                                   case Clear => None
                                   case Become(v) => Some(v)
  }

  lemma PlaceIsWish(a: ModifyArgs, k: string)
    ensures k in PlaceOf(a) <==> k in ["x", "y", "w", "h", "rotation"] && WishFor(a, k).Become?
    ensures k in PlaceOf(a) ==> WishFor(a, k) == Become(PlaceOf(a)[k])
  {
  }

  lemma PatchIsWish(a: ModifyArgs, k: string)
    ensures k in PatchOf(a) <==> WishFor(a, k).Become?
    ensures k in PatchOf(a) ==> WishFor(a, k) == Become(PatchOf(a)[k])
  {
    PlaceIsWish(a, k);
    hide PlaceOf;
  }

  lemma EraseIsWish(a: ModifyArgs, k: string)
    ensures k in EraseOf(a) <==> WishFor(a, k).Clear?
  {
  }

  lemma ModifiedFields(a: ModifyArgs, tile: Json)
    requires tile.Obj?
    ensures ArgumentsSet(a, tile, Modified(tile, PatchOf(a), EraseOf(a)))
  {
    hide Modified, Field, WishFor, PatchOf, EraseOf;
    forall k: string
      ensures Field(Modified(tile, PatchOf(a), EraseOf(a)), k) == match WishFor(a, k)
                                                                  case Keep => Field(tile, k)
                                                                  case Clear => None
                                                                  case Become(v) => Some(v)
    {
      OneField(tile, PatchOf(a), EraseOf(a), k);
      PatchIsWish(a, k);
      EraseIsWish(a, k);
    }
  }

  /** The arguments are acceptable for this tile. */
  predicate Acceptable(a: ModifyArgs, tile: Json) {
    var kind := TextOf(Field(tile, "kind"));
    && (a.x.Some? ==> 0.0 <= a.x.value <= 1.0) && (a.y.Some? ==> 0.0 <= a.y.value <= 1.0)
    && (a.w.Some? ==> 0.0 <= a.w.value <= 1.0) && (a.h.Some? ==> 0.0 <= a.h.value <= 1.0)
    && (kind == "text" || (a.content.None? && a.textMode.None? && a.fontSize.None? && a.autoFit.None?))
    && (kind == "image" || a.source.None?)
    && (a.textMode.None?
        || a.textMode.value == "plain" || a.textMode.value == "bullet" || a.textMode.value == "numbered")
    && (a.fontSize.Some? ==> a.fontSize.value == 0 || 8 <= a.fontSize.value <= 200)
    && (a.source.Some? ==> a.source.value.Image?)
  }

  /** A modification, in either mode, puts every argument into its own field of the first tile with
      that id, clears what is to be cleared, and leaves everything else as it was. */
  lemma ModifiedTile(deck: Json, i: int, id: string, a: ModifyArgs, order: seq<string>, deck': Json)
    requires IsDeck(deck) && Orders(order, PatchOf(a))
    requires Succeeds(Live(deck, TabModify(deck, i, id, a, order)), DiskModify(deck, i, id, a), deck')
    ensures SlideAt(deck, i).Some? && Find(Items(Field(Slides(deck)[i], "tiles")), id).Some?
    ensures exists tile' :: TileIs(deck, deck', i, id, tile') && ArgumentsSet(a, TileOf(deck, i, id), tile')
  {
    hide TabModify, Live, Modified, ArgumentsSet, TileIs, PatchOf, EraseOf, Find, Slides, Field, Items, IsDeck, Orders,
         WithSlide, WithTile, OnlyErasesAbsent;
    ModifyAgrees(deck, i, id, a, order);
    if TileAt(deck, i, id).Some? { ModifyLive(deck, i, id, a, order); }
    var tile := TileOf(deck, i, id);
    var tile' := Modified(tile, PatchOf(a), EraseOf(a));
    TileSet(deck, i, id, tile');
    ModifiedFields(a, tile);
  }

  /** Disk mode modifies exactly the tiles that are there, with acceptable arguments. */
  lemma ModifyAccepts(deck: Json, i: int, id: string, a: ModifyArgs)
    ensures DiskModify(deck, i, id, a).Done? <==>
      && SlideAt(deck, i).Some? && Find(Items(Field(Slides(deck)[i], "tiles")), id).Some?
      && Acceptable(a, TileOf(deck, i, id))
  {
    hide Find, Field, Items, Slides, PatchOf, EraseOf, WithSlide, WithTile, Modified, TextOf;
  }

  // ---------------------------------------------------------------- removing a tile

  /** How a list is filtered: by itself an entry stays unless it reads as the id, and lists are
      filtered part by part, so what stays is in its order. */
  lemma {:induction false} WithoutJoins(a: seq<Json>, b: seq<Json>, id: string)
    ensures Without(a + b, id) == Without(a, id) + Without(b, id)
  {
    hide StringOf;
    if b == [] {
      assert a + b == a;
    } else {
      var front := b[..|b| - 1];
      WithoutJoins(a, front, id);
      assert (a + b)[..|a + b| - 1] == a + front;
    }
  }

  lemma WithoutOne(v: Json, id: string)
    ensures Without([v], id) == if (v.Str? && v.s == id) || (!v.Str? && id == "") then [] else [v]
  {
    assert [v][..0] == [];
  }

  /** Removing a tile takes the first one with that id out of its slide and its id out of the list of
      what is revealed, and leaves everything else as it was; in tab mode when that list holds
      strings only, as the modes then agree. */
  lemma RemovedTile(deck: Json, i: int, id: string, deck': Json)
    requires IsDeck(deck) && id != ""
    requires || DiskRemoveTile(deck, i, id) == Done(deck')
             || (Live(deck, TabRemoveTile(deck, i, id)) == Done(deck')
                 && (TileAt(deck, i, id).Some? ==> StringList(Items(Field(Slides(deck)[i], "reveal")))))
    ensures SlideAt(deck, i).Some? && Find(Items(Field(Slides(deck)[i], "tiles")), id).Some?
    ensures exists slide' :: SlideIs(deck, deck', i, slide') && TileGone(Slides(deck)[i], slide', id)
  {
    hide TabRemoveTile, Live, StringList, Slides, IsDeck, Find, SlideIs, WithSlide, TileGone, WithoutTile;
    RemoveTileAgrees(deck, i, id);
    var slide := Slides(deck)[i];
    var at := Find(Items(Field(slide, "tiles")), id).value;
    SlideSet(deck, i, WithoutTile(slide, at, id));
    TileGoes(slide, at, id);
  }

  ghost predicate TileGone(slide: Json, slide': Json, id: string) {
    && slide.Obj? && slide'.Obj? && Find(Items(Field(slide, "tiles")), id).Some?
    && var at := Find(Items(Field(slide, "tiles")), id).value;
       var tiles := Items(Field(slide, "tiles"));
       && Field(slide', "tiles") == Some(Arr(tiles[..at] + tiles[at + 1..]))
       && Field(slide', "reveal") == (match Field(slide, "reveal")
                                      case Some(Arr(shown)) => Some(Arr(Without(shown, id)))
                                      case other => other)
       && forall k :: k != "tiles" && k != "reveal" ==> Field(slide', k) == Field(slide, k)
  }

  lemma TileGoes(slide: Json, at: nat, id: string)
    requires slide.Obj? && Find(Items(Field(slide, "tiles")), id) == Some(at)
    ensures TileGone(slide, WithoutTile(slide, at, id), id)
  {
    hide Find, Without;
  }

  // ---------------------------------------------------------------- resizing a sheet

  /** The cell of a stored sheet, if it reaches there. */
  function CellAt(tile: Json, r: nat, c: nat): Option<Json> {
    var rows := Items(Field(tile, "cells"));
    if r < |rows| && rows[r].Arr? && c < |rows[r].items| then Some(rows[r].items[c]) else None
  }

  /** The sheet has that many rows and columns; the cells inside the old size are the old ones, the
      others are empty, and no other field has changed. */
  ghost predicate SheetIs(tile: Json, tile': Json, rows: nat, cols: nat) {
    && tile.Obj? && tile'.Obj?
    && Field(tile', "rows") == Some(Num(rows as real)) && Field(tile', "cols") == Some(Num(cols as real))
    && |Items(Field(tile', "cells"))| == rows
    && (forall r :: 0 <= r < rows ==>
          Items(Field(tile', "cells"))[r].Arr? && |Items(Field(tile', "cells"))[r].items| == cols)
    && (forall r, c :: 0 <= r < rows && 0 <= c < cols ==>
          CellAt(tile', r, c) == if r < Truncated(Field(tile, "rows")) && c < Truncated(Field(tile, "cols"))
                                 then CellAt(tile, r, c) else Some(EMPTY_CELL))
    && (forall k :: k != "rows" && k != "cols" && k != "cells" ==> Field(tile', k) == Field(tile, k))
  }

  lemma SheetSet(tile: Json, rows: nat, cols: nat)
    requires tile.Obj? && ResizedCells(tile, rows, cols).Some?
    ensures SheetIs(tile, WithSize(tile, rows, cols, ResizedCells(tile, rows, cols).value), rows, cols)
  {
    hide Truncated;
    var grid := NewGrid(Items(Field(tile, "cells")), Truncated(Field(tile, "rows")), Truncated(Field(tile, "cols")),
                        rows, cols).value;
    hide NewGrid;
    var tile' := WithSize(tile, rows, cols, Arr(Boxed(grid)));
    assert Items(Field(tile', "cells")) == Boxed(grid);
    forall r, c | 0 <= r < rows && 0 <= c < cols
      ensures CellAt(tile', r, c) == if r < Truncated(Field(tile, "rows")) && c < Truncated(Field(tile, "cols"))
                                     then CellAt(tile, r, c) else Some(EMPTY_CELL)
    {
      assert Boxed(grid)[r] == Arr(grid[r]);
      assert CellAt(tile', r, c) == Some(grid[r][c]);
    }
  }

  /** Resizing a sheet, in either mode, gives that sheet its new size and keeps the cells that both
      sizes have. */
  lemma ResizedSheet(deck: Json, i: int, id: string, rows: nat, cols: nat, deck': Json)
    requires IsDeck(deck)
    requires Succeeds(Live(deck, TabResize(deck, i, id, rows, cols)), DiskResize(deck, i, id, rows, cols), deck')
    ensures SlideAt(deck, i).Some? && Find(Items(Field(Slides(deck)[i], "tiles")), id).Some?
    ensures exists tile' :: TileIs(deck, deck', i, id, tile') && SheetIs(TileOf(deck, i, id), tile', rows, cols)
  {
    hide TabResize, Live, TileIs, SheetIs, Find, Slides, Field, Items, IsDeck, WithSlide, WithTile, WithSize,
         ResizedCells, HasSize;
    ResizeAgrees(deck, i, id, rows, cols);
    if TileAt(deck, i, id).Some? && ResizedCells(TileOf(deck, i, id), rows, cols).Some? {
      ResizeLive(deck, i, id, rows, cols);
    }
    var tile := TileOf(deck, i, id);
    TileSet(deck, i, id, WithSize(tile, rows, cols, ResizedCells(tile, rows, cols).value));
    SheetSet(tile, rows, cols);
  }

  // ---------------------------------------------------------------- annotations

  /** A new annotation comes last, and nothing else changes; in tab mode when the annotations are a
      list or absent, as the modes then agree. */
  lemma AddedAnnotation(deck: Json, i: int, envelope: string -> Option<Json>, deck': Json)
    requires IsDeck(deck)
    requires || DiskAddAnnotation(deck, i, envelope) == Done(deck')
             || (Live(deck, TabAddAnnotation(deck, i, envelope)) == Done(deck') && (SlideAt(deck, i).Some? ==>
                   Field(Slides(deck)[i], "annotations").None? || Field(Slides(deck)[i], "annotations").value.Arr?))
    ensures SlideAt(deck, i).Some? && envelope(TextOf(Field(Slides(deck)[i], "id"))).Some?
    ensures var slide := Slides(deck)[i];
      var all := Items(Field(slide, "annotations")) + [envelope(TextOf(Field(slide, "id"))).value];
      exists slide' :: SlideIs(deck, deck', i, slide') && ListIs(slide, slide', "annotations", all)
  {
    AddAnnotationAgrees(deck, i, envelope);
    hide TabAddAnnotation, Live, Slides, IsDeck, SlideIs, ListIs, WithSlide, WithField, Items, Field, TextOf;
    var slide := Slides(deck)[i];
    var all := Items(Field(slide, "annotations")) + [envelope(TextOf(Field(slide, "id"))).value];
    FieldSet(slide, "annotations", all);
    SlideSet(deck, i, WithField(slide, "annotations", Arr(all)));
  }

  /** What is left of a slide whose annotation `id` goes: the list without it, or no list when it was
      the only one, and a list of what is revealed without its id. */
  ghost predicate AnnotationGone(slide: Json, slide': Json, id: string) {
    && slide.Obj? && slide'.Obj? && Find(Items(Field(slide, "annotations")), id).Some?
    && var all := Items(Field(slide, "annotations"));
       var at := Find(all, id).value;
       && Field(slide', "annotations") == (if |all| == 1 then None else Some(Arr(all[..at] + all[at + 1..])))
       && (if Items(Field(slide, "reveal")) == [] then Field(slide', "reveal") == Field(slide, "reveal")
           else Field(slide', "reveal") == Some(Arr(Without(Items(Field(slide, "reveal")), id))))
       && forall k :: k != "annotations" && k != "reveal" ==> Field(slide', k) == Field(slide, k)
  }

  lemma AnnotationGoes(slide: Json, at: nat, id: string)
    requires slide.Obj? && Find(Items(Field(slide, "annotations")), id) == Some(at)
    ensures AnnotationGone(slide, Scrubbed(Dropped(slide, at), id), id)
  {
    hide Find, Without;
  }

  /** Removing an annotation, in either mode. */
  lemma RemovedAnnotation(deck: Json, i: int, id: string, deck': Json)
    requires IsDeck(deck)
    requires Succeeds(Live(deck, TabRemoveAnnotation(deck, i, id)), DiskRemoveAnnotation(deck, i, id), deck')
    ensures SlideAt(deck, i).Some? && Find(Items(Field(Slides(deck)[i], "annotations")), id).Some?
    ensures exists slide' :: SlideIs(deck, deck', i, slide') && AnnotationGone(Slides(deck)[i], slide', id)
  {
    hide TabRemoveAnnotation, Live, Slides, IsDeck, Find, SlideIs, WithSlide, AnnotationGone, Scrubbed, Dropped, Items,
         Field;
    RemoveAnnotationAgrees(deck, i, id);
    var slide := Slides(deck)[i];
    var at := Find(Items(Field(slide, "annotations")), id).value;
    SlideSet(deck, i, Scrubbed(Dropped(slide, at), id));
    AnnotationGoes(slide, at, id);
  }

  /** Disk mode's other edits succeed exactly when what they name is there: the slide and the tile or
      the annotation; for a sheet, when the tile is one and its rows reach as far as both sizes do. */
  lemma EditsAccept(deck: Json, i: int, id: string, rows: nat, cols: nat)
    ensures DiskRemoveTile(deck, i, id).Done? <==>
      SlideAt(deck, i).Some? && Find(Items(Field(Slides(deck)[i], "tiles")), id).Some?
    ensures DiskRemoveAnnotation(deck, i, id).Done? <==>
      SlideAt(deck, i).Some? && Find(Items(Field(Slides(deck)[i], "annotations")), id).Some?
    ensures DiskResize(deck, i, id, rows, cols).Done? <==>
      && SlideAt(deck, i).Some? && Find(Items(Field(Slides(deck)[i], "tiles")), id).Some?
      && var tile := TileOf(deck, i, id);
         TextOf(Field(tile, "kind")) == "spreadsheet" && Reaches(tile, rows, cols)
  {
    hide Find, Field, Slides, WithSlide, WithTile, Scrubbed, Dropped, WithoutTile, WithSize, TextOf, Reaches;
    if SlideAt(deck, i).Some? && Find(Items(Field(Slides(deck)[i], "tiles")), id).Some? {
      SheetReaches(TileOf(deck, i, id), rows, cols);
    }
  }

  /** There is a stored cell at every place inside both sizes. */
  predicate Reaches(tile: Json, rows: nat, cols: nat) {
    var oldRows, oldCols := Truncated(Field(tile, "rows")), Truncated(Field(tile, "cols"));
    forall r, c :: 0 <= r < rows && r < oldRows && 0 <= c < cols && c < oldCols ==> CellAt(tile, r, c).Some?
  }

  lemma SheetReaches(tile: Json, rows: nat, cols: nat)
    ensures ResizedCells(tile, rows, cols).Some? <==>
      TextOf(Field(tile, "kind")) == "spreadsheet" && Reaches(tile, rows, cols)
  {
    hide Truncated, TextOf, Field;
    var cells, oldRows, oldCols :=
      Items(Field(tile, "cells")), Truncated(Field(tile, "rows")), Truncated(Field(tile, "cols"));
    assert forall r: nat, c: nat :: CellAt(tile, r, c) == OldCell(cells, r, c);
  }
}
