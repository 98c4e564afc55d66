/** The presentation tools' two ways to change a deck: live tab mode sends a JSON Patch to the
    host, disk mode changes the document it loaded. Each tool is given in both modes, with the
    faults both of them report. */
module Presentation {
  import opened Common
  import opened Pointer
  import opened Patch
  import opened Slices

  datatype Outcome = Done(deck: Json) | Fault(code: string)

  /** What tab mode does: refuse, answer without a patch, or send one. */
  datatype Reply = Refused(code: string) | Unchanged | Patched(ops: seq<Op>)

  /** The live deck afterwards: the builder refuses an empty patch, the host one that does not
      apply. */
  function Live(deck: Json, reply: Reply): Outcome {
    match reply
    case Refused(code) => Fault(code)
    case Unchanged => Done(deck)
    case Patched(ops) =>
      if ops == [] then Fault("empty_patch")
      else
        match ApplyAll(deck, ops)
        case None => Fault("patch_rejected")
        case Some(deck') => Done(deck')
  }

  /** Both fail, or both succeed with the same deck. */
  predicate Agree(a: Outcome, b: Outcome) {
    (a.Fault? && b.Fault?) || (a.Done? && a == b)
  }

  /** A deck document: an object with a list of slides. */
  predicate IsDeck(deck: Json) {
    deck.Obj? && "slides" in deck.fields && deck.fields["slides"].Arr?
  }

  // ---------------------------------------------------------------- reading documents

  function Node(deck: Json, tokens: seq<string>): Option<Json> {
    var path := Tokens(Text(tokens));
    if path.None? then None else Get(deck, path.value)
  }

  function Field(doc: Json, key: string): Option<Json> {
    if doc.Obj? && key in doc.fields then Some(doc.fields[key]) else None
  }

  function Items(v: Option<Json>): seq<Json> {
    if v.Some? && v.value.Arr? then v.value.items else []
  }

  function TextOf(v: Option<Json>): string {
    if v.Some? then StringOf(v.value) else ""
  }

  function WithField(doc: Json, key: string, v: Json): Json {
    if doc.Obj? then Obj(doc.fields[key := v]) else doc
  }

  function Truncated(v: Option<Json>): int {
    if v.Some? && v.value.Num? then
      if v.value.n >= 0.0 then v.value.n.Floor else -(-v.value.n).Floor
    else 0
  }

  function Slides(deck: Json): seq<Json> {
    Items(Field(deck, "slides"))
  }

  predicate HasId(v: Json, id: string) {
    v.Obj? && TextOf(Field(v, "id")) == id
  }

  /** The first object of a list with that id. */
  function Find(items: seq<Json>, id: string): (at: Option<nat>)
    ensures at.Some? ==> at.value < |items| && HasId(items[at.value], id)
    ensures forall k :: 0 <= k < (if at.Some? then at.value else |items|) ==> !HasId(items[k], id)
  {
    FindFrom(items, id, 0)
  }

  function FindFrom(items: seq<Json>, id: string, i: nat): (at: Option<nat>)
    requires i <= |items|
    ensures at.Some? ==> i <= at.value < |items| && HasId(items[at.value], id)
    ensures forall k :: i <= k < (if at.Some? then at.value else |items|) ==> !HasId(items[k], id)
    decreases |items| - i
  {
    if i == |items| then None
    else if HasId(items[i], id) then Some(i)
    else FindFrom(items, id, i + 1)
  }

  function SlidePath(i: int): seq<string> {
    ["slides", IntText(i)]
  }

  /** Disk mode's `slideAt`: an object slide in range, or nothing. */
  function SlideAt(deck: Json, i: int): Option<Json> {
    if 0 <= i < |Slides(deck)| && Slides(deck)[i].Obj? then Some(Slides(deck)[i]) else None
  }

  function SlideFault(deck: Json, i: int): string {
    if 0 <= i < |Slides(deck)| then "schema_violation" else "out_of_range"
  }

  /** The deck with one slide changed in place. */
  function WithSlide(deck: Json, i: int, slide: Json): Json {
    if 0 <= i < |Slides(deck)| then WithField(deck, "slides", Arr(Slides(deck)[i := slide])) else deck
  }

  function Clamp(p: int, n: nat): nat {
    if p < 0 then 0 else if p > n then n else p
  }

  // ---------------------------------------------------------------- adding a slide

  function TabAddSlide(deck: Json, position: Option<int>, slide: Json): Reply {
    var found := Node(deck, ["slides"]);
    if found.None? then Refused("not_found")
    else
      var n := |Items(found)|;
      var at := if position.Some? then Clamp(position.value, n) else n;
      Patched([Edit(Text(if at == n then ["slides", "-"] else SlidePath(at)), Add(slide))])
  }

  function DiskAddSlide(deck: Json, position: Option<int>, slide: Json): Outcome {
    var slides := Slides(deck);
    var at := if position.Some? then Clamp(position.value, |slides|) else |slides|;
    Done(WithField(deck, "slides", Arr(InsertAt(slides, at, slide))))
  }

  // ---------------------------------------------------------------- moving a slide

  function TabMoveSlide(deck: Json, from: int, to: int): Reply {
    if from == to then Unchanged
    else
      var found := Node(deck, ["slides"]);
      var n := |Items(found)|;
      if found.None? then Refused("not_found")
      else if from < 0 || from >= n || to < 0 || to >= n then Refused("out_of_range")
      else Patched([Move(Text(SlidePath(from)), Text(SlidePath(to)))])
  }

  function DiskMoveSlide(deck: Json, from: int, to: int): Outcome {
    var slides := Slides(deck);
    if from < 0 || from >= |slides| || to < 0 || to >= |slides| then Fault("out_of_range")
    else if from == to then Done(deck)
    else Done(WithField(deck, "slides", Arr(Moved(slides, from, to))))
  }

  // ---------------------------------------------------------------- removing a slide

  function TabRemoveSlide(deck: Json, i: int): Reply {
    var found := Node(deck, ["slides"]);
    var n := |Items(found)|;
    if found.None? then Refused("not_found")
    else if i < 0 || i >= n then Refused("out_of_range")
    else if n <= 1 then Refused("deck_empty_forbidden")
    else Patched([Edit(Text(SlidePath(i)), Remove)])
  }

  function DiskRemoveSlide(deck: Json, i: int): Outcome {
    var slides := Slides(deck);
    if i < 0 || i >= |slides| then Fault("out_of_range")
    else if |slides| <= 1 then Fault("deck_empty_forbidden")
    else Done(WithField(deck, "slides", Arr(RemoveAt(slides, i))))
  }

  // ---------------------------------------------------------------- removing a tile

  /** Tab mode rebuilds the reveal list as strings. */
  function RebuiltList(shown: seq<Json>, id: string): seq<Json> {
    if shown == [] then []
    else
      var last := StringOf(shown[|shown| - 1]);
      RebuiltList(shown[..|shown| - 1], id) + if last == id then [] else [Str(last)]
  }

  function TabRemoveTile(deck: Json, i: int, id: string): Reply {
    var slide := Node(deck, SlidePath(i));
    if slide.None? then Refused("out_of_range")
    else if !slide.value.Obj? then Refused("schema_violation")
    else
      var at := Find(Items(Field(slide.value, "tiles")), id);
      if at.None? then Refused("tile_not_found")
      else
        var shown := Field(slide.value, "reveal");
        Patched([Edit(Text(SlidePath(i) + ["tiles", IntText(at.value)]), Remove)]
                + if shown.Some? && shown.value.Arr?
                  then [Edit(Text(SlidePath(i) + ["reveal"]), Replace(Arr(RebuiltList(shown.value.items, id))))]
                  else [])
  }

  /** What disk mode leaves of a slide whose tile at `at` goes. */
  function WithoutTile(slide: Json, at: nat, id: string): Json
    requires at < |Items(Field(slide, "tiles"))|
  {
    var slide' := WithField(slide, "tiles", Arr(RemoveAt(Items(Field(slide, "tiles")), at)));
    var shown := Field(slide', "reveal");
    if shown.Some? && shown.value.Arr? then WithField(slide', "reveal", Arr(Without(shown.value.items, id))) else slide'
  }

  function DiskRemoveTile(deck: Json, i: int, id: string): Outcome {
    var slide := SlideAt(deck, i);
    if slide.None? then Fault(SlideFault(deck, i))
    else
      var at := Find(Items(Field(slide.value, "tiles")), id);
      if at.None? then Fault("tile_not_found")
      else Done(WithSlide(deck, i, WithoutTile(slide.value, at.value, id)))
  }

  // ---------------------------------------------------------------- resizing a spreadsheet

  /** The new cells, or why there are none: the tile is no spreadsheet, or its cells do not reach
      as far as its size says, which stops the program. */
  function ResizedCells(tile: Json, rows: nat, cols: nat): (r: Option<Json>) {
    if TextOf(Field(tile, "kind")) != "spreadsheet" then None
    else
      var grid := NewGrid(Items(Field(tile, "cells")), Truncated(Field(tile, "rows")),
        Truncated(Field(tile, "cols")), rows, cols);
      if grid.None? then None else Some(Arr(Boxed(grid.value)))
  }

  function ResizeFault(tile: Json): string {
    if TextOf(Field(tile, "kind")) != "spreadsheet" then "kind_mismatch" else "index out of range"
  }

  function TabResize(deck: Json, i: int, id: string, rows: nat, cols: nat): Reply {
    var slide := Node(deck, SlidePath(i));
    if slide.None? then Refused("out_of_range")
    else if !slide.value.Obj? then Refused("schema_violation")
    else
      var tiles := Items(Field(slide.value, "tiles"));
      var at := Find(tiles, id);
      if at.None? then Refused("tile_not_found")
      else
        var cells := ResizedCells(tiles[at.value], rows, cols);
        if cells.None? then Refused(ResizeFault(tiles[at.value]))
        else
          var base := SlidePath(i) + ["tiles", IntText(at.value)];
          Patched([Edit(Text(base + ["rows"]), Replace(Num(rows as real))),
                   Edit(Text(base + ["cols"]), Replace(Num(cols as real))),
                   Edit(Text(base + ["cells"]), Replace(cells.value))])
  }

  function WithSize(tile: Json, rows: nat, cols: nat, cells: Json): Json {
    WithField(WithField(WithField(tile, "rows", Num(rows as real)), "cols", Num(cols as real)), "cells", cells)
  }

  /** A slide with one tile changed in place. */
  function WithTile(slide: Json, at: nat, tile: Json): Json {
    var tiles := Items(Field(slide, "tiles"));
    if at < |tiles| then WithField(slide, "tiles", Arr(tiles[at := tile])) else slide
  }

  function DiskResize(deck: Json, i: int, id: string, rows: nat, cols: nat): Outcome {
    var slide := SlideAt(deck, i);
    if slide.None? then Fault(SlideFault(deck, i))
    else
      var tiles := Items(Field(slide.value, "tiles"));
      var at := Find(tiles, id);
      if at.None? then Fault("tile_not_found")
      else
        var cells := ResizedCells(tiles[at.value], rows, cols);
        if cells.None? then Fault(ResizeFault(tiles[at.value]))
        else Done(WithSlide(deck, i,
          WithTile(slide.value, at.value, WithSize(tiles[at.value], rows, cols, cells.value))))
  }

  // ---------------------------------------------------------------- modifying a tile

  datatype Source = Image(blob: Json) | Unreadable(code: string)

  /** The call's optional arguments; `autoFit` may be given without being a boolean. */
  datatype ModifyArgs = ModifyArgs(x: Option<real>, y: Option<real>, w: Option<real>, h: Option<real>,
                                   rotation: Option<real>, content: Option<string>, textMode: Option<string>,
                                   fontSize: Option<int>, autoFit: Option<Option<bool>>, source: Option<Source>)

  datatype Changes = Bad(code: string) | Changes(patch: map<string, Json>, erase: seq<string>)

  predicate OutOfUnit(v: Option<real>) {
    v.Some? && (v.value < 0.0 || v.value > 1.0)
  }

  function Put(p: map<string, Json>, key: string, v: Option<Json>): map<string, Json> {
    if v.Some? then p[key := v.value] else p
  }

  function Real(v: Option<real>): Option<Json> {
    if v.Some? then Some(Num(v.value)) else None
  }

  function String(v: Option<string>): Option<Json> {
    if v.Some? then Some(Str(v.value)) else None
  }

  /** The new values that any tile may be given. */
  function PlaceOf(a: ModifyArgs): map<string, Json> {
    var coords := Put(Put(Put(Put(map[], "x", Real(a.x)), "y", Real(a.y)), "w", Real(a.w)), "h", Real(a.h));
    Put(coords, "rotation", if a.rotation == Some(0.0) then None else Real(a.rotation))
  }

  function PatchOf(a: ModifyArgs): map<string, Json> {
    var text := Put(Put(PlaceOf(a), "content", String(a.content)), "text_mode", String(a.textMode));
    var sized := Put(text, "font_size", if a.fontSize.Some? && a.fontSize.value != 0
      then Some(Num(a.fontSize.value as real)) else None);
    var fitted := Put(sized, "auto_fit", if a.autoFit == Some(Some(true)) then Some(Bool(true)) else None);
    Put(fitted, "src", if a.source.Some? && a.source.value.Image? then Some(a.source.value.blob) else None)
  }

  function EraseOf(a: ModifyArgs): seq<string> {
    (if a.rotation == Some(0.0) then ["rotation"] else [])
    + (if a.fontSize == Some(0) then ["font_size"] else [])
    + (if a.autoFit == Some(Some(false)) then ["auto_fit"] else [])
  }

  /** The values to set and the keys to erase, after every check of the arguments. */
  function ChangesFor(a: ModifyArgs, tile: Json): Changes {
    var kind := TextOf(Field(tile, "kind"));
    if OutOfUnit(a.x) || OutOfUnit(a.y) || OutOfUnit(a.w) || OutOfUnit(a.h) then Bad("schema_validation_failed")
    else if (a.content.Some? || a.textMode.Some? || a.fontSize.Some? || a.autoFit.Some?) && kind != "text" then
      Bad("schema_validation_failed")
    else if a.textMode.Some? && a.textMode.value !in ["plain", "bullet", "numbered"]
      then Bad("schema_validation_failed")
    else if a.fontSize.Some? && a.fontSize.value != 0 && !(8 <= a.fontSize.value <= 200)
      then Bad("schema_validation_failed")
    else if a.source.Some? && kind != "image" then Bad("schema_validation_failed")
    else if a.source.Some? && a.source.value.Unreadable? then Bad(a.source.value.code)
    else Changes(PatchOf(a), EraseOf(a))
  }

  /** `order` is how the range over the map of new values happens to go. */
  ghost predicate Orders(order: seq<string>, patch: map<string, Json>) {
    && (forall i :: 0 <= i < |order| ==> order[i] in patch)
    && (forall i, j :: 0 <= i < j < |order| ==> order[i] != order[j])
    && (forall k :: k in patch ==> k in order)
  }

  function SetOps(base: seq<string>, tile: Json, order: seq<string>, patch: map<string, Json>): seq<Op>
    requires forall i :: 0 <= i < |order| ==> order[i] in patch
  {
    if order == [] then []
    else
      var k := order[|order| - 1];
      SetOps(base, tile, order[..|order| - 1], patch)
      + [Edit(Text(base + [k]), if Field(tile, k).Some? then Replace(patch[k]) else Add(patch[k]))]
  }

  function EraseOps(base: seq<string>, tile: Json, erase: seq<string>): seq<Op> {
    if erase == [] then []
    else
      var k := erase[|erase| - 1];
      EraseOps(base, tile, erase[..|erase| - 1]) + if Field(tile, k).Some? then [Edit(Text(base + [k]), Remove)] else []
  }

  function TabModify(deck: Json, i: int, id: string, a: ModifyArgs, order: seq<string>): Reply
    requires forall k :: 0 <= k < |order| ==> order[k] in PatchOf(a)
  {
    var slide := Node(deck, SlidePath(i));
    if slide.None? || !slide.value.Obj? then Refused("out_of_range")
    else
      var tiles := Items(Field(slide.value, "tiles"));
      var at := Find(tiles, id);
      if at.None? then Refused("not_found")
      else
        var changes := ChangesFor(a, tiles[at.value]);
        if changes.Bad? then Refused(changes.code)
        else if changes.patch == map[] && changes.erase == [] then Unchanged
        else
          var base := SlidePath(i) + ["tiles", IntText(at.value)];
          Patched(SetOps(base, tiles[at.value], order, PatchOf(a)) + EraseOps(base, tiles[at.value], changes.erase))
  }

  function Keys(erase: seq<string>): set<string> {
    set k | k in erase
  }

  /** The tile after disk mode set every new value and deleted every erased key. */
  function Modified(tile: Json, patch: map<string, Json>, erase: seq<string>): Json {
    if tile.Obj? then Obj(tile.fields + patch - Keys(erase)) else tile
  }

  function DiskModify(deck: Json, i: int, id: string, a: ModifyArgs): Outcome {
    var slide := SlideAt(deck, i);
    if slide.None? then Fault("out_of_range")
    else
      var tiles := Items(Field(slide.value, "tiles"));
      var at := Find(tiles, id);
      if at.None? then Fault("not_found")
      else
        var changes := ChangesFor(a, tiles[at.value]);
        if changes.Bad? then Fault(changes.code)
        else Done(WithSlide(deck, i,
          WithTile(slide.value, at.value, Modified(tiles[at.value], changes.patch, changes.erase))))
  }

  // ---------------------------------------------------------------- annotations

  /** `envelope` builds the annotation for a slide id, or finds it invalid. */
  function TabAddAnnotation(deck: Json, i: int, envelope: string -> Option<Json>): Reply {
    var slide := Node(deck, SlidePath(i));
    if slide.None? || !slide.value.Obj? then Refused("out_of_range")
    else
      var env := envelope(TextOf(Field(slide.value, "id")));
      if env.None? then Refused("schema_validation_failed")
      else
        Patched((if Field(slide.value, "annotations").None?
                 then [Edit(Text(SlidePath(i) + ["annotations"]), Add(Arr([])))] else [])
                + [Edit(Text(SlidePath(i) + ["annotations", "-"]), Add(env.value))])
  }

  function DiskAddAnnotation(deck: Json, i: int, envelope: string -> Option<Json>): Outcome {
    var slide := SlideAt(deck, i);
    if slide.None? then Fault("out_of_range")
    else
      var env := envelope(TextOf(Field(slide.value, "id")));
      if env.None? then Fault("schema_validation_failed")
      else
        var annotations := Items(Field(slide.value, "annotations"));
        Done(WithSlide(deck, i, WithField(slide.value, "annotations", Arr(annotations + [env.value]))))
  }

  predicate Refers(shown: seq<Json>, id: string) {
    exists k :: 0 <= k < |shown| && StringOf(shown[k]) == id
  }

  function TabRemoveAnnotation(deck: Json, i: int, id: string): Reply {
    var slide := Node(deck, SlidePath(i));
    if slide.None? || !slide.value.Obj? then Refused("out_of_range")
    else
      var annotations := Items(Field(slide.value, "annotations"));
      var at := Find(annotations, id);
      if annotations == [] || at.None? then Refused("not_found")
      else
        var shown := Items(Field(slide.value, "reveal"));
        Patched([Edit(Text(SlidePath(i) + ["annotations", IntText(at.value)]), Remove)]
                + (if |annotations| == 1 then [Edit(Text(SlidePath(i) + ["annotations"]), Remove)] else [])
                + (if Refers(shown, id)
                   then [Edit(Text(SlidePath(i) + ["reveal"]), Replace(Arr(Without(shown, id))))] else []))
  }

  function Dropped(slide: Json, at: nat): Json
    requires at < |Items(Field(slide, "annotations"))|
  {
    var left := RemoveAt(Items(Field(slide, "annotations")), at);
    if left == [] && slide.Obj? then Obj(slide.fields - {"annotations"}) else WithField(slide, "annotations", Arr(left))
  }

  function Scrubbed(slide: Json, id: string): Json {
    var shown := Items(Field(slide, "reveal"));
    if shown == [] then slide else WithField(slide, "reveal", Arr(Without(shown, id)))
  }

  function DiskRemoveAnnotation(deck: Json, i: int, id: string): Outcome {
    var slide := SlideAt(deck, i);
    if slide.None? then Fault("out_of_range")
    else
      var annotations := Items(Field(slide.value, "annotations"));
      var at := Find(annotations, id);
      if annotations == [] || at.None? then Fault("not_found")
      else Done(WithSlide(deck, i, Scrubbed(Dropped(slide.value, at.value), id)))
  }
}
