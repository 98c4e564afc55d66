/** One face of a nametag: which texts are drawn and where. The block shrinks uniformly when it
    would not fit, but the gap under the subtitle does not shrink with it. */
module NametagFace {
  const PADDING := 9.0
  const DETAIL_GAP := 8.0
  const COL_GAP := 6.0
  const SUB_GAP := 2.0
  const TITLE_SIZE := 24.0
  const SUB_SIZE := 14.0
  const HEAD_SIZE := 11.0
  const LINE_SIZE := 10.0
  const TITLE_FACTOR := 1.15
  const LINE_FACTOR := 1.25

  datatype Box = Box(x: real, y: real, w: real, h: real)

  datatype DetailLine = DetailLine(label_: string, value: string)

  datatype Column = Column(heading: string, lines: seq<DetailLine>)

  /** A structured face; `image` is whether a side image is drawn, and on which side. */
  datatype Face = Face(image: bool, right: bool, title: string, subtitle: string, columns: seq<Column>)

  datatype TextOp = TextOp(text: string, box: Box)

  function LineText(l: DetailLine): string {
    if l.label_ == "" then l.value else l.label_ + ": " + l.value
  }

  /** The line heights a face is drawn with. */
  datatype Heights = Heights(title: real, sub: real, head: real, line: real)

  const FULL :=
    Heights(TITLE_SIZE * TITLE_FACTOR, SUB_SIZE * TITLE_FACTOR, HEAD_SIZE * LINE_FACTOR, LINE_SIZE * LINE_FACTOR)

  function Scaled(h: Heights, s: real): Heights {
    Heights(h.title * s, h.sub * s, h.head * s, h.line * s)
  }

  function If(b: bool, h: real): real {
    if b then h else 0.0
  }

  // ---------------------------------------------------------------- heights

  function LinesHeight(lines: seq<DetailLine>, h: real): real {
    if lines == [] then 0.0
    else LinesHeight(lines[..|lines| - 1], h) + If(LineText(lines[|lines| - 1]) != "", h)
  }

  function ColumnHeight(c: Column, h: Heights): real {
    If(c.heading != "", h.head) + LinesHeight(c.lines, h.line)
  }

  function Tallest(columns: seq<Column>, h: Heights): real {
    if columns == [] then 0.0
    else
      var rest := Tallest(columns[..|columns| - 1], h);
      var last := ColumnHeight(columns[|columns| - 1], h);
      if last > rest then last else rest
  }

  function TopHeight(f: Face, h: Heights): real {
    If(f.title != "", h.title) + If(f.subtitle != "", h.sub + SUB_GAP)
  }

  function Natural(f: Face): real {
    TopHeight(f, FULL) + Tallest(f.columns, FULL)
  }

  lemma {:induction false} LinesScale(lines: seq<DetailLine>, h: real, t: real, s: real)
    requires t == h * s
    ensures LinesHeight(lines, t) == LinesHeight(lines, h) * s
  {
    hide LineText;
    if lines != [] {
      var front, drawn := lines[..|lines| - 1], LineText(lines[|lines| - 1]) != "";
      LinesScale(front, h, t, s);
      if drawn { AddScaled(LinesHeight(front, h), h, LinesHeight(front, t), t, s); }
    }
  }

  lemma SumScale(a: real, b: real, s: real)
    ensures (a + b) * s == a * s + b * s
  {
  }

  lemma AddScaled(a: real, b: real, a': real, b': real, s: real)
    requires a' == a * s && b' == b * s
    ensures a' + b' == (a + b) * s
  {
  }

  lemma ColumnScales(c: Column, h: Heights, t: Heights, s: real)
    requires t == Scaled(h, s)
    ensures ColumnHeight(c, t) == ColumnHeight(c, h) * s
  {
    hide LinesHeight;
    LinesScale(c.lines, h.line, t.line, s);
    AddScaled(If(c.heading != "", h.head), LinesHeight(c.lines, h.line), If(c.heading != "", t.head),
      LinesHeight(c.lines, t.line), s);
  }

  lemma {:induction false} TallestScales(columns: seq<Column>, h: Heights, s: real)
    requires s >= 0.0
    ensures Tallest(columns, Scaled(h, s)) == Tallest(columns, h) * s
  {
    hide ColumnHeight, Scaled;
    if columns != [] {
      var rest, last := Tallest(columns[..|columns| - 1], h), ColumnHeight(columns[|columns| - 1], h);
      TallestScales(columns[..|columns| - 1], h, s);
      ColumnScales(columns[|columns| - 1], h, Scaled(h, s), s);
      LargerScales(rest, last, s);
    }
  }

  lemma LargerScales(a: real, b: real, s: real)
    requires s >= 0.0
    ensures (if b * s > a * s then b * s else a * s) == (if b > a then b else a) * s
  {
    if b > a { Grows(a, b, s); } else { Grows(b, a, s); }
  }

  lemma Grows(a: real, b: real, s: real)
    requires a <= b && s >= 0.0
    ensures a * s <= b * s
  {
  }

  lemma {:induction false} TallestBounds(columns: seq<Column>, h: Heights, i: nat)
    requires i < |columns|
    ensures ColumnHeight(columns[i], h) <= Tallest(columns, h)
  {
    hide ColumnHeight;
    if i < |columns| - 1 { TallestBounds(columns[..|columns| - 1], h, i); }
  }

  lemma {:induction false} LinesNotNegative(lines: seq<DetailLine>, h: real)
    requires h >= 0.0
    ensures LinesHeight(lines, h) >= 0.0
  {
    if lines != [] { LinesNotNegative(lines[..|lines| - 1], h); }
  }

  lemma {:induction false} TallestNotNegative(columns: seq<Column>, h: Heights)
    ensures Tallest(columns, h) >= 0.0
  {
    hide ColumnHeight;
    if columns != [] { TallestNotNegative(columns[..|columns| - 1], h); }
  }

  // ---------------------------------------------------------------- fitting

  /** Where the block starts and how it is scaled: shrunk from the top when it is too tall, else
      centred. */
  datatype Fit = Fit(start: real, heights: Heights)

  function FitIn(f: Face, y: real, available: real): Fit
    requires available > 0.0
  {
    var natural := Natural(f);
    if natural > available then Fit(y, Scaled(FULL, available / natural))
    else if natural > 0.0 then Fit(y + (available - natural) / 2.0, FULL)
    else Fit(y, FULL)
  }

  /** The bottom of the tallest column. */
  function Bottom(f: Face, fit: Fit): real {
    fit.start + TopHeight(f, fit.heights) + Tallest(f.columns, fit.heights)
  }

  lemma TopScales(f: Face, h: Heights, s: real)
    ensures TopHeight(f, Scaled(h, s)) == TopHeight(f, h) * s + If(f.subtitle != "", SUB_GAP * (1.0 - s))
  {
    SumScale(If(f.title != "", h.title), If(f.subtitle != "", h.sub + SUB_GAP), s);
    SumScale(h.sub, SUB_GAP, s);
  }

  /** Exactly where a shrunk block ends: at the end of the room it has, plus the part of the gap
      under the subtitle that did not shrink. It can so cross the padding, by less than 2 points. */
  lemma ShrunkBottom(f: Face, y: real, available: real)
    requires 0.0 < available < Natural(f)
    ensures Bottom(f, FitIn(f, y, available)) ==
      y + available + If(f.subtitle != "", SUB_GAP * (1.0 - available / Natural(f)))
    ensures 0.0 < available / Natural(f) < 1.0
  {
    hide TopHeight, Tallest, Scaled;
    var natural := Natural(f);
    var s := available / natural;
    Quotient(available, natural);
    TopScales(f, FULL, s);
    TallestScales(f.columns, FULL, s);
    SumScale(TopHeight(f, FULL), Tallest(f.columns, FULL), s);
  }

  lemma Quotient(a: real, b: real)
    requires 0.0 < a < b
    ensures 0.0 < a / b < 1.0 && b * (a / b) == a
  {
    var q := a / b;
    assert b * q == a;
    Below(a, b, q);
  }

  lemma Below(a: real, b: real, q: real)
    requires 0.0 < a < b && b * q == a
    ensures 0.0 < q < 1.0
  {
    if q >= 1.0 { Grows(1.0, q, b); }
    if q <= 0.0 { Grows(q, 0.0, b); }
  }

  lemma PositiveHeights(h: Heights, s: real)
    requires h.title > 0.0 && h.sub > 0.0 && h.head > 0.0 && h.line > 0.0 && s > 0.0
    ensures var t := Scaled(h, s); t.title > 0.0 && t.sub > 0.0 && t.head > 0.0 && t.line > 0.0
  {
  }

  /** Every block starts inside the room it has and ends within the gap of it. */
  lemma BlockFits(f: Face, y: real, available: real)
    requires available > 0.0
    ensures var fit := FitIn(f, y, available);
      && y <= fit.start && Bottom(f, fit) <= y + available + SUB_GAP
      && fit.heights.title > 0.0 && fit.heights.sub > 0.0 && fit.heights.head > 0.0 && fit.heights.line > 0.0
      && (f.subtitle == "" || Natural(f) <= available ==> Bottom(f, fit) <= y + available)
  {
    hide Tallest;
    TallestNotNegative(f.columns, FULL);
    if Natural(f) > available {
      ShrunkBottom(f, y, available);
      PositiveHeights(FULL, available / Natural(f));
    }
  }

  /** A block that fits is centred: as much room is left above it as below. */
  lemma CentredBlock(f: Face, y: real, available: real)
    requires 0.0 < Natural(f) <= available
    ensures var fit := FitIn(f, y, available);
      fit.heights == FULL && fit.start - y == y + available - Bottom(f, fit)
  {
    hide Tallest;
  }

  // ---------------------------------------------------------------- across

  datatype Region = Region(x: real, w: real)

  /** The text region: what a side image, clamped to 60% of the room, leaves. */
  function TextRegion(f: Face, x: real, w: real, imageWidth: real): Region {
    if !f.image then Region(x, w)
    else
      var image := if imageWidth > w * 0.6 then w * 0.6 else imageWidth;
      Region(if f.right then x else x + image + DETAIL_GAP, w - image - DETAIL_GAP)
  }

  /** On a tag at least as wide as ours, the text region is inside the room and not empty. */
  lemma TextRegionInside(f: Face, x: real, w: real, imageWidth: real)
    requires w > 20.0 && imageWidth >= 0.0
    ensures var r := TextRegion(f, x, w, imageWidth); x <= r.x && r.x + r.w <= x + w && r.w > 0.0
  {
  }

  /** Where the side image is drawn: at its side of the room, as wide as asked but no wider than 60%
      of the room. */
  function ImageRegion(f: Face, x: real, w: real, imageWidth: real): Region
    requires f.image
  {
    var image := if imageWidth > w * 0.6 then w * 0.6 else imageWidth;
    Region(if f.right then x + w - image else x, image)
  }

  /** Image and text share the room: each keeps to its own side, eight points apart, and together
      they fill it. */
  lemma TextBesideImage(f: Face, x: real, w: real, imageWidth: real)
    requires f.image && w > 20.0 && imageWidth >= 0.0
    ensures var text, image := TextRegion(f, x, w, imageWidth), ImageRegion(f, x, w, imageWidth);
      && 0.0 <= image.w <= 0.6 * w && (image.w == imageWidth || image.w == 0.6 * w < imageWidth)
      && (if f.right then text.x == x && text.x + text.w + 8.0 == image.x && image.x + image.w == x + w
          else image.x == x && image.x + image.w + 8.0 == text.x && text.x + text.w == x + w)
  {
  }

  function ColumnWidth(r: Region, n: nat): real
    requires n > 0
  {
    (r.w - (n - 1) as real * COL_GAP) / n as real
  }

  /** From one column's left edge to the next one's. */
  function ColumnStep(r: Region, n: nat): real
    requires n > 0
  {
    ColumnWidth(r, n) + COL_GAP
  }

  function ColumnX(r: Region, n: nat, i: nat): real
    requires n > 0
  {
    r.x + i as real * ColumnStep(r, n)
  }

  lemma Division(k: real, wide: real)
    requires k > 0.0
    ensures k * (wide / k) == wide
  {
  }

  lemma WidthTimes(r: Region, n: nat)
    requires n > 0
    ensures n as real * ColumnStep(r, n) == r.w + COL_GAP
  {
    var k := n as real;
    var wide := r.w - (k - 1.0) * COL_GAP;
    assert (n - 1) as real == k - 1.0;
    Division(k, wide);
    SumTimes(k, wide / k, COL_GAP);
  }

  lemma SumTimes(k: real, a: real, b: real)
    ensures k * (a + b) == k * a + k * b
  {
  }

  /** The columns are wide enough to show anything exactly when the gaps leave room. */
  predicate ColumnsFit(columns: seq<Column>, r: Region) {
    columns == [] || (|columns| - 1) as real * COL_GAP < r.w
  }

  lemma ColumnWidthPositive(r: Region, n: nat)
    requires n > 0
    ensures ColumnWidth(r, n) > 0.0 <==> (n - 1) as real * COL_GAP < r.w
  {
    Share(r.w - (n - 1) as real * COL_GAP, n as real);
  }

  lemma Share(a: real, n: real)
    requires n > 0.0
    ensures a / n > 0.0 <==> a > 0.0
  {
  }

  /** Every column lies within the text region, side by side. */
  lemma ColumnInside(r: Region, n: nat, i: nat)
    requires i < n && r.w > 0.0
    ensures r.x <= ColumnX(r, n, i) && ColumnX(r, n, i) + ColumnWidth(r, n) <= r.x + r.w
    ensures i + 1 < n ==> ColumnX(r, n, i) + ColumnWidth(r, n) + COL_GAP == ColumnX(r, n, i + 1) >= ColumnX(r, n, i)
    ensures ColumnWidth(r, n) > 0.0 <==> (n - 1) as real * COL_GAP < r.w
  {
    hide ColumnWidth;
    WidthTimes(r, n);
    ColumnWidthPositive(r, n);
    InRegion(i as real, n as real, ColumnStep(r, n), r.w + COL_GAP);
  }

  lemma InRegion(i: real, n: real, step: real, all: real)
    requires 0.0 <= i && i + 1.0 <= n && n * step == all && all > 0.0
    ensures 0.0 <= i * step && i * step + step <= all && (i + 1.0) * step == i * step + step
  {
    PositiveStep(n, step);
    Grows(0.0, i, step);
    Grows(i + 1.0, n, step);
    SumTimes(step, i, 1.0);
  }

  lemma PositiveStep(n: real, step: real)
    requires n > 0.0 && n * step > 0.0
    ensures step > 0.0
  {
  }

  // ---------------------------------------------------------------- drawing

  /** The tag's box never has text outside its cut line: a text box is inside it, at most the
      unshrunk gap into the padding at the bottom. */
  predicate InsideTag(b: Box, t: Box) {
    && b.x + PADDING <= t.x && t.x + t.w <= b.x + b.w - PADDING
    && b.y + PADDING <= t.y && t.y + t.h <= b.y + b.h - PADDING + SUB_GAP
  }

  /** One box ends above the other, or to its left. */
  predicate Clear(a: Box, b: Box) {
    a.y + a.h <= b.y || a.x + a.w <= b.x
  }

  ghost predicate NoneOverlap(ops: seq<TextOp>) {
    forall j, k :: 0 <= j < k < |ops| ==> Clear(ops[j].box, ops[k].box)
  }

  /** The new boxes of a column: at its place, each starting where the one above it ends. */
  ghost predicate Stacked(ops: seq<TextOp>, from: nat, x: real, y: real, w: real) {
    && (from < |ops| ==> ops[from].box.y == y)
    && (forall k :: from < k < |ops| ==> ops[k].box.y == ops[k - 1].box.y + ops[k - 1].box.h)
    && (forall k :: from <= k < |ops| ==> ops[k].box.x == x && ops[k].box.w == w && ops[k].box.y >= y)
    && (forall j, k :: from <= j < k < |ops| ==> ops[j].box.y + ops[j].box.h <= ops[k].box.y)
  }

  /** Every box has room for a text. */
  ghost predicate AllWide(ops: seq<TextOp>) {
    forall k :: 0 <= k < |ops| ==> ops[k].box.w > 0.0
  }

  ghost predicate AllOfWidth(ops: seq<TextOp>, from: nat, w: real) {
    forall k :: from <= k < |ops| ==> ops[k].box.w == w
  }

  /** Whether all boxes have room is up to the columns, if any of their texts are drawn. */
  lemma WideWhenColumnsFit(ops: seq<TextOp>, heads: nat, columns: seq<Column>, r: Region)
    requires heads <= |ops| && r.w > 0.0 && (forall k :: 0 <= k < heads ==> ops[k].box.w == r.w)
    requires columns == [] ==> |ops| == heads
    requires columns != [] ==> AllOfWidth(ops, heads, ColumnWidth(r, |columns|))
    ensures AllWide(ops) <==> ColumnsFit(columns, r) || |ops| == heads
  {
    hide ColumnWidth;
    if columns != [] {
      ColumnWidthPositive(r, |columns|);
      if |ops| > heads { assert ops[heads].box.w == ColumnWidth(r, |columns|); }
    }
  }

  ghost predicate AllWithin(ops: seq<TextOp>, r: Region) {
    forall k :: 0 <= k < |ops| ==> r.x <= ops[k].box.x && ops[k].box.x + ops[k].box.w <= r.x + r.w
  }

  /** Every box is eight points from the image, to its right or to its left. */
  ghost predicate ClearOfImage(ops: seq<TextOp>, image: Region) {
    forall k :: 0 <= k < |ops| ==>
      ops[k].box.x >= image.x + image.w + 8.0 || ops[k].box.x + ops[k].box.w + 8.0 <= image.x
  }

  lemma WithinIsClear(ops: seq<TextOp>, f: Face, x: real, w: real, imageWidth: real)
    requires f.image && w > 20.0 && imageWidth >= 0.0 && AllWithin(ops, TextRegion(f, x, w, imageWidth))
    ensures ClearOfImage(ops, ImageRegion(f, x, w, imageWidth))
  {
    TextBesideImage(f, x, w, imageWidth);
    hide TextRegion, ImageRegion;
  }

  lemma ColumnWithin(ops: seq<TextOp>, out: seq<TextOp>, r: Region, x: real, y: real, w: real)
    requires ops <= out && AllWithin(ops, r) && Stacked(out, |ops|, x, y, w) && r.x <= x && x + w <= r.x + r.w
    ensures AllWithin(out, r)
  {
    forall k | 0 <= k < |out| ensures r.x <= out[k].box.x && out[k].box.x + out[k].box.w <= r.x + r.w {
      if k < |ops| { assert out[k] == ops[k]; }
    }
  }

  ghost predicate AllAbove(ops: seq<TextOp>, from: nat, y: real) {
    forall k :: from <= k < |ops| ==> ops[k].box.y + ops[k].box.h <= y
  }

  /** Every box after the first `from` ends left of `x`. */
  ghost predicate AllLeft(ops: seq<TextOp>, from: nat, x: real) {
    forall k :: from <= k < |ops| ==> ops[k].box.x + ops[k].box.w <= x
  }

  ghost predicate AllInside(b: Box, ops: seq<TextOp>) {
    forall k :: 0 <= k < |ops| ==> InsideTag(b, ops[k].box)
  }

  /** The texts of a face, in drawing order; nothing else is drawn and nothing is left out. */
  function LineTexts(lines: seq<DetailLine>): seq<string> {
    if lines == [] then []
    else
      LineTexts(lines[..|lines| - 1])
      + if LineText(lines[|lines| - 1]) != "" then [LineText(lines[|lines| - 1])] else []
  }

  function ColumnTexts(c: Column): seq<string> {
    (if c.heading != "" then [c.heading] else []) + LineTexts(c.lines)
  }

  function AllColumnTexts(columns: seq<Column>): seq<string> {
    if columns == [] then [] else AllColumnTexts(columns[..|columns| - 1]) + ColumnTexts(columns[|columns| - 1])
  }

  function FaceTexts(f: Face): seq<string> {
    (if f.title != "" then [f.title] else []) + (if f.subtitle != "" then [f.subtitle] else []) +
      AllColumnTexts(f.columns)
  }

  function Texts(ops: seq<TextOp>): (texts: seq<string>)
    ensures |texts| == |ops|
  {
    seq(|ops|, i requires 0 <= i < |ops| => ops[i].text)
  }

  lemma TextsPush(ops: seq<TextOp>, op: TextOp)
    ensures Texts(ops + [op]) == Texts(ops) + [op.text]
  {
  }

  lemma LinesNext(lines: seq<DetailLine>, h: real, i: nat)
    requires i < |lines|
    ensures LinesHeight(lines[..i + 1], h) == LinesHeight(lines[..i], h) + If(LineText(lines[i]) != "", h)
    ensures LineTexts(lines[..i + 1])
         == LineTexts(lines[..i]) + if LineText(lines[i]) != "" then [LineText(lines[i])] else []
  {
    assert lines[..i + 1][..i] == lines[..i];
  }

  lemma {:induction false} LinesUpTo(lines: seq<DetailLine>, h: real, i: nat)
    requires i <= |lines| && h >= 0.0
    ensures LinesHeight(lines[..i], h) <= LinesHeight(lines, h)
  {
    if i < |lines| {
      LinesUpTo(lines[..|lines| - 1], h, i);
      assert lines[..|lines| - 1][..i] == lines[..i];
    } else {
      assert lines[..i] == lines;
    }
  }

  /** Where the boxes after the first `from` end, or `y` if there are none. */
  ghost predicate EndsAt(ops: seq<TextOp>, from: nat, y: real, end: real) {
    end == if |ops| > from then ops[|ops| - 1].box.y + ops[|ops| - 1].box.h else y
  }

  /** The heading has its height and every line its own. */
  ghost predicate Sized(ops: seq<TextOp>, from: nat, heading: bool, h: Heights) {
    forall k :: from <= k < |ops| ==> ops[k].box.h == if k == from && heading then h.head else h.line
  }

  /** One more box where the last one ends. */
  lemma StackMore(ops: seq<TextOp>, from: nat, op: TextOp, x: real, y: real, w: real, cy: real)
    requires from <= |ops| && Stacked(ops, from, x, y, w) && EndsAt(ops, from, y, cy) && AllAbove(ops, from, cy)
    requires op.box.x == x && op.box.y == cy >= y && op.box.w == w && op.box.h >= 0.0
    ensures Stacked(ops + [op], from, x, y, w) && EndsAt(ops + [op], from, y, cy + op.box.h)
    ensures AllAbove(ops + [op], from, cy + op.box.h)
  {
  }

  lemma NoStack(ops: seq<TextOp>, x: real, y: real, w: real, heading: bool, h: Heights)
    ensures Stacked(ops, |ops|, x, y, w) && EndsAt(ops, |ops|, y, y) && AllAbove(ops, |ops|, y)
    ensures Sized(ops, |ops|, heading, h)
  {
  }

  /** One column: its heading and lines one right under the other, each of its height, and none of
      it below the column's height. */
  method RenderColumn(b: Box, ops: seq<TextOp>, c: Column, x: real, y: real, w: real, h: Heights)
    returns (out: seq<TextOp>)
    requires AllInside(b, ops) && h.head >= 0.0 && h.line >= 0.0
    requires b.x + PADDING <= x && x + w <= b.x + b.w - PADDING && b.y + PADDING <= y
    requires y + ColumnHeight(c, h) <= b.y + b.h - PADDING + SUB_GAP
    ensures AllInside(b, out) && Texts(out) == Texts(ops) + ColumnTexts(c)
    ensures ops <= out && Stacked(out, |ops|, x, y, w) && Sized(out, |ops|, c.heading != "", h)
    ensures EndsAt(out, |ops|, y, y + ColumnHeight(c, h))
  {
    hide LinesHeight, LineTexts, LineText, Texts, Stacked, AllAbove, EndsAt;
    out := ops;
    var cy := y;
    LinesNotNegative(c.lines, h.line);
    NoStack(ops, x, y, w, c.heading != "", h);
    if c.heading != "" {
      var op := TextOp(c.heading, Box(x, cy, w, h.head));
      TextsPush(out, op);
      StackMore(out, |ops|, op, x, y, w, cy);
      out := out + [op];
      cy := cy + h.head;
    }
    ghost var top, before := cy, Texts(out);
    NoLines(h.line);
    assert c.lines[..0] == [];
    var i := 0;
    while i < |c.lines|
      invariant 0 <= i <= |c.lines| && cy == top + LinesHeight(c.lines[..i], h.line) && cy >= top
      invariant AllInside(b, out) && Texts(out) == before + LineTexts(c.lines[..i])
      invariant ops <= out && Stacked(out, |ops|, x, y, w) && AllAbove(out, |ops|, cy) && EndsAt(out, |ops|, y, cy)
      invariant (c.heading != "" ==> |out| > |ops|) && Sized(out, |ops|, c.heading != "", h)
    {
      LinesNext(c.lines, h.line, i);
      LinesUpTo(c.lines, h.line, i + 1);
      var text := LineText(c.lines[i]);
      if text != "" {
        var op := TextOp(text, Box(x, cy, w, h.line));
        TextsPush(out, op);
        StackMore(out, |ops|, op, x, y, w, cy);
        assert InsideTag(b, op.box);
        out := out + [op];
        cy := cy + h.line;
      }
      i := i + 1;
    }
    assert c.lines[..i] == c.lines;
    assert Texts(ops) + (if c.heading != "" then [c.heading] else []) == before;
  }

  lemma NoLines(h: real)
    ensures LinesHeight([], h) == 0.0 && LineTexts([]) == []
  {
  }

  lemma ColumnsNext(columns: seq<Column>, i: nat)
    requires i < |columns|
    ensures AllColumnTexts(columns[..i + 1]) == AllColumnTexts(columns[..i]) + ColumnTexts(columns[i])
  {
    assert columns[..i + 1][..i] == columns[..i];
  }

  /** A column drawn to the right of the others and below the top leaves nothing overlapping. */
  lemma ColumnClear(ops: seq<TextOp>, out: seq<TextOp>, top: nat, x: real, y: real, w: real)
    requires top <= |ops| && ops <= out && NoneOverlap(ops) && Stacked(out, |ops|, x, y, w)
    requires (forall k :: 0 <= k < top ==> ops[k].box.y + ops[k].box.h <= y) && AllLeft(ops, top, x)
    ensures NoneOverlap(out)
  {
    forall j, k | 0 <= j < k < |out| ensures Clear(out[j].box, out[k].box) {
      if j < |ops| { assert out[j] == ops[j]; }
      if k < |ops| { assert out[k] == ops[k]; }
    }
  }

  /** What has been drawn so far is all right: inside the tag and the region, and nothing overlaps. */
  ghost predicate Drawn(b: Box, ops: seq<TextOp>, r: Region) {
    AllInside(b, ops) && AllWithin(ops, r) && NoneOverlap(ops)
  }

  lemma DrawnMore(b: Box, ops: seq<TextOp>, out: seq<TextOp>, r: Region, heads: nat, n: nat, i: nat, y: real)
    requires Drawn(b, ops, r) && AllInside(b, out) && ops <= out && heads <= |ops| && i < n && r.w > 0.0
    requires Stacked(out, |ops|, ColumnX(r, n, i), y, ColumnWidth(r, n)) && AllLeft(ops, heads, ColumnX(r, n, i))
    requires forall k :: 0 <= k < heads ==> ops[k].box.y + ops[k].box.h <= y
    requires AllOfWidth(ops, heads, ColumnWidth(r, n))
    ensures Drawn(b, out, r) && AllOfWidth(out, heads, ColumnWidth(r, n))
    ensures i + 1 < n ==> AllLeft(out, heads, ColumnX(r, n, i + 1))
  {
    ColumnInside(r, n, i);
    hide ColumnX, ColumnWidth;
    ColumnWithin(ops, out, r, ColumnX(r, n, i), y, ColumnWidth(r, n));
    ColumnClear(ops, out, heads, ColumnX(r, n, i), y, ColumnWidth(r, n));
    forall k | heads <= k < |out| ensures out[k].box.w == ColumnWidth(r, n) {
      if k < |ops| { assert out[k] == ops[k]; }
    }
    if i + 1 < n {
      forall k | heads <= k < |out| ensures out[k].box.x + out[k].box.w <= ColumnX(r, n, i + 1) {
        if k < |ops| { assert out[k] == ops[k]; }
      }
    }
  }

  /** The title and the subtitle, one under the other across the text region. */
  method RenderHeads(b: Box, f: Face, r: Region, start: real, h: Heights) returns (ops: seq<TextOp>, y: real)
    requires b.x + PADDING <= r.x && r.x + r.w <= b.x + b.w - PADDING && b.y + PADDING <= start
    requires h.title >= 0.0 && h.sub >= 0.0 && start + TopHeight(f, h) <= b.y + b.h - PADDING + SUB_GAP
    ensures Drawn(b, ops, r) && y == start + TopHeight(f, h)
    ensures Texts(ops) == (if f.title != "" then [f.title] else []) + (if f.subtitle != "" then [f.subtitle] else [])
    ensures f.title != "" ==> ops[0].box == Box(r.x, start, r.w, h.title)
    ensures f.subtitle != "" ==> ops[|ops| - 1].box == Box(r.x, start + If(f.title != "", h.title), r.w, h.sub)
    ensures forall k :: 0 <= k < |ops| ==> ops[k].box.y + ops[k].box.h <= y && ops[k].box.w == r.w
  {
    hide Texts;
    ops := [];
    NoTexts();
    y := start;
    if f.title != "" {
      ops := Place(b, ops, f.title, Box(r.x, y, r.w, h.title));
      y := y + h.title;
    }
    if f.subtitle != "" {
      ops := Place(b, ops, f.subtitle, Box(r.x, y, r.w, h.sub));
      y := y + h.sub + SUB_GAP;
    }
  }

  /** Draws a face: exactly its texts, in order, none of them outside the tag or over the side image
      and no two of them overlapping; and every box has room for its text exactly when the columns
      are few enough, or have no text. */
  method RenderFace(b: Box, f: Face, imageWidth: real) returns (ops: seq<TextOp>)
    requires b.w > 2.0 * PADDING + 20.0 && b.h > 2.0 * PADDING && imageWidth >= 0.0
    ensures AllInside(b, ops) && Texts(ops) == FaceTexts(f) && NoneOverlap(ops)
    ensures var region := TextRegion(f, b.x + PADDING, b.w - 2.0 * PADDING, imageWidth);
      AllWide(ops) <==> ColumnsFit(f.columns, region) || AllColumnTexts(f.columns) == []
    ensures f.image ==> ClearOfImage(ops, ImageRegion(f, b.x + PADDING, b.w - 2.0 * PADDING, imageWidth))
  {
    hide ClearOfImage, ImageRegion, Tallest, ColumnHeight, TextRegion, ColumnX, ColumnWidth, ColumnTexts,
         AllColumnTexts, Texts, FitIn, Stacked, AllLeft, AllOfWidth, AllWide;
    var region := TextRegion(f, b.x + PADDING, b.w - 2.0 * PADDING, imageWidth);
    TextRegionInside(f, b.x + PADDING, b.w - 2.0 * PADDING, imageWidth);
    var fit := FitIn(f, b.y + PADDING, b.h - 2.0 * PADDING);
    BlockFits(f, b.y + PADDING, b.h - 2.0 * PADDING);
    TallestNotNegative(f.columns, fit.heights);
    var y: real;
    ops, y := RenderHeads(b, f, region, fit.start, fit.heights);
    hide Drawn, TopHeight;
    ghost var top, heads := Texts(ops), |ops|;
    var n := |f.columns|;
    assert f.columns[..0] == [];
    NoTexts();
    NoneYet(ops, region, n);
    var i := 0;
    while i < n
      invariant 0 <= i <= n && Drawn(b, ops, region) && Texts(ops) == top + AllColumnTexts(f.columns[..i])
      invariant heads <= |ops| && (i == 0 ==> |ops| == heads)
      invariant forall k :: 0 <= k < heads ==> ops[k].box.y + ops[k].box.h <= y && ops[k].box.w == region.w
      invariant i < n ==> AllLeft(ops, heads, ColumnX(region, n, i))
      invariant n > 0 ==> AllOfWidth(ops, heads, ColumnWidth(region, n))
    {
      ColumnInside(region, n, i);
      TallestBounds(f.columns, fit.heights, i);
      ColumnsNext(f.columns, i);
      ghost var before := ops;
      assert AllInside(b, ops) by { DrawnIs(b, ops, region); }
      ops := RenderColumn(b, ops, f.columns[i], ColumnX(region, n, i), y, ColumnWidth(region, n), fit.heights);
      DrawnMore(b, before, ops, region, heads, n, i, y);
      i := i + 1;
    }
    assert f.columns[..i] == f.columns;
    DrawnIs(b, ops, region);
    WideWhenColumnsFit(ops, heads, f.columns, region);
    if f.image { WithinIsClear(ops, f, b.x + PADDING, b.w - 2.0 * PADDING, imageWidth); }
  }

  lemma DrawnIs(b: Box, ops: seq<TextOp>, r: Region)
    requires Drawn(b, ops, r)
    ensures AllInside(b, ops) && AllWithin(ops, r) && NoneOverlap(ops)
  {
  }

  lemma NoneYet(ops: seq<TextOp>, r: Region, n: nat)
    ensures n > 0 ==> AllLeft(ops, |ops|, ColumnX(r, n, 0)) && AllOfWidth(ops, |ops|, ColumnWidth(r, n))
  {
  }

  method Place(b: Box, ops: seq<TextOp>, text: string, box: Box) returns (out: seq<TextOp>)
    requires AllInside(b, ops) && InsideTag(b, box)
    ensures AllInside(b, out) && Texts(out) == Texts(ops) + [text] && out == ops + [TextOp(text, box)]
  {
    TextsPush(ops, TextOp(text, box));
    out := ops + [TextOp(text, box)];
  }

  lemma NoTexts()
    ensures Texts([]) == [] && AllColumnTexts([]) == []
  {
  }
}
