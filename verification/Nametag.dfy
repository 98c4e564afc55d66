/** The nametag sheet: where the cells are, how backs line up with fronts, and that no text of a
    face crosses the line the tag is cut along. Lengths are points, as reals. */
module Nametag {
  // ---------------------------------------------------------------- the sheet

  datatype Layout = Layout(pageW: real, pageH: real, tagW: real, tagH: real, left: real, top: real,
                           gutterH: real, gutterV: real, rows: nat, cols: nat)

  function Inches(n: real): real {
    n * 72.0
  }

  function Cardstock4x2(): Layout {
    var pageW, pageH, tagW, tagH, gutter := Inches(8.5), Inches(11.0), Inches(3.375), Inches(2.333), Inches(0.2);
    var rows, cols := 4, 2;
    var totalW := cols as real * tagW + (cols - 1) as real * gutter;
    var totalH := rows as real * tagH + (rows - 1) as real * gutter;
    Layout(pageW, pageH, tagW, tagH, (pageW - totalW) / 2.0, (pageH - totalH) / 2.0, gutter, gutter, rows, cols)
  }

  datatype Point = Point(x: real, y: real)

  function CellAt(l: Layout, row: nat, col: nat): Point {
    Point(l.left + col as real * (l.tagW + l.gutterH), l.top + row as real * (l.tagH + l.gutterV))
  }

  function Cell(l: Layout, i: nat): Point
    requires l.cols > 0
  {
    CellAt(l, i / l.cols, i % l.cols)
  }

  function PerSheet(l: Layout): nat {
    l.rows * l.cols
  }

  function BackCell(l: Layout, front: nat): (back: int)
    requires l.cols > 0
  {
    front / l.cols * l.cols + (l.cols - 1 - front % l.cols)
  }

  lemma LessTimes(a: int, b: int, c: nat)
    requires a < b
    ensures a * c + c <= b * c
  {
    assert (b - a - 1) * c >= 0;
  }

  lemma SplitIndex(i: nat, cols: nat)
    requires cols > 0
    ensures i == i / cols * cols + i % cols
  {
  }

  lemma SameQuotient(q: int, row: int, cols: nat, r: nat, col: nat)
    requires q * cols + r == row * cols + col && r < cols && col < cols
    ensures q == row && r == col
  {
    if q < row { LessTimes(q, row, cols); }
    if row < q { LessTimes(row, q, cols); }
  }

  lemma DivMod(row: nat, col: nat, cols: nat)
    requires col < cols
    ensures (row * cols + col) / cols == row && (row * cols + col) % cols == col
  {
    var i := row * cols + col;
    SplitIndex(i, cols);
    SameQuotient(i / cols, row, cols, i % cols, col);
  }

  lemma CellIndex(l: Layout, row: nat, col: nat)
    requires row < l.rows && col < l.cols
    ensures row * l.cols + col < PerSheet(l) && Cell(l, row * l.cols + col) == CellAt(l, row, col)
  {
    DivMod(row, col, l.cols);
    LessTimes(row, l.rows, l.cols);
  }

  /** The cells in reading order. */
  method CellPositions(l: Layout) returns (p: seq<Point>)
    requires l.cols > 0
    ensures |p| == PerSheet(l) && forall i :: 0 <= i < |p| ==> p[i] == Cell(l, i)
  {
    hide Cell, CellAt;
    p := [];
    var row := 0;
    while row < l.rows
      invariant 0 <= row <= l.rows && |p| == row * l.cols
      invariant forall i :: 0 <= i < |p| ==> p[i] == Cell(l, i)
    {
      var col := 0;
      while col < l.cols
        invariant 0 <= col <= l.cols && |p| == row * l.cols + col
        invariant forall i :: 0 <= i < |p| ==> p[i] == Cell(l, i)
      {
        CellIndex(l, row, col);
        p := p + [CellAt(l, row, col)];
        col := col + 1;
      }
      row := row + 1;
    }
  }

  /** The back cell is in the same row, and going to the back twice comes back. */
  lemma BackIsAnInvolution(l: Layout, front: nat)
    requires l.cols > 0 && front < PerSheet(l)
    ensures 0 <= BackCell(l, front) < PerSheet(l)
    ensures BackCell(l, front) / l.cols == front / l.cols
    ensures BackCell(l, BackCell(l, front)) == front
  {
    var row, col := front / l.cols, front % l.cols;
    var back := l.cols - 1 - col;
    SplitIndex(front, l.cols);
    RowInSheet(front, l.rows, l.cols);
    DivMod(row, back, l.cols);
    CellIndex(l, row, back);
  }

  lemma RowInSheet(i: nat, rows: nat, cols: nat)
    requires cols > 0 && i < rows * cols
    ensures i / cols < rows
  {
    SplitIndex(i, cols);
    if i / cols > rows { LessTimes(rows, i / cols, cols); }
  }

  /** The layout is centred on the page. */
  predicate Centred(l: Layout) {
    && l.cols > 0 && l.rows > 0
    && l.pageW == 2.0 * l.left + l.cols as real * l.tagW + (l.cols - 1) as real * l.gutterH
    && l.pageH == 2.0 * l.top + l.rows as real * l.tagH + (l.rows - 1) as real * l.gutterV
  }

  lemma CardstockIsCentred()
    ensures Centred(Cardstock4x2()) && PerSheet(Cardstock4x2()) == 8
    ensures var l := Cardstock4x2();
      l.tagW > 0.0 && l.tagH > 0.0 && l.left > 0.0 && l.top > 0.0 && l.gutterH > 0.0 && l.gutterV > 0.0
  {
  }

  /** Turning the sheet over along its long edge puts every back behind its front: the two cells
      are mirror images about the page's vertical centre line, at the same height. */
  lemma BackMirrorsFront(l: Layout, front: nat)
    requires Centred(l) && front < PerSheet(l)
    ensures 0 <= BackCell(l, front)
    ensures Cell(l, front).x + l.tagW + Cell(l, BackCell(l, front)).x == l.pageW
    ensures Cell(l, front).y == Cell(l, BackCell(l, front)).y
  {
    var row, col := front / l.cols, front % l.cols;
    BackIsAnInvolution(l, front);
    DivMod(row, l.cols - 1 - col, l.cols);
    MirrorColumns(col as real, l.cols as real, l.tagW, l.gutterH);
  }

  lemma MirrorColumns(col: real, cols: real, tag: real, gutter: real)
    ensures col * (tag + gutter) + (cols - 1.0 - col) * (tag + gutter) + tag == cols * tag + (cols - 1.0) * gutter
  {
  }

  /** Two different cells of a sheet do not touch. */
  lemma CellsApart(l: Layout, i: nat, j: nat)
    requires l.cols > 0 && i != j && l.tagW > 0.0 && l.tagH > 0.0 && l.gutterH > 0.0 && l.gutterV > 0.0
    ensures var a, b := Cell(l, i), Cell(l, j);
      a.x + l.tagW < b.x || b.x + l.tagW < a.x || a.y + l.tagH < b.y || b.y + l.tagH < a.y
  {
    SplitIndex(i, l.cols);
    SplitIndex(j, l.cols);
    if i / l.cols != j / l.cols {
      Steps(i / l.cols, j / l.cols, l.tagH, l.tagH + l.gutterV);
    } else {
      Steps(i % l.cols, j % l.cols, l.tagW, l.tagW + l.gutterH);
    }
  }

  lemma CellAtOnPage(l: Layout, row: nat, col: nat)
    requires Centred(l) && row < l.rows && col < l.cols
    requires l.tagW > 0.0 && l.tagH > 0.0 && l.gutterH > 0.0 && l.gutterV > 0.0
    ensures l.left <= CellAt(l, row, col).x && CellAt(l, row, col).x + l.tagW <= l.pageW - l.left
    ensures l.top <= CellAt(l, row, col).y && CellAt(l, row, col).y + l.tagH <= l.pageH - l.top
    ensures row == 0 && col == 0 ==> CellAt(l, row, col) == Point(l.left, l.top)
    ensures row == l.rows - 1 && col == l.cols - 1 ==>
      CellAt(l, row, col).x + l.tagW == l.pageW - l.left && CellAt(l, row, col).y + l.tagH == l.pageH - l.top
  {
    Along(col, l.cols, l.tagW, l.gutterH);
    Along(row, l.rows, l.tagH, l.gutterV);
  }

  /** Every cell lies on the page within its margins, and the corner cells reach them. */
  lemma CellsOnPage(l: Layout, i: nat)
    requires Centred(l) && i < PerSheet(l) && l.tagW > 0.0 && l.tagH > 0.0 && l.gutterH > 0.0 && l.gutterV > 0.0
    ensures l.left <= Cell(l, i).x && Cell(l, i).x + l.tagW <= l.pageW - l.left
    ensures l.top <= Cell(l, i).y && Cell(l, i).y + l.tagH <= l.pageH - l.top
    ensures i == 0 ==> Cell(l, i) == Point(l.left, l.top)
    ensures i == PerSheet(l) - 1 ==>
      Cell(l, i).x + l.tagW == l.pageW - l.left && Cell(l, i).y + l.tagH == l.pageH - l.top
  {
    hide CellAt;
    SplitIndex(i, l.cols);
    RowInSheet(i, l.rows, l.cols);
    CellAtOnPage(l, i / l.cols, i % l.cols);
    if i == PerSheet(l) - 1 { LastCell(l); }
  }

  lemma LastCell(l: Layout)
    requires l.cols > 0 && l.rows > 0
    ensures var i := l.rows * l.cols - 1; i / l.cols == l.rows - 1 && i % l.cols == l.cols - 1
  {
    assert l.rows * l.cols - 1 == (l.rows - 1) * l.cols + (l.cols - 1);
    DivMod(l.rows - 1, l.cols - 1, l.cols);
  }

  /** Where the k-th of n tags in a line lies. */
  lemma Along(k: nat, n: nat, size: real, gutter: real)
    requires k < n && size > 0.0 && gutter > 0.0
    ensures 0.0 <= k as real * (size + gutter)
    ensures k as real * (size + gutter) + size <= n as real * size + (n - 1) as real * gutter
    ensures k == n - 1 ==> k as real * (size + gutter) + size == n as real * size + (n - 1) as real * gutter
  {
    var last := (n - 1) as real;
    assert n as real == last + 1.0;
    Times(0.0, k as real, size + gutter);
    Times(k as real, last, size + gutter);
    assert last * (size + gutter) + size == (last + 1.0) * size + last * gutter;
  }

  function Multiple(n: nat, step: real): real {
    n as real * step
  }

  lemma Steps(a: nat, b: nat, size: real, step: real)
    requires a != b && 0.0 < size < step
    ensures a as real * step + size < b as real * step || b as real * step + size < a as real * step
  {
    StepsApart(a, b, size, step);
  }

  lemma StepsApart(a: nat, b: nat, size: real, step: real)
    requires a != b && 0.0 < size < step
    ensures Multiple(a, step) + size < Multiple(b, step) || Multiple(b, step) + size < Multiple(a, step)
  {
    hide Multiple;
    if a < b { OneStep(a, b, step); } else { OneStep(b, a, step); }
  }

  lemma OneStep(a: nat, b: nat, step: real)
    requires a < b && step > 0.0
    ensures Multiple(a, step) + step <= Multiple(b, step)
  {
    assert (a + 1) as real <= b as real;
    Times((a + 1) as real, b as real, step);
    assert (a + 1) as real * step == a as real * step + step;
  }

  lemma Times(a: real, b: real, c: real)
    requires a <= b && c >= 0.0
    ensures a * c <= b * c
  {
  }

  // ---------------------------------------------------------------- the document

  /** One side of one tag: which row it shows, at which cell, and where its box is. */
  datatype Side = Side(row: nat, cell: nat, x: real, y: real)

  datatype Page = Page(front: bool, sides: seq<Side>)

  /** The front of a sheet, and the sides drawn on its back. */
  function FrontSide(l: Layout, start: nat, i: nat): Side
    requires l.cols > 0
  {
    Side(start + i, i, Cell(l, i).x, Cell(l, i).y)
  }

  function BackSide(l: Layout, start: nat, i: nat, dx: real, dy: real): Side
    requires l.cols > 0 && i < PerSheet(l)
  {
    BackIsAnInvolution(l, i);
    Side(start + i, BackCell(l, i), Cell(l, BackCell(l, i)).x + dx, Cell(l, BackCell(l, i)).y + dy)
  }

  function Fronts(l: Layout, start: nat, n: nat): seq<Side>
    requires l.cols > 0
  {
    if n == 0 then [] else Fronts(l, start, n - 1) + [FrontSide(l, start, n - 1)]
  }

  /** `hasBack` says which rows have something on their back. */
  function Backs(l: Layout, start: nat, n: nat, hasBack: seq<bool>, dx: real, dy: real): seq<Side>
    requires l.cols > 0 && n <= PerSheet(l) && start + n <= |hasBack|
  {
    if n == 0 then []
    else
      Backs(l, start, n - 1, hasBack, dx, dy)
      + if hasBack[start + n - 1] then [BackSide(l, start, n - 1, dx, dy)] else []
  }

  function SheetPages(l: Layout, start: nat, n: nat, hasBack: seq<bool>, dx: real, dy: real): seq<Page>
    requires l.cols > 0 && n <= PerSheet(l) && start + n <= |hasBack|
  {
    var backs := Backs(l, start, n, hasBack, dx, dy);
    [Page(true, Fronts(l, start, n))] + if backs == [] then [] else [Page(false, backs)]
  }

  /** The pages of the first `n` rows, sheet after sheet. */
  function Document(l: Layout, hasBack: seq<bool>, n: nat, dx: real, dy: real): seq<Page>
    requires l.cols > 0 && PerSheet(l) > 0 && n <= |hasBack|
    decreases n
  {
    if n == 0 then []
    else
      var start := SheetStart(n - 1, PerSheet(l));
      Document(l, hasBack, start, dx, dy) + SheetPages(l, start, n - start, hasBack, dx, dy)
  }

  /** The first row on the sheet of a row. */
  function SheetStart(row: nat, per: nat): (start: nat)
    requires per > 0
    ensures start <= row < start + per
  {
    row - row % per
  }

  /** The rows the front pages show, in page order. */
  function FrontRows(pages: seq<Page>): seq<nat> {
    if pages == [] then []
    else
      var last := pages[|pages| - 1];
      FrontRows(pages[..|pages| - 1]) + if last.front then RowsOf(last.sides) else []
  }

  function BackRows(pages: seq<Page>): seq<nat> {
    if pages == [] then []
    else
      var last := pages[|pages| - 1];
      BackRows(pages[..|pages| - 1]) + if last.front then [] else RowsOf(last.sides)
  }

  function RowsOf(sides: seq<Side>): (rows: seq<nat>)
    ensures |rows| == |sides|
  {
    seq(|sides|, i requires 0 <= i < |sides| => sides[i].row)
  }

  function UpTo(n: nat): (rows: seq<nat>)
    ensures |rows| == n && forall i :: 0 <= i < n ==> rows[i] == i
  {
    seq(n, i => i)
  }

  /** The rows below `n` that have a back. */
  function WithBack(hasBack: seq<bool>, n: nat): seq<nat>
    requires n <= |hasBack|
  {
    if n == 0 then [] else WithBack(hasBack, n - 1) + if hasBack[n - 1] then [n - 1] else []
  }

  /** A page's sides are in their places, and a back page comes right after its own fronts. */
  ghost predicate WellPlaced(l: Layout, pages: seq<Page>, dx: real, dy: real)
    requires l.cols > 0
  {
    forall p :: 0 <= p < |pages| ==> PageOk(l, pages, p, dx, dy)
  }

  ghost predicate PageOk(l: Layout, pages: seq<Page>, p: nat, dx: real, dy: real)
    requires l.cols > 0 && p < |pages|
  {
    && (pages[p].front ==> forall i :: 0 <= i < |pages[p].sides| ==>
          i < PerSheet(l) && pages[p].sides[i].cell == i == pages[p].sides[i].row % PerSheet(l)
          && pages[p].sides[i].x == Cell(l, i).x && pages[p].sides[i].y == Cell(l, i).y)
    && (!pages[p].front ==> p > 0 && pages[p - 1].front && AllBehind(l, pages[p - 1].sides, pages[p].sides, dx, dy))
  }

  ghost predicate AllBehind(l: Layout, fronts: seq<Side>, backs: seq<Side>, dx: real, dy: real)
    requires l.cols > 0
  {
    forall k :: 0 <= k < |backs| ==> BehindFront(l, fronts, backs[k], dx, dy)
  }

  /** A back is drawn behind the front of its own row. */
  ghost predicate BehindFront(l: Layout, fronts: seq<Side>, s: Side, dx: real, dy: real)
    requires l.cols > 0
  {
    exists i :: 0 <= i < |fronts| && i < PerSheet(l) && fronts[i].row == s.row && s.cell == BackCell(l, i)
      && s.x == Cell(l, s.cell).x + dx && s.y == Cell(l, s.cell).y + dy
  }

  lemma {:induction false} FrontsAre(l: Layout, start: nat, n: nat)
    requires l.cols > 0
    ensures var f := Fronts(l, start, n); |f| == n && forall i :: 0 <= i < n ==> f[i] == FrontSide(l, start, i)
  {
    hide FrontSide;
    if n > 0 { FrontsAre(l, start, n - 1); }
  }

  ghost predicate IsBackSide(l: Layout, start: nat, n: nat, s: Side, dx: real, dy: real)
    requires l.cols > 0 && n <= PerSheet(l)
  {
    exists i :: 0 <= i < n && s == BackSide(l, start, i, dx, dy)
  }

  lemma {:induction false} BacksAre(l: Layout, start: nat, n: nat, hasBack: seq<bool>, dx: real, dy: real)
    requires l.cols > 0 && n <= PerSheet(l) && start + n <= |hasBack|
    ensures var b := Backs(l, start, n, hasBack, dx, dy);
      && (forall k :: 0 <= k < |b| ==> IsBackSide(l, start, n, b[k], dx, dy))
      && WithBack(hasBack, start + n) == WithBack(hasBack, start) + RowsOf(b)
  {
    hide BackCell, Cell;
    if n == 0 {
      assert WithBack(hasBack, start) + [] == WithBack(hasBack, start);
    } else {
      BacksAre(l, start, n - 1, hasBack, dx, dy);
      var less, b := Backs(l, start, n - 1, hasBack, dx, dy), Backs(l, start, n, hasBack, dx, dy);
      if hasBack[start + n - 1] {
        assert RowsOf(b) == RowsOf(less) + [start + n - 1];
      } else {
        assert b == less;
      }
      forall k | 0 <= k < |b| ensures IsBackSide(l, start, n, b[k], dx, dy) {
        if k < |less| {
          assert b[k] == less[k] && IsBackSide(l, start, n - 1, less[k], dx, dy);
        } else {
          assert b[k] == BackSide(l, start, n - 1, dx, dy);
        }
      }
    }
  }

  // ---------------------------------------------------------------- whole documents

  lemma PagesPush(pages: seq<Page>, p: Page)
    ensures FrontRows(pages + [p]) == FrontRows(pages) + if p.front then RowsOf(p.sides) else []
    ensures BackRows(pages + [p]) == BackRows(pages) + if p.front then [] else RowsOf(p.sides)
  {
    assert (pages + [p])[..|pages|] == pages;
  }

  /** Adding a page leaves the earlier ones well placed. */
  lemma PlacedPush(l: Layout, pages: seq<Page>, p: Page, dx: real, dy: real)
    requires l.cols > 0 && WellPlaced(l, pages, dx, dy) && PageOk(l, pages + [p], |pages|, dx, dy)
    ensures WellPlaced(l, pages + [p], dx, dy)
  {
    var all := pages + [p];
    forall k: nat | k < |all| ensures PageOk(l, all, k, dx, dy) {
      if k < |pages| {
        assert PageOk(l, pages, k, dx, dy);
        assert all[k] == pages[k] && (k > 0 ==> all[k - 1] == pages[k - 1]);
        SamePage(l, pages, all, k, dx, dy);
      }
    }
  }

  lemma SamePage(l: Layout, a: seq<Page>, b: seq<Page>, k: nat, dx: real, dy: real)
    requires l.cols > 0 && k < |a| && k < |b| && a[k] == b[k]
    requires (k > 0 ==> a[k - 1] == b[k - 1]) && PageOk(l, a, k, dx, dy)
    ensures PageOk(l, b, k, dx, dy)
  {
    hide AllBehind;
  }

  lemma FrontPageOk(l: Layout, pages: seq<Page>, start: nat, n: nat, dx: real, dy: real)
    requires l.cols > 0 && n <= PerSheet(l) && PerSheet(l) > 0 && start % PerSheet(l) == 0
    ensures PageOk(l, pages + [Page(true, Fronts(l, start, n))], |pages|, dx, dy)
    ensures RowsOf(Fronts(l, start, n)) == UpTo(start + n)[start..]
  {
    hide Cell;
    FrontsAre(l, start, n);
    var f := Fronts(l, start, n);
    forall i | 0 <= i < n ensures f[i].row % PerSheet(l) == i {
      assert f[i] == FrontSide(l, start, i);
      PlaceInSheet(start, i, PerSheet(l));
    }
    assert RowsOf(f) == UpTo(start + n)[start..];
  }

  lemma PlaceInSheet(start: nat, i: nat, per: nat)
    requires i < per && start % per == 0
    ensures (start + i) % per == i
  {
    SplitIndex(start, per);
    DivMod(start / per, i, per);
  }

  lemma SheetStartIs(start: nat, i: nat, per: nat)
    requires i < per && start % per == 0
    ensures SheetStart(start + i, per) == start
  {
    PlaceInSheet(start, i, per);
  }

  /** One more sheet continues the document. */
  lemma DocumentNext(l: Layout, hasBack: seq<bool>, start: nat, n: nat, dx: real, dy: real)
    requires l.cols > 0 && 0 < n <= PerSheet(l) && start + n <= |hasBack| && start % PerSheet(l) == 0
    ensures Document(l, hasBack, start + n, dx, dy)
         == Document(l, hasBack, start, dx, dy) + SheetPages(l, start, n, hasBack, dx, dy)
  {
    hide SheetPages;
    SheetStartIs(start, n - 1, PerSheet(l));
  }

  lemma BackPageOk(l: Layout, pages: seq<Page>, start: nat, n: nat, hasBack: seq<bool>, dx: real, dy: real)
    requires l.cols > 0 && n <= PerSheet(l) && start + n <= |hasBack|
    requires |pages| > 0 && pages[|pages| - 1] == Page(true, Fronts(l, start, n))
    ensures PageOk(l, pages + [Page(false, Backs(l, start, n, hasBack, dx, dy))], |pages|, dx, dy)
  {
    hide Cell, BackCell, Backs, Fronts;
    FrontsAre(l, start, n);
    BacksAre(l, start, n, hasBack, dx, dy);
    var fronts, backs := Fronts(l, start, n), Backs(l, start, n, hasBack, dx, dy);
    forall k | 0 <= k < |backs| ensures BehindFront(l, fronts, backs[k], dx, dy) {
      assert IsBackSide(l, start, n, backs[k], dx, dy);
      var i :| 0 <= i < n && backs[k] == BackSide(l, start, i, dx, dy);
      assert fronts[i] == FrontSide(l, start, i);
    }
    var all := pages + [Page(false, backs)];
    assert all[|pages| - 1] == pages[|pages| - 1];
  }

  lemma RangesJoin(a: nat, b: nat)
    requires a <= b
    ensures UpTo(a) + UpTo(b)[a..] == UpTo(b)
  {
  }

  /** Lays the rows out sheet by sheet: the document is the pages of its sheets, and so every row
      is drawn on exactly one front, in order, at the cell its place on the sheet gives it, and
      every row with a back is drawn on exactly one back, right after its front and behind it
      (moved by the registration offset). Without rows there is one empty page. */
  method BuildDoc(hasBack: seq<bool>, dx: real, dy: real) returns (pages: seq<Page>)
    ensures FrontRows(pages) == UpTo(|hasBack|) && BackRows(pages) == WithBack(hasBack, |hasBack|)
    ensures WellPlaced(Cardstock4x2(), pages, dx, dy)
    ensures PerSheet(Cardstock4x2()) > 0
    ensures pages == if hasBack == [] then [Page(true, [])] else Document(Cardstock4x2(), hasBack, |hasBack|, dx, dy)
  {
    hide Cell, Fronts, Backs, BackCell, FrontRows, BackRows, WithBack, UpTo, RowsOf, WellPlaced, PageOk,
         Cardstock4x2, SheetPages, Document;
    var l := Cardstock4x2();
    CardstockIsCentred();
    var perSheet := PerSheet(l);
    pages := [];
    var start := 0;
    NothingDrawn(l, hasBack, dx, dy);
    while start < |hasBack|
      invariant start % perSheet == 0 || start >= |hasBack|
      invariant var done := if start < |hasBack| then start else |hasBack|;
        FrontRows(pages) == UpTo(done) && BackRows(pages) == WithBack(hasBack, done)
      invariant WellPlaced(l, pages, dx, dy) && (start > 0 ==> |pages| > 0)
      invariant pages == Document(l, hasBack, if start < |hasBack| then start else |hasBack|, dx, dy)
      decreases |hasBack| - start
    {
      var end := if start + perSheet > |hasBack| then |hasBack| else start + perSheet;
      pages := AddSheet(l, pages, start, end - start, hasBack, dx, dy);
      NextSheet(start, perSheet);
      DocumentNext(l, hasBack, start, end - start, dx, dy);
      start := start + perSheet;
    }
    if |pages| == 0 {
      EmptyPage(l, dx, dy);
      PagesPush([], Page(true, []));
      assert [] + [Page(true, [])] == [Page(true, [])];
      NoRows();
      pages := [Page(true, [])];
    }
  }

  lemma NextSheet(start: nat, per: nat)
    requires per > 0
    ensures start % per == 0 ==> (start + per) % per == 0
  {
    if start % per == 0 {
      SplitIndex(start, per);
      DivMod(start / per + 1, 0, per);
      assert (start / per + 1) * per == start / per * per + per;
    }
  }

  lemma NoRows()
    ensures RowsOf([]) == [] && UpTo(0) == []
  {
  }

  lemma EmptyPage(l: Layout, dx: real, dy: real)
    requires l.cols > 0
    ensures WellPlaced(l, [Page(true, [])], dx, dy)
  {
  }

  lemma NothingDrawn(l: Layout, hasBack: seq<bool>, dx: real, dy: real)
    requires l.cols > 0 && PerSheet(l) > 0
    ensures Document(l, hasBack, 0, dx, dy) == []
    ensures FrontRows([]) == UpTo(0) == [] && BackRows([]) == WithBack(hasBack, 0) == [] && WellPlaced(l, [], dx, dy)
  {
  }

  /** One sheet: its front page, and its back page if anything is on it. */
  method AddSheet(l: Layout, pages: seq<Page>, start: nat, n: nat, hasBack: seq<bool>, dx: real, dy: real)
    returns (all: seq<Page>)
    requires l.cols > 0 && 0 < n <= PerSheet(l) && start + n <= |hasBack| && start % PerSheet(l) == 0
    requires FrontRows(pages) == UpTo(start)
    requires BackRows(pages) == WithBack(hasBack, start)
    requires WellPlaced(l, pages, dx, dy)
    ensures FrontRows(all) == UpTo(start + n)
    ensures BackRows(all) == WithBack(hasBack, start + n)
    ensures WellPlaced(l, all, dx, dy)
    ensures |all| > 0 && all == pages + SheetPages(l, start, n, hasBack, dx, dy)
  {
    hide Cell, FrontRows, BackRows, WithBack, UpTo, RowsOf, WellPlaced, PageOk;
    var positions := CellPositions(l);
    var fronts: seq<Side>, backs: seq<Side> := [], [];
    var i := 0;
    while i < n
      invariant 0 <= i <= n && fronts == Fronts(l, start, i) && backs == Backs(l, start, i, hasBack, dx, dy)
    {
      fronts := fronts + [Side(start + i, i, positions[i].x, positions[i].y)];
      if hasBack[start + i] {
        BackIsAnInvolution(l, i);
        var bi := BackCell(l, i);
        backs := backs + [Side(start + i, bi, positions[bi].x + dx, positions[bi].y + dy)];
      } else {
        assert backs + [] == backs;
      }
      i := i + 1;
    }
    hide Fronts, Backs;
    all := pages + [Page(true, fronts)];
    FrontPageOk(l, pages, start, n, dx, dy);
    PlacedPush(l, pages, Page(true, fronts), dx, dy);
    PagesPush(pages, Page(true, fronts));
    RangesJoin(start, start + n);
    BacksAre(l, start, n, hasBack, dx, dy);
    if |backs| > 0 {
      BackPageOk(l, all, start, n, hasBack, dx, dy);
      PlacedPush(l, all, Page(false, backs), dx, dy);
      PagesPush(all, Page(false, backs));
      all := all + [Page(false, backs)];
    } else {
      NoRows();
      assert WithBack(hasBack, start) + [] == WithBack(hasBack, start);
    }
    assert BackRows(pages) + [] == BackRows(pages);
    assert UpTo(start + n) + [] == UpTo(start + n);
  }
}
