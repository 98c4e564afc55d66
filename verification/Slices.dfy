/** What disk mode does to Go slices, in place on the array behind the slice. */
module Slices {
  import opened Common
  import opened Patch

  /** `from` taken out and put back at `to` of what is left. */
  function Moved<T>(s: seq<T>, from: nat, to: nat): seq<T>
    requires from < |s| && to < |s|
  {
    InsertAt(RemoveAt(s, from), to, s[from])
  }

  function StringOf(v: Json): string {
    if v.Str? then v.s else ""
  }

  /** A list without its entries for `id`; entries that are not strings read as "". */
  function Without(list: seq<Json>, id: string): seq<Json> {
    if list == [] then []
    else
      var last := list[|list| - 1];
      Without(list[..|list| - 1], id) + if StringOf(last) == id then [] else [last]
  }

  /** Grow by one, shift what follows `i` up, and set `i`: `a` already has the extra room. */
  method InsertInPlace(a: array<Json>, i: nat, v: Json)
    requires a.Length > 0 && i < a.Length
    modifies a
    ensures a[..] == InsertAt(old(a[..a.Length - 1]), i, v)
  {
    ghost var before := a[..a.Length - 1];
    var k := a.Length - 1;
    while k > i
      invariant i <= k < a.Length
      invariant a[..k] == before[..k]
      invariant a[k + 1..] == before[k..]
    {
      a[k] := a[k - 1];
      k := k - 1;
      assert a[k + 1..] == [before[k]] + before[k + 1..];
    }
    a[i] := v;
    assert a[..] == a[..i] + [v] + a[i + 1..];
  }

  /** Shift what follows `i` down; the slice is then the first `n - 1` places. */
  method RemoveInPlace(a: array<Json>, n: nat, i: nat)
    requires i < n <= a.Length
    modifies a
    ensures a[..n - 1] == RemoveAt(old(a[..n]), i)
    ensures a[n - 1..] == old(a[n - 1..])
  {
    ghost var before := a[..];
    var k := i;
    while k < n - 1
      invariant i <= k <= n - 1
      invariant a[..i] == before[..i] && a[k..] == before[k..]
      invariant a[i..k] == before[i + 1..k + 1]
    {
      a[k] := a[k + 1];
      k := k + 1;
      assert a[i..k] == before[i + 1..k] + [before[k]];
    }
    assert a[..n - 1] == a[..i] + a[i..n - 1];
    assert old(a[..n]) == before[..n];
    assert before[..n][..i] == before[..i] && before[..n][i + 1..] == before[i + 1..n];
  }

  /** Remove the slide, copy the part after its new place aside, and write slide and part back
      over the same array. */
  method MoveInPlace(a: array<Json>, from: nat, to: nat)
    requires from < a.Length && to < a.Length
    modifies a
    ensures a[..] == Moved(old(a[..]), from, to)
  {
    hide RemoveAt, InsertAt;
    var s := a[from];
    RemoveInPlace(a, a.Length, from);
    assert old(a[..a.Length]) == old(a[..]);
    ghost var left := a[..a.Length - 1];
    var tail := [s] + a[to..a.Length - 1];
    assert a[to..a.Length - 1] == left[to..];
    var k := 0;
    while k < |tail|
      invariant 0 <= k <= |tail| == a.Length - to
      invariant a[..to] == left[..to]
      invariant a[to..to + k] == tail[..k]
    {
      a[to + k] := tail[k];
      k := k + 1;
    }
    assert a[..] == a[..to] + a[to..to + k];
    Overwritten(left, s, to);
  }

  lemma Overwritten(left: seq<Json>, s: Json, to: nat)
    requires to <= |left|
    ensures left[..to] + ([s] + left[to..]) == InsertAt(left, to, s)
  {
  }

  lemma WithoutNext(list: seq<Json>, i: nat, id: string)
    requires i < |list|
    ensures Without(list[..i + 1], id) == Without(list[..i], id) + if StringOf(list[i]) == id then [] else [list[i]]
  {
    assert list[..i + 1][..i] == list[..i];
  }

  /** Filter a list over its own array; the kept entries are the first `kept` places. */
  method ScrubInPlace(a: array<Json>, id: string) returns (kept: nat)
    modifies a
    ensures kept <= a.Length && a[..kept] == Without(old(a[..]), id)
  {
    ghost var before := a[..];
    kept := 0;
    var i := 0;
    assert before[..0] == [];
    while i < a.Length
      invariant 0 <= kept <= i <= a.Length == |before|
      invariant a[..kept] == Without(before[..i], id)
      invariant a[i..] == before[i..]
    {
      hide Without, StringOf;
      WithoutNext(before, i, id);
      assert a[i] == before[i] && a[i + 1..] == a[i..][1..] == before[i + 1..];
      var keep := StringOf(a[i]) != id;
      if keep {
        ghost var soFar, rest := a[..kept], a[i + 1..];
        a[kept] := a[i];
        kept := kept + 1;
        assert a[..kept] == soFar + [before[i]] && a[i + 1..] == rest;
      }
      i := i + 1;
    }
    assert before[..i] == before;
  }

  // ---------------------------------------------------------------- a spreadsheet's cells

  const EMPTY_CELL := Obj(map["value" := Str(""), "type" := Num(0.0)])

  /** The cell the old grid has there. Where it does not reach, the program would stop. */
  function OldCell(cells: seq<Json>, r: nat, c: nat): Option<Json> {
    if r < |cells| && cells[r].Arr? && c < |cells[r].items| then Some(cells[r].items[c]) else None
  }

  predicate Covers(cells: seq<Json>, rows: int, cols: int) {
    forall r, c :: 0 <= r < rows && 0 <= c < cols ==> OldCell(cells, r, c).Some?
  }

  /** A grid of the new size: the old cell where there was one, an empty one elsewhere. */
  ghost predicate Resized(grid: seq<seq<Json>>, cells: seq<Json>, oldRows: int, oldCols: int, rows: nat, cols: nat) {
    && |grid| == rows
    && (forall r :: 0 <= r < rows ==> |grid[r]| == cols)
    && (forall r, c :: 0 <= r < rows && 0 <= c < cols ==>
          if r < oldRows && c < oldCols then OldCell(cells, r, c) == Some(grid[r][c]) else grid[r][c] == EMPTY_CELL)
  }

  function Smaller(a: int, b: int): int {
    if b < a then b else a
  }

  /** The new grid is fixed by what it has to hold. */
  lemma ResizedIsUnique(a: seq<seq<Json>>, b: seq<seq<Json>>, cells: seq<Json>, oldRows: int,
    oldCols: int, rows: nat, cols: nat)
    requires Resized(a, cells, oldRows, oldCols, rows, cols) && Resized(b, cells, oldRows, oldCols, rows, cols)
    ensures a == b
  {
    forall r | 0 <= r < rows ensures a[r] == b[r] {
      forall c | 0 <= c < cols ensures a[r][c] == b[r][c] {
      }
    }
  }

  /** The resized grid, unless the old grid does not reach a cell that its size promises. */
  function NewGrid(cells: seq<Json>, oldRows: int, oldCols: int, rows: nat, cols: nat): (grid: Option<seq<seq<Json>>>)
    ensures grid.Some? <==> Covers(cells, Smaller(oldRows, rows), Smaller(oldCols, cols))
    ensures grid.Some? ==> Resized(grid.value, cells, oldRows, oldCols, rows, cols)
  {
    if Covers(cells, Smaller(oldRows, rows), Smaller(oldCols, cols)) then
      Some(seq(rows, r requires 0 <= r < rows =>
             seq(cols, c requires 0 <= c < cols =>
               if r < oldRows && c < oldCols then OldCell(cells, r, c).value else EMPTY_CELL)))
    else None
  }

  /** Builds the grid row by row; it fails exactly when the old grid does not reach a cell that
      its size promises. */
  method NewCells(cells: seq<Json>, oldRows: int, oldCols: int, rows: nat, cols: nat)
    returns (grid: Option<seq<seq<Json>>>)
    ensures grid == NewGrid(cells, oldRows, oldCols, rows, cols)
  {
    var out: seq<seq<Json>> := [];
    var r := 0;
    while r < rows
      invariant 0 <= r <= rows && Resized(out, cells, oldRows, oldCols, r, cols)
      invariant Covers(cells, Smaller(oldRows, r), Smaller(oldCols, cols))
    {
      var row: seq<Json> := [];
      var c := 0;
      while c < cols
        invariant 0 <= c <= cols && |row| == c
        invariant forall k :: 0 <= k < c ==>
          if r < oldRows && k < oldCols then OldCell(cells, r, k) == Some(row[k]) else row[k] == EMPTY_CELL
      {
        if r < oldRows && c < oldCols {
          var cell := OldCell(cells, r, c);
          if cell.None? {
            return None;
          }
          row := row + [cell.value];
        } else {
          row := row + [EMPTY_CELL];
        }
        c := c + 1;
      }
      out := out + [row];
      r := r + 1;
    }
    ResizedIsUnique(out, NewGrid(cells, oldRows, oldCols, rows, cols).value, cells, oldRows, oldCols, rows, cols);
    grid := Some(out);
  }

  function Boxed(grid: seq<seq<Json>>): (cells: seq<Json>)
    ensures |cells| == |grid| && forall r :: 0 <= r < |grid| ==> cells[r] == Arr(grid[r])
  {
    seq(|grid|, r requires 0 <= r < |grid| => Arr(grid[r]))
  }

  /** Growing a sheet and shrinking it back loses nothing. */
  lemma GrowThenShrink(grid: seq<seq<Json>>, big: seq<seq<Json>>, back: seq<seq<Json>>,
    rows: nat, cols: nat, moreRows: nat, moreCols: nat)
    requires |grid| == rows <= moreRows && cols <= moreCols && forall r :: 0 <= r < rows ==> |grid[r]| == cols
    requires Resized(big, Boxed(grid), rows, cols, moreRows, moreCols)
    requires Resized(back, Boxed(big), moreRows, moreCols, rows, cols)
    ensures back == grid
  {
    forall r | 0 <= r < rows ensures back[r] == grid[r] {
      forall c | 0 <= c < cols ensures back[r][c] == grid[r][c] {
        assert OldCell(Boxed(big), r, c) == Some(big[r][c]);
        assert OldCell(Boxed(grid), r, c) == Some(grid[r][c]);
      }
    }
  }
}
