/**
 Packing the quiz's map: each subsystem is a tile of one to nine cells, and the tiles are
 placed largest first, each at the first spot that is free, in a grid six columns wide.
 */
module Packing {

  datatype Tile = Tile(name: string, lines: int)

  datatype Size = Size(width: nat, height: nat)

  /** A tile at its place: its left column and its top row. */
  datatype Place = Place(tile: Tile, size: Size, col: nat, row: nat)

  const COLUMNS: nat := 6

  function Total(tiles: seq<Tile>): int {
    if tiles == [] then 0 else Total(tiles[..|tiles| - 1]) + tiles[|tiles| - 1].lines
  }

  /** The cells a tile deserves of the 36. */
  function Share(tile: Tile, total: int, count: nat): real {
    if total > 0 then tile.lines as real / total as real * 36.0
    else 36.0 / (if count > 1 then count else 1) as real
  }

  function Span(tile: Tile, total: int, count: nat): (size: Size)
    ensures 1 <= size.height <= size.width <= 3
  {
    var cells := Share(tile, total, count);
    if cells >= 8.0 then Size(3, 3)
    else if cells >= 5.0 then Size(3, 2)
    else if cells >= 3.0 then Size(2, 2)
    else if cells >= 2.0 || |tile.name| > 6 then Size(2, 1)
    else Size(1, 1)
  }

  /** A tile gets the largest size whose cells are at most one more than its share; two cells need a full share of two, or a long name. */
  lemma {:induction false} SpanFitsTheShare(tile: Tile, total: int, count: nat)
    ensures var size, cells := Span(tile, total, count), Share(tile, total, count);
            var area := size.width * size.height;
            && area in {1, 2, 4, 6, 9}
            && (area > 2 ==> (area - 1) as real <= cells)
            && (area == 2 ==> cells >= 2.0 || |tile.name| > 6)
            && (area == 1 ==> cells < 2.0 && |tile.name| <= 6)
            && (area < 9 ==> cells < 8.0) && (area < 6 ==> cells < 5.0) && (area < 4 ==> cells < 3.0)
  {
  }

  /** A tile with more lines never gets fewer cells than one with fewer and a name as long. */
  lemma {:induction false} SpanGrows(a: Tile, b: Tile, total: int, count: nat)
    requires a.lines <= b.lines && |a.name| <= |b.name|
    ensures var x, y := Span(a, total, count), Span(b, total, count);
            x.width <= y.width && x.height <= y.height
  {
    if total > 0 {
      var t := total as real;
      Quotients(a.lines as real, b.lines as real, t);
    }
  }

  lemma {:induction false} Quotients(a: real, b: real, t: real)
    requires a <= b && t > 0.0
    ensures a / t <= b / t
  {
    assert (b - a) / t >= 0.0;
    assert b / t == a / t + (b - a) / t;
  }

  // The order

  function InsertByLines(tile: Tile, sorted: seq<Tile>): seq<Tile> {
    if sorted == [] || sorted[|sorted| - 1].lines >= tile.lines then sorted + [tile]
    else InsertByLines(tile, sorted[..|sorted| - 1]) + [sorted[|sorted| - 1]]
  }

  /** Most lines first; tiles of as many lines stay in their order. */
  function ByLines(tiles: seq<Tile>): seq<Tile> {
    if tiles == [] then [] else InsertByLines(tiles[|tiles| - 1], ByLines(tiles[..|tiles| - 1]))
  }

  predicate Descending(tiles: seq<Tile>) {
    forall i, j :: 0 <= i < j < |tiles| ==> tiles[i].lines >= tiles[j].lines
  }

  lemma {:induction false} InsertHas(tile: Tile, sorted: seq<Tile>)
    ensures multiset(InsertByLines(tile, sorted)) == multiset(sorted) + multiset{tile}
  {
    if sorted != [] && sorted[|sorted| - 1].lines < tile.lines {
      InsertHas(tile, sorted[..|sorted| - 1]);
      assert sorted == sorted[..|sorted| - 1] + [sorted[|sorted| - 1]];
    }
  }

  lemma {:induction false} InsertDescends(tile: Tile, sorted: seq<Tile>)
    requires Descending(sorted)
    ensures Descending(InsertByLines(tile, sorted))
    ensures forall t <- InsertByLines(tile, sorted) :: t == tile || t in sorted
  {
    if sorted != [] && sorted[|sorted| - 1].lines < tile.lines {
      var most, last := sorted[..|sorted| - 1], sorted[|sorted| - 1];
      InsertDescends(tile, most);
      var inner := InsertByLines(tile, most);
      forall i | 0 <= i < |inner| ensures inner[i].lines >= last.lines {
        assert inner[i] in inner;
      }
    }
  }

  /** Every tile once, most lines first. */
  lemma {:induction false} ByLinesSorts(tiles: seq<Tile>)
    ensures multiset(ByLines(tiles)) == multiset(tiles) && Descending(ByLines(tiles))
  {
    ByLinesHas(tiles);
    ByLinesDescends(tiles);
  }

  lemma {:induction false} ByLinesDescends(tiles: seq<Tile>)
    ensures Descending(ByLines(tiles))
  {
    if tiles != [] {
      ByLinesDescends(tiles[..|tiles| - 1]);
      InsertDescends(tiles[|tiles| - 1], ByLines(tiles[..|tiles| - 1]));
    }
  }

  lemma {:induction false} ByLinesHas(tiles: seq<Tile>)
    ensures multiset(ByLines(tiles)) == multiset(tiles)
  {
    hide InsertByLines;
    if tiles != [] {
      var most, last := tiles[..|tiles| - 1], tiles[|tiles| - 1];
      ByLinesHas(most);
      InsertHas(last, ByLines(most));
      assert tiles == most + [last];
      assert multiset(most + [last]) == multiset(most) + multiset{last};
    }
  }

  // Spots

  /** The two areas have a cell in common. */
  predicate Overlap(p: Place, size: Size, col: nat, row: nat) {
    && p.col < col + size.width && col < p.col + p.size.width
    && p.row < row + size.height && row < p.row + p.size.height
  }

  predicate Covers(p: Place, x: nat, y: nat) {
    p.col <= x < p.col + p.size.width && p.row <= y < p.row + p.size.height
  }

  /** Nothing placed yet reaches into the area. */
  ghost predicate Free(out: seq<Place>, size: Size, col: nat, row: nat) {
    forall i :: 0 <= i < |out| ==> !Overlap(out[i], size, col, row)
  }

  predicate Earlier(col: nat, row: nat, p: Place) {
    row < p.row || (row == p.row && col < p.col)
  }

  /** The place is inside the grid and free, and no spot before it, by rows, is. */
  ghost predicate FirstFree(out: seq<Place>, p: Place) {
    && p.col + p.size.width <= COLUMNS
    && Free(out, p.size, p.col, p.row)
    && forall col: nat, row: nat :: Earlier(col, row, p) && col + p.size.width <= COLUMNS ==> !Free(out, p.size, col, row)
  }

  /** Each tile of `order` in turn at the first spot the ones before it leave free. */
  ghost predicate Packed(order: seq<Tile>, total: int, count: nat, out: seq<Place>) {
    && |out| == |order|
    && forall i :: 0 <= i < |out| ==> out[i].tile == order[i] && out[i].size == Span(order[i], total, count) && FirstFree(out[..i], out[i])
  }

  ghost predicate LowestEdge(out: seq<Place>, rows: nat) {
    && (forall i :: 0 <= i < |out| ==> out[i].row + out[i].size.height <= rows)
    && (out == [] ==> rows == 0)
    && (out != [] ==> exists i :: 0 <= i < |out| && out[i].row + out[i].size.height == rows)
  }

  // The cells in use

  ghost predicate UsedBy(used: set<(nat, nat)>, out: seq<Place>) {
    forall x: nat, y: nat :: (x, y) in used <==> exists i :: 0 <= i < |out| && Covers(out[i], x, y)
  }

  predicate AllUnused(used: set<(nat, nat)>, size: Size, col: nat, row: nat) {
    forall x: nat, y: nat :: col <= x < col + size.width && row <= y < row + size.height ==> (x, y) !in used
  }

  function CellsOf(size: Size, col: nat, row: nat): set<(nat, nat)> {
    set x: nat, y: nat | col <= x < col + size.width && row <= y < row + size.height :: (x, y)
  }

  lemma {:induction false} UnusedIsFree(used: set<(nat, nat)>, out: seq<Place>, size: Size, col: nat, row: nat)
    requires UsedBy(used, out) && forall i :: 0 <= i < |out| ==> out[i].size.width > 0 && out[i].size.height > 0
    requires size.width > 0 && size.height > 0
    ensures AllUnused(used, size, col, row) <==> Free(out, size, col, row)
  {
    if !Free(out, size, col, row) {
      var i :| 0 <= i < |out| && Overlap(out[i], size, col, row);
      var x := if out[i].col > col then out[i].col else col;
      var y := if out[i].row > row then out[i].row else row;
      assert Covers(out[i], x, y);
      assert (x, y) in used;
    }
    if !AllUnused(used, size, col, row) {
      var x: nat, y: nat :| col <= x < col + size.width && row <= y < row + size.height && (x, y) in used;
      var i :| 0 <= i < |out| && Covers(out[i], x, y);
      assert Overlap(out[i], size, col, row);
    }
  }

  lemma {:induction false} UseMore(used: set<(nat, nat)>, out: seq<Place>, p: Place)
    requires UsedBy(used, out)
    ensures UsedBy(used + CellsOf(p.size, p.col, p.row), out + [p])
  {
    var more, all := used + CellsOf(p.size, p.col, p.row), out + [p];
    forall x: nat, y: nat ensures (x, y) in more <==> exists i :: 0 <= i < |all| && Covers(all[i], x, y) {
      if (x, y) in used {
        var i :| 0 <= i < |out| && Covers(out[i], x, y);
        assert all[i] == out[i];
      }
      if Covers(p, x, y) {
        assert all[|out|] == p;
      }
    }
  }

  // The packing

  /** Goes through the grid by rows until the tile fits. */
  method FindSpot(used: set<(nat, nat)>, size: Size, ghost out: seq<Place>, rows: nat) returns (col: nat, row: nat)
    requires 1 <= size.width <= COLUMNS && 1 <= size.height
    requires UsedBy(used, out) && LowestEdge(out, rows)
    requires forall i :: 0 <= i < |out| ==> out[i].size.width > 0 && out[i].size.height > 0
    ensures AllUnused(used, size, col, row) && col + size.width <= COLUMNS
    ensures forall c: nat, r: nat :: (r < row || (r == row && c < col)) && c + size.width <= COLUMNS ==> !Free(out, size, c, r)
  {
    row := 0;
    while true
      invariant row <= rows
      invariant forall c: nat, r: nat :: r < row && c + size.width <= COLUMNS ==> !Free(out, size, c, r)
      decreases rows - row
    {
      col := 0;
      while col + size.width <= COLUMNS
        invariant forall c: nat, r: nat :: (r < row || (r == row && c < col)) && c + size.width <= COLUMNS ==> !Free(out, size, c, r)
        decreases COLUMNS - col
      {
        UnusedIsFree(used, out, size, col, row);
        if AllUnused(used, size, col, row) {
          return;
        }
        col := col + 1;
      }
      assert row < rows by {
        if row == rows {
          assert Free(out, size, 0, row);
        }
      }
      row := row + 1;
    }
  }

  method PackMap(tiles: seq<Tile>) returns (out: seq<Place>, rows: nat)
    ensures Packed(ByLines(tiles), Total(tiles), |tiles|, out)
    ensures LowestEdge(out, rows)
  {
    var total := Total(tiles);
    var used: set<(nat, nat)> := {};
    out, rows := [], 0;
    var order := ByLines(tiles);
    for n := 0 to |order|
      invariant Packed(order[..n], total, |tiles|, out)
      invariant LowestEdge(out, rows)
      invariant UsedBy(used, out)
    {
      var size := Span(order[n], total, |tiles|);
      var col, row := FindSpot(used, size, out, rows);
      UnusedIsFree(used, out, size, col, row);
      var place := Place(order[n], size, col, row);
      assert FirstFree(out, place);
      UseMore(used, out, place);
      PackMore(order, total, |tiles|, n, out, place);
      LowerEdge(out, rows, place);
      used := used + CellsOf(size, col, row);
      out := out + [place];
      rows := if rows > row + size.height then rows else row + size.height;
    }
    assert order[..|order|] == order;
  }

  lemma {:induction false} PackMore(order: seq<Tile>, total: int, count: nat, n: nat, out: seq<Place>, p: Place)
    requires n < |order| && Packed(order[..n], total, count, out)
    requires p.tile == order[n] && p.size == Span(order[n], total, count) && FirstFree(out, p)
    ensures Packed(order[..n + 1], total, count, out + [p])
  {
    var all := out + [p];
    forall i | 0 <= i < |all| ensures FirstFree(all[..i], all[i]) {
      if i < n {
        assert all[..i] == out[..i];
      } else {
        assert all[..i] == out;
      }
    }
  }

  lemma {:induction false} LowerEdge(out: seq<Place>, rows: nat, p: Place)
    requires LowestEdge(out, rows)
    ensures LowestEdge(out + [p], if rows > p.row + p.size.height then rows else p.row + p.size.height)
  {
    var all := out + [p];
    if rows > p.row + p.size.height {
      var i :| 0 <= i < |out| && out[i].row + out[i].size.height == rows;
      assert all[i] == out[i];
    } else {
      assert all[|out|] == p;
    }
  }

  // Main results

  /** Every tile is placed once, inside the six columns, and no two overlap. */
  lemma {:induction false} PackedIsApart(tiles: seq<Tile>, out: seq<Place>)
    requires Packed(ByLines(tiles), Total(tiles), |tiles|, out)
    ensures multiset(seq(|out|, i requires 0 <= i < |out| => out[i].tile)) == multiset(tiles)
    ensures forall i :: 0 <= i < |out| ==> out[i].col + out[i].size.width <= COLUMNS
    ensures forall i, j :: 0 <= i < j < |out| ==> !Overlap(out[i], out[j].size, out[j].col, out[j].row)
    ensures forall i, j, x: nat, y: nat :: 0 <= i < j < |out| ==> !(Covers(out[i], x, y) && Covers(out[j], x, y))
  {
    ByLinesSorts(tiles);
    assert seq(|out|, i requires 0 <= i < |out| => out[i].tile) == ByLines(tiles);
    forall i, j | 0 <= i < j < |out| ensures !Overlap(out[i], out[j].size, out[j].col, out[j].row) {
      assert FirstFree(out[..j], out[j]);
      assert out[..j][i] == out[i];
    }
  }

  /** There is only one such packing. */
  lemma {:induction false} PackingIsUnique(order: seq<Tile>, total: int, count: nat, a: seq<Place>, b: seq<Place>)
    requires Packed(order, total, count, a) && Packed(order, total, count, b)
    ensures a == b
  {
    PackingIsUniqueTo(order, total, count, a, b, |order|);
    assert a[..|order|] == a && b[..|order|] == b;
  }

  lemma {:induction false} PackingIsUniqueTo(order: seq<Tile>, total: int, count: nat, a: seq<Place>, b: seq<Place>, n: nat)
    requires Packed(order, total, count, a) && Packed(order, total, count, b) && n <= |order|
    ensures a[..n] == b[..n]
  {
    if n > 0 {
      PackingIsUniqueTo(order, total, count, a, b, n - 1);
      var p, q := a[n - 1], b[n - 1];
      assert FirstFree(a[..n - 1], p) && FirstFree(b[..n - 1], q);
      assert !Earlier(p.col, p.row, q) && !Earlier(q.col, q.row, p);
      assert a[..n] == a[..n - 1] + [p] && b[..n] == b[..n - 1] + [q];
    }
  }
}
