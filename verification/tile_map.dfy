/**
  Wall queries of the chase game against its static character grid, as the three
  revisions of the engine implement them, and the marker lookup that finds spawn
  cells.

  A map is a sequence of text lines; the character '#' is a wall. World coordinates
  are reals; the cell in column c and world row r covers the square
  [c * tile, c * tile + tile) x [r * tile, r * tile + tile).

  Both wall queries inspect only a 3 x 3 window of cells, taken with two nested
  JavaScript `slice` calls (rows, then characters of each row). `slice` is modelled
  exactly (negative arguments count from the end, arguments are clamped to the
  length), so both queries are total functions.
*/
module TileMap {
  import opened Arith

  const WALL: char := '#'

  /** An axis-aligned box: top-left corner (x, y), width w and height h. */
  datatype Box = Box(x: real, y: real, w: real, h: real)

  /** A grid cell: column x, row y. */
  datatype Cell = Cell(x: int, y: int)

  /** Math.ceil */
  function Ceil(r: real): (c: int)
    ensures r <= c as real < r + 1.0
  {
    -((-r).Floor)
  }

  /** The index that JavaScript's Array.prototype.slice makes of a start or an end
      argument `a` on an array of length n. */
  function SliceIndex(n: nat, a: int): (k: nat)
    ensures k <= n
    ensures 0 <= a <= n ==> k == a
  {
    if a < 0 then (if n + a < 0 then 0 else n + a)
    else if a > n then n
    else a
  }

  /** The box overlaps the square of cell (col, row); every comparison is strict,
      so a box that only touches an edge of the square does not overlap it. */
  predicate Overlaps(b: Box, col: int, row: int, tile: real)
  {
    && b.x + b.w > col as real * tile
    && b.x < col as real * tile + tile
    && b.y + b.h > row as real * tile
    && b.y < row as real * tile + tile
  }

  /** A rectangular map of at least 3 x 3 cells. */
  predicate IsGrid(rows: seq<seq<char>>)
  {
    && |rows| >= 3
    && |rows[0]| >= 3
    && forall r :: 0 <= r < |rows| ==> |rows[r]| == |rows[0]|
  }

  /** The cell (c, r) of `rows` is a wall whose square overlaps the box. */
  predicate WallOverlaps(rows: seq<seq<char>>, tile: real, b: Box, r: int, c: int)
  {
    && 0 <= r < |rows|
    && 0 <= c < |rows[r]|
    && rows[r][c] == WALL
    && Overlaps(b, c, r, tile)
  }

  // ---------------------------------------------------------------------------
  // The window scan shared by both queries
  // ---------------------------------------------------------------------------

  /** The arguments of the two nested slices of a wall query: the rows
      `lines.slice(rowStart, rowEnd)` and, of each of them,
      `row.slice(colStart, colEnd)`. The element at position i of the row slice is
      compared as world row rowOrigin + i, the element at position j of a column slice
      as world column colOrigin + j. */
  datatype Window = Window(rowStart: int, rowEnd: int, rowOrigin: int,
                           colStart: int, colEnd: int, colOrigin: int)

  /** Cell j of line i is among the cells the window scans. */
  predicate InWindow(lines: seq<seq<char>>, win: Window, i: int, j: int)
  {
    && SliceIndex(|lines|, win.rowStart) <= i < SliceIndex(|lines|, win.rowEnd)
    && SliceIndex(|lines[i]|, win.colStart) <= j < SliceIndex(|lines[i]|, win.colEnd)
  }

  /** Cell j of line i is scanned, is a wall, and overlaps the box at the world
      position the scan assigns to it. */
  predicate WindowHit(lines: seq<seq<char>>, win: Window, tile: real, b: Box, i: int, j: int)
  {
    && InWindow(lines, win, i, j)
    && lines[i][j] == WALL
    && Overlaps(b, win.colOrigin + (j - SliceIndex(|lines[i]|, win.colStart)),
                win.rowOrigin + (i - SliceIndex(|lines|, win.rowStart)), tile)
  }

  /** The inner loop: the cells of line i from position j on. */
  function ScanLine(lines: seq<seq<char>>, win: Window, tile: real, b: Box, i: int, j: int): bool
    requires SliceIndex(|lines|, win.rowStart) <= i < SliceIndex(|lines|, win.rowEnd)
    requires SliceIndex(|lines[i]|, win.colStart) <= j
    decreases |lines[i]| - j
  {
    if j >= SliceIndex(|lines[i]|, win.colEnd) then false
    else
      var col := win.colOrigin + (j - SliceIndex(|lines[i]|, win.colStart));
      var row := win.rowOrigin + (i - SliceIndex(|lines|, win.rowStart));
      (lines[i][j] == WALL && Overlaps(b, col, row, tile)) || ScanLine(lines, win, tile, b, i, j + 1)
  }

  /** The inner loop finds exactly the window hits of line i from position j on. */
  lemma {:induction false} ScanLineHit(lines: seq<seq<char>>, win: Window, tile: real, b: Box, i: int, j: int)
    requires SliceIndex(|lines|, win.rowStart) <= i < SliceIndex(|lines|, win.rowEnd)
    requires SliceIndex(|lines[i]|, win.colStart) <= j
    ensures ScanLine(lines, win, tile, b, i, j) <==> exists k :: j <= k && WindowHit(lines, win, tile, b, i, k)
    decreases |lines[i]| - j
  {
    if j < SliceIndex(|lines[i]|, win.colEnd) {
      ScanLineHit(lines, win, tile, b, i, j + 1);
      var col := win.colOrigin + (j - SliceIndex(|lines[i]|, win.colStart));
      var row := win.rowOrigin + (i - SliceIndex(|lines|, win.rowStart));
      assert (lines[i][j] == WALL && Overlaps(b, col, row, tile)) <==> WindowHit(lines, win, tile, b, i, j);
      if k :| j <= k && WindowHit(lines, win, tile, b, i, k) {
        if k != j {
          assert j + 1 <= k;
        }
      }
    }
  }

  /** The outer loop: the lines of the window from line i on. */
  function ScanLines(lines: seq<seq<char>>, win: Window, tile: real, b: Box, i: int): bool
    requires SliceIndex(|lines|, win.rowStart) <= i
    decreases |lines| - i
  {
    if i >= SliceIndex(|lines|, win.rowEnd) then false
    else ScanLine(lines, win, tile, b, i, SliceIndex(|lines[i]|, win.colStart))
         || ScanLines(lines, win, tile, b, i + 1)
  }

  /** The outer loop finds exactly the window hits on line i or later. */
  lemma {:induction false} ScanLinesHit(lines: seq<seq<char>>, win: Window, tile: real, b: Box, i: int)
    requires SliceIndex(|lines|, win.rowStart) <= i
    ensures ScanLines(lines, win, tile, b, i) <==> exists l, k :: i <= l && WindowHit(lines, win, tile, b, l, k)
    decreases |lines| - i
  {
    if i < SliceIndex(|lines|, win.rowEnd) {
      ScanLineHit(lines, win, tile, b, i, SliceIndex(|lines[i]|, win.colStart));
      ScanLinesHit(lines, win, tile, b, i + 1);
      if l, k :| i <= l && WindowHit(lines, win, tile, b, l, k) {
        if l != i {
          assert i + 1 <= l;
        } else {
          assert SliceIndex(|lines[i]|, win.colStart) <= k;
        }
      }
    }
  }

  /** Some wall cell scanned by the window overlaps the box. */
  function Scan(lines: seq<seq<char>>, win: Window, tile: real, b: Box): bool
  {
    ScanLines(lines, win, tile, b, SliceIndex(|lines|, win.rowStart))
  }

  /** The scan finds a wall exactly when the window has a hit. */
  lemma ScanHit(lines: seq<seq<char>>, win: Window, tile: real, b: Box)
    ensures Scan(lines, win, tile, b) <==> exists l, k :: WindowHit(lines, win, tile, b, l, k)
  {
    ScanLinesHit(lines, win, tile, b, SliceIndex(|lines|, win.rowStart));
  }

  // ---------------------------------------------------------------------------
  // The clamped query (Map.collisionWith in pcm, collisionWithMap in pacman)
  // ---------------------------------------------------------------------------

  /** The window centre along one axis: lifted to 1 when it would start before the
      map, then lowered to n - 2 when it would end after it. */
  function ClampCentre(c: int, n: int): (r: int)
    ensures n >= 3 ==> 1 <= r <= n - 2
    ensures 1 <= c <= n - 2 ==> r == c
  {
    var lifted := if c - 1 < 0 then 1 else c;
    if lifted + 1 + 1 > n then n - 1 - 1 else lifted
  }

  /** Column of the window centre of the clamped query. */
  function CentreCol(rows: seq<seq<char>>, tile: real, b: Box): int
    requires tile > 0.0 && |rows| > 0
  {
    ClampCentre(Ceil(b.x / tile), |rows[0]|)
  }

  /** Row of the window centre of the clamped query. */
  function CentreRow(rows: seq<seq<char>>, tile: real, b: Box): int
    requires tile > 0.0
  {
    ClampCentre(Ceil(b.y / tile), |rows|)
  }

  function ClampedWindow(rows: seq<seq<char>>, tile: real, b: Box): Window
    requires tile > 0.0 && |rows| > 0
  {
    var onCol := CentreCol(rows, tile, b);
    var onRow := CentreRow(rows, tile, b);
    Window(onRow - 1, onRow + 1 + 1, onRow - 1, onCol - 1, onCol + 1 + 1, onCol - 1)
  }

  /** Cell (c, r) lies among the 3 x 3 cells around the clamped centre. */
  predicate NearCentre(rows: seq<seq<char>>, tile: real, b: Box, r: int, c: int)
    requires tile > 0.0 && |rows| > 0
  {
    && CentreRow(rows, tile, b) - 1 <= r <= CentreRow(rows, tile, b) + 1
    && CentreCol(rows, tile, b) - 1 <= c <= CentreCol(rows, tile, b) + 1
  }

  /** On a grid, the clamped window scans exactly the cells around the clamped
      centre, each at its own world position. */
  lemma ClampedWindowHit(rows: seq<seq<char>>, tile: real, b: Box, r: int, c: int)
    requires tile > 0.0 && IsGrid(rows)
    ensures WindowHit(rows, ClampedWindow(rows, tile, b), tile, b, r, c)
        <==> NearCentre(rows, tile, b, r, c) && WallOverlaps(rows, tile, b, r, c)
  {
    var win := ClampedWindow(rows, tile, b);
    assert SliceIndex(|rows|, win.rowStart) == CentreRow(rows, tile, b) - 1;
    assert SliceIndex(|rows|, win.rowEnd) == CentreRow(rows, tile, b) + 2;
    if 0 <= r < |rows| {
      assert |rows[r]| == |rows[0]|;
      assert SliceIndex(|rows[r]|, win.colStart) == CentreCol(rows, tile, b) - 1;
      assert SliceIndex(|rows[r]|, win.colEnd) == CentreCol(rows, tile, b) + 2;
    }
  }

  /** The wall query of pcm and pacman: the 3 x 3 window around the clamped
      centre. */
  function CollisionWith(rows: seq<seq<char>>, tile: real, b: Box): bool
    requires tile > 0.0 && |rows| > 0
  {
    Scan(rows, ClampedWindow(rows, tile, b), tile, b)
  }

  /** On a grid, the clamped query is true exactly when some wall among the 3 x 3
      cells around the clamped centre overlaps the box. */
  lemma CollisionWithNearCentre(rows: seq<seq<char>>, tile: real, b: Box)
    requires tile > 0.0 && IsGrid(rows)
    ensures CollisionWith(rows, tile, b) <==> exists r, c :: NearCentre(rows, tile, b, r, c) && WallOverlaps(rows, tile, b, r, c)
  {
    var win := ClampedWindow(rows, tile, b);
    ScanHit(rows, win, tile, b);
    forall r, c
      ensures WindowHit(rows, win, tile, b, r, c)
          <==> NearCentre(rows, tile, b, r, c) && WallOverlaps(rows, tile, b, r, c)
    {
      ClampedWindowHit(rows, tile, b, r, c);
    }
  }

  /** A column (or row) whose square overlaps a segment [p, p + len) with len at
      most two tiles lies within one cell of ceil(p / tile). */
  lemma OverlapNearCeil(p: real, len: real, c: int, tile: real)
    requires tile > 0.0 && len <= 2.0 * tile
    requires p + len > c as real * tile && p < c as real * tile + tile
    ensures Ceil(p / tile) - 1 <= c <= Ceil(p / tile) + 1
  {
    DivBelow(p, c as real + 1.0, tile);
    DivAbove(p, c as real - 2.0, tile);
  }

  /** The local search is exact: for boxes at most two tiles wide and high, the
      clamped query finds a wall exactly when some wall cell anywhere in the map
      overlaps the box. */
  lemma {:induction false} CollisionWithIsExact(rows: seq<seq<char>>, tile: real, b: Box)
    requires tile > 0.0 && IsGrid(rows)
    requires b.w <= 2.0 * tile && b.h <= 2.0 * tile
    ensures CollisionWith(rows, tile, b) <==> exists r, c :: WallOverlaps(rows, tile, b, r, c)
  {
    CollisionWithNearCentre(rows, tile, b);
    if r, c :| WallOverlaps(rows, tile, b, r, c) {
      OverlapNearCeil(b.x, b.w, c, tile);
      OverlapNearCeil(b.y, b.h, r, tile);
      assert |rows[r]| == |rows[0]|;
      assert NearCentre(rows, tile, b, r, c);
    }
  }

  // ---------------------------------------------------------------------------
  // The query of the first revision (main.js): unclamped, over the lines of the
  // pattern including the blank line 0, so that line l is world row l - 1
  // ---------------------------------------------------------------------------

  function ShiftedWindow(tile: real, b: Box): Window
    requires tile > 0.0
  {
    var onCol := Ceil(b.x / tile);
    var onRow := (b.y / tile).Floor;
    Window(onRow, onRow + 3, onRow - 1, onCol - 1, onCol + 2, onCol - 1)
  }

  /** The lines of a map pattern: a blank line, then the rows of a grid. */
  predicate IsPattern(lines: seq<seq<char>>)
  {
    |lines| >= 1 && lines[0] == [] && IsGrid(lines[1..])
  }

  /** Line l, column c is a wall among lines floor(y / tile) .. floor(y / tile) + 2
      and columns ceil(x / tile) - 1 .. ceil(x / tile) + 1, and its square, placed
      at world row l - 1, overlaps the box. */
  predicate ShiftedHit(lines: seq<seq<char>>, tile: real, b: Box, l: int, c: int)
    requires tile > 0.0
  {
    && (b.y / tile).Floor <= l <= (b.y / tile).Floor + 2
    && Ceil(b.x / tile) - 1 <= c <= Ceil(b.x / tile) + 1
    && 0 <= l < |lines| && 0 <= c < |lines[l]|
    && lines[l][c] == WALL && Overlaps(b, c, l - 1, tile)
  }

  /** When no slice argument is negative, main.js's window scans exactly the cells
      of ShiftedHit. */
  lemma ShiftedWindowHit(lines: seq<seq<char>>, tile: real, b: Box, l: int, c: int)
    requires tile > 0.0 && b.x > 0.0 && b.y >= 0.0
    ensures WindowHit(lines, ShiftedWindow(tile, b), tile, b, l, c) <==> ShiftedHit(lines, tile, b, l, c)
  {
    var onCol := Ceil(b.x / tile);
    var onRow := (b.y / tile).Floor;
    DivAbove(b.x, 0.0, tile);
    assert onCol >= 1;
    assert b.y / tile >= 0.0 by {
      if b.y / tile < 0.0 {
        DivBelow(b.y, 0.0, tile);
        DivAbove(b.y, 0.0, tile);
      }
    }
    assert onRow >= 0;
  }

  /** The wall query of main.js: the unclamped window over the pattern lines. */
  function CollisionWithLines(lines: seq<seq<char>>, tile: real, b: Box): bool
    requires tile > 0.0
  {
    Scan(lines, ShiftedWindow(tile, b), tile, b)
  }

  /** Whenever the box starts right of column 0 and not above row 0 (so no slice
      argument is negative), main.js's query is true exactly when some wall on lines
      floor(y / tile) .. floor(y / tile) + 2 and in columns ceil(x / tile) - 1 ..
      ceil(x / tile) + 1 overlaps the box, line l being placed at world row l - 1. */
  lemma CollisionWithLinesShifted(lines: seq<seq<char>>, tile: real, b: Box)
    requires tile > 0.0 && b.x > 0.0 && b.y >= 0.0
    ensures CollisionWithLines(lines, tile, b) <==> exists l, c :: ShiftedHit(lines, tile, b, l, c)
  {
    var win := ShiftedWindow(tile, b);
    ScanHit(lines, win, tile, b);
    forall l, c
      ensures WindowHit(lines, win, tile, b, l, c) <==> ShiftedHit(lines, tile, b, l, c)
    {
      ShiftedWindowHit(lines, tile, b, l, c);
    }
  }

  /** main.js's query is exact for boxes that start right of column 0, not above
      row 0, and are at most two tiles wide and one tile high (every box the game
      builds is): it finds a wall exactly when some wall cell of the map overlaps
      the box. */
  lemma {:induction false} CollisionWithLinesIsExact(lines: seq<seq<char>>, tile: real, b: Box)
    requires tile > 0.0 && IsPattern(lines)
    requires b.x > 0.0 && b.y >= 0.0 && b.w <= 2.0 * tile && b.h <= tile
    ensures CollisionWithLines(lines, tile, b) <==> exists r, c :: WallOverlaps(lines[1..], tile, b, r, c)
  {
    CollisionWithLinesShifted(lines, tile, b);
    if r, c :| WallOverlaps(lines[1..], tile, b, r, c) {
      WallIsShiftedHit(lines, tile, b, r, c);
    }
    if l, c :| ShiftedHit(lines, tile, b, l, c) {
      assert l >= 1 && WallOverlaps(lines[1..], tile, b, l - 1, c);
    }
  }

  /** A wall of row r that overlaps such a box is one of the cells main.js's
      window scans, on line r + 1. */
  lemma WallIsShiftedHit(lines: seq<seq<char>>, tile: real, b: Box, r: int, c: int)
    requires tile > 0.0 && IsPattern(lines)
    requires b.w <= 2.0 * tile && b.h <= tile
    requires WallOverlaps(lines[1..], tile, b, r, c)
    ensures ShiftedHit(lines, tile, b, r + 1, c)
  {
    var rows := lines[1..];
    OverlapNearCeil(b.x, b.w, c, tile);
    assert (r as real - 1.0) * tile == r as real * tile - tile;
    assert (r as real + 1.0) * tile == r as real * tile + tile;
    DivAbove(b.y, r as real - 1.0, tile);
    DivBelow(b.y, r as real + 1.0, tile);
    assert lines[r + 1] == rows[r];
  }

  /** Where main.js's window stays inside the map, its query agrees with the clamped
      query of the later revisions on the same rows. */
  lemma QueriesAgree(lines: seq<seq<char>>, tile: real, b: Box)
    requires tile > 0.0 && IsPattern(lines)
    requires b.x > 0.0 && b.y >= 0.0 && b.w <= 2.0 * tile && b.h <= tile
    ensures CollisionWithLines(lines, tile, b) == CollisionWith(lines[1..], tile, b)
  {
    CollisionWithLinesIsExact(lines, tile, b);
    CollisionWithIsExact(lines[1..], tile, b);
  }

  // ---------------------------------------------------------------------------
  // Marker lookup (coordinatesFor / coordinatesOnMap)
  // ---------------------------------------------------------------------------

  /** Row-major order: p comes before q. */
  predicate Before(p: Cell, q: Cell)
  {
    p.y < q.y || (p.y == q.y && p.x < q.x)
  }

  /** Cells of one line equal to ch, from position k on, reported in row y. */
  function CoordinatesInLine(line: seq<char>, ch: char, y: int, k: nat): seq<Cell>
    decreases |line| - k
  {
    if k >= |line| then []
    else
      var rest := CoordinatesInLine(line, ch, y, k + 1);
      if line[k] == ch then [Cell(k, y)] + rest else rest
  }

  /** The cells of one line are exactly those holding ch from position k on, from
      left to right. */
  lemma {:induction false} CoordinatesInLineSpec(line: seq<char>, ch: char, y: int, k: nat)
    ensures var out := CoordinatesInLine(line, ch, y, k);
      && (forall p :: p in out <==> p.y == y && k <= p.x < |line| && line[p.x] == ch)
      && (forall i, j :: 0 <= i < j < |out| ==> out[i].x < out[j].x)
    decreases |line| - k
  {
    if k < |line| {
      CoordinatesInLineSpec(line, ch, y, k + 1);
      var rest := CoordinatesInLine(line, ch, y, k + 1);
      if line[k] == ch {
        var out := [Cell(k, y)] + rest;
        assert forall p :: p in out <==> p == Cell(k, y) || p in rest;
        forall i, j | 0 <= i < j < |out|
          ensures out[i].x < out[j].x
        {
          assert out[j] == rest[j - 1] && rest[j - 1] in rest;
          if i > 0 {
            assert out[i] == rest[i - 1];
          }
        }
      }
    }
  }

  /** Cells of lines[l..] equal to ch; line i is reported as row i - shift. */
  function CoordinatesFrom(lines: seq<seq<char>>, ch: char, shift: int, l: nat): seq<Cell>
    decreases |lines| - l
  {
    if l >= |lines| then []
    else CoordinatesInLine(lines[l], ch, l - shift, 0) + CoordinatesFrom(lines, ch, shift, l + 1)
  }

  /** The cells of lines[l..] are exactly those marked ch there, in row-major
      order. */
  lemma {:induction false} CoordinatesFromSpec(lines: seq<seq<char>>, ch: char, shift: int, l: nat)
    ensures var out := CoordinatesFrom(lines, ch, shift, l);
      && (forall p :: p in out <==>
            l <= p.y + shift < |lines| && 0 <= p.x < |lines[p.y + shift]| && lines[p.y + shift][p.x] == ch)
      && (forall i, j :: 0 <= i < j < |out| ==> Before(out[i], out[j]))
    decreases |lines| - l
  {
    if l < |lines| {
      var here := CoordinatesInLine(lines[l], ch, l - shift, 0);
      var rest := CoordinatesFrom(lines, ch, shift, l + 1);
      CoordinatesInLineSpec(lines[l], ch, l - shift, 0);
      CoordinatesFromSpec(lines, ch, shift, l + 1);
      assert forall p :: p in here ==> p.y == l - shift;
      assert forall p :: p in rest ==> p.y > l - shift;
      assert forall i :: 0 <= i < |here| ==> here[i] in here;
      assert forall i :: 0 <= i < |rest| ==> rest[i] in rest;
    }
  }

  /** All cells equal to ch, in row-major order, line l reported as row l - shift
      (shift 0 for the later revisions, which drop the blank first line; 1 for
      main.js, which keeps it). */
  function Coordinates(lines: seq<seq<char>>, ch: char, shift: int): seq<Cell>
  {
    CoordinatesFrom(lines, ch, shift, 0)
  }

  /** coordinatesFor lists exactly the cells marked ch, in row-major order. */
  lemma CoordinatesSpec(lines: seq<seq<char>>, ch: char, shift: int)
    ensures var out := Coordinates(lines, ch, shift);
      && (forall c :: c in out <==> Marked(lines, ch, shift, c))
      && (forall i, j :: 0 <= i < j < |out| ==> Before(out[i], out[j]))
  {
    CoordinatesFromSpec(lines, ch, shift, 0);
  }

  /** The map holds at least one cell marked ch. */
  predicate HasMarker(lines: seq<seq<char>>, ch: char, shift: int)
  {
    |Coordinates(lines, ch, shift)| > 0
  }

  /** Cell c is marked ch; line c.y + shift holds row c.y. */
  predicate Marked(lines: seq<seq<char>>, ch: char, shift: int, c: Cell)
  {
    0 <= c.y + shift < |lines| && 0 <= c.x < |lines[c.y + shift]| && lines[c.y + shift][c.x] == ch
  }

  /** The cell of coordinatesFor(ch)[0]. */
  function FirstMarker(lines: seq<seq<char>>, ch: char, shift: int): Cell
    requires HasMarker(lines, ch, shift)
  {
    Coordinates(lines, ch, shift)[0]
  }

  /** The first marker is a cell marked ch that comes before every other cell
      marked ch in row-major order. */
  lemma FirstMarkerIsFirst(lines: seq<seq<char>>, ch: char, shift: int)
    requires HasMarker(lines, ch, shift)
    ensures Marked(lines, ch, shift, FirstMarker(lines, ch, shift))
    ensures forall q: Cell ::
      Marked(lines, ch, shift, q) && q != FirstMarker(lines, ch, shift) ==> Before(FirstMarker(lines, ch, shift), q)
  {
    var cs := Coordinates(lines, ch, shift);
    CoordinatesSpec(lines, ch, shift);
    assert cs[0] in cs;
    forall q: Cell | Marked(lines, ch, shift, q) && q != cs[0]
      ensures Before(cs[0], q)
    {
      assert q in cs;
      var i :| 0 <= i < |cs| && cs[i] == q;
      assert i != 0;
    }
  }

  // ---------------------------------------------------------------------------
  // The wall query an engine revision uses
  // ---------------------------------------------------------------------------

  /** The map and tile size of one revision, with the wall query it uses. */
  datatype Arena = Clamped(lines: seq<seq<char>>, tile: real) | Shifted(lines: seq<seq<char>>, tile: real)
  {
    predicate Valid()
    {
      tile > 0.0 && (Clamped? ==> |lines| > 0)
    }

    function Collides(b: Box): bool
      requires Valid()
    {
      if Clamped? then CollisionWith(lines, tile, b) else CollisionWithLines(lines, tile, b)
    }

    /** The wall query as a function value. */
    function Walls(): Box -> bool
      requires Valid()
    {
      (b: Box) => Collides(b)
    }
  }
}
