/**
  A sparse, unbounded two-dimensional canvas of characters keyed by
  (row, column) pairs of 64-bit signed integers. The canvas keeps the
  bounding box of its occupied cells in four extrema fields and renders
  that box as a block of text, one line per row.
 */
module Canvas {

  /** The source's `i64`: the coordinates a caller can pass in. */
  type I64 = x: int | -0x8000_0000_0000_0000 <= x <= 0x7FFF_FFFF_FFFF_FFFF

  const I64Min: I64 := -0x8000_0000_0000_0000
  const I64Max: I64 := 0x7FFF_FFFF_FFFF_FFFF

  /** A coordinate: (row, column). */
  type Point = (int, int)

  datatype Option<T> = None | Some(value: T)

  /** Rendering configuration. */
  datatype Options = Options(bottomOriented: bool, filler: char)

  /** What `Options::default()` yields: `false` and the NUL character. */
  const DefaultOptions := Options(false, '\0')

  datatype Axis = Row | Col

  function Coord(p: Point, axis: Axis): int
  {
    match axis
    case Row => p.0
    case Col => p.1
  }

  function Min(a: int, b: int): int { if a <= b then a else b }
  function Max(a: int, b: int): int { if a <= b then b else a }

  /** `v` is the largest coordinate on `axis` among `keys`, and some key attains it. */
  ghost predicate IsMax(keys: set<Point>, axis: Axis, v: int)
  {
    && (forall k :: k in keys ==> Coord(k, axis) <= v)
    && (exists k :: k in keys && Coord(k, axis) == v)
  }

  /** `v` is the smallest coordinate on `axis` among `keys`, and some key attains it. */
  ghost predicate IsMin(keys: set<Point>, axis: Axis, v: int)
  {
    && (forall k :: k in keys ==> v <= Coord(k, axis))
    && (exists k :: k in keys && Coord(k, axis) == v)
  }

  /**
    The four extrema describe `keys`: the tight bounding box when there is a
    key, and the sentinel (minima at the top of the `i64` range, maxima at
    the bottom) when there is none.
   */
  ghost predicate TightBox(keys: set<Point>, minRow: int, maxRow: int, minCol: int, maxCol: int)
  {
    if keys == {} then
      minRow == I64Max && maxRow == I64Min && minCol == I64Max && maxCol == I64Min
    else
      && IsMin(keys, Row, minRow) && IsMax(keys, Row, maxRow)
      && IsMin(keys, Col, minCol) && IsMax(keys, Col, maxCol)
  }

  /**
    `keys.map(axis).max().unwrap_or(i64::MIN)`: the largest coordinate on
    `axis`, or the bottom of the `i64` range when there is no key.
   */
  method MaxCoord(keys: set<Point>, axis: Axis) returns (r: int)
    ensures keys == {} ==> r == I64Min
    ensures keys != {} ==> IsMax(keys, axis, r)
  {
    var best: Option<int> := None;
    var rest := keys;
    while rest != {}
      invariant rest <= keys
      invariant best.None? <==> rest == keys
      invariant best.Some? ==> IsMax(keys - rest, axis, best.value)
      decreases rest
    {
      var k :| k in rest;
      var v := Coord(k, axis);
      if best.None? || best.value <= v {
        best := Some(v);
      }
      rest := rest - {k};
      assert k in keys - rest;
    }
    r := if best.Some? then best.value else I64Min;
  }

  /**
    `keys.map(axis).min().unwrap_or(i64::MAX)`: the smallest coordinate on
    `axis`, or the top of the `i64` range when there is no key.
   */
  method MinCoord(keys: set<Point>, axis: Axis) returns (r: int)
    ensures keys == {} ==> r == I64Max
    ensures keys != {} ==> IsMin(keys, axis, r)
  {
    var best: Option<int> := None;
    var rest := keys;
    while rest != {}
      invariant rest <= keys
      invariant best.None? <==> rest == keys
      invariant best.Some? ==> IsMin(keys - rest, axis, best.value)
      decreases rest
    {
      var k :| k in rest;
      var v := Coord(k, axis);
      if best.None? || v < best.value {
        best := Some(v);
      }
      rest := rest - {k};
      assert k in keys - rest;
    }
    r := if best.Some? then best.value else I64Max;
  }

  class DebugCanvas {
    var points: map<Point, char>
    var minRow: int
    var maxRow: int
    var minCol: int
    var maxCol: int
    /** Fixed when the canvas is built; `clear` rebuilds it with the same options. */
    const options: Options

    /** The object invariant: the extrema are the tight box of the occupied cells. */
    ghost predicate Valid()
      reads this
    {
      TightBox(points.Keys, minRow, maxRow, minCol, maxCol)
    }

    /**
      The extrema do not cross while a cell is occupied, so the size is never
      negative. `Valid()` implies it.
     */
    predicate Ordered()
      reads this
    {
      IsEmpty() || (minRow <= maxRow && minCol <= maxCol)
    }

    /** `is_empty`: no cell is occupied, that is the map has no entry. */
    predicate IsEmpty()
      reads this
      ensures IsEmpty() <==> |points| == 0
    {
      points == map[]
    }

    /** `new`: an empty canvas with the default options. */
    constructor ()
      ensures Valid() && IsEmpty() && options == DefaultOptions
      ensures minRow == I64Max && maxRow == I64Min && minCol == I64Max && maxCol == I64Min
      ensures Size() == (0, 0)
    {
      options := DefaultOptions;
      points := map[];
      minRow, maxRow := I64Max, I64Min;
      minCol, maxCol := I64Max, I64Min;
    }

    /** `with_options`: an empty canvas with the given options. */
    constructor WithOptions(options: Options)
      ensures Valid() && IsEmpty() && this.options == options
      ensures minRow == I64Max && maxRow == I64Min && minCol == I64Max && maxCol == I64Min
      ensures Size() == (0, 0)
    {
      this.options := options;
      points := map[];
      minRow, maxRow := I64Max, I64Min;
      minCol, maxCol := I64Max, I64Min;
    }

    /**
      `size`: (rows, columns) of the bounding box, both edges included, or
      (0, 0) for an empty canvas.
     */
    function Size(): (r: (nat, nat))
      reads this
      requires Ordered()
      ensures r == (0, 0) <==> IsEmpty()
      ensures !IsEmpty() ==> r.0 >= 1 && r.1 >= 1
    {
      if IsEmpty() then (0, 0)
      else (maxRow - minRow + 1, maxCol - minCol + 1)
    }

    /**
      The size is the tight bounding box: every occupied cell lies inside the
      `Size().0` by `Size().1` box whose corner is (minRow, minCol), and each of
      the box's four edges holds an occupied cell.
     */
    lemma SizeIsTightBox()
      requires Valid() && !IsEmpty()
      ensures forall p :: p in points ==>
                minRow <= p.0 < minRow + Size().0 && minCol <= p.1 < minCol + Size().1
      ensures exists p :: p in points && p.0 == minRow
      ensures exists p :: p in points && p.0 == minRow + Size().0 - 1
      ensures exists p :: p in points && p.1 == minCol
      ensures exists p :: p in points && p.1 == minCol + Size().1 - 1
    {
      forall p | p in points
        ensures minRow <= p.0 < minRow + Size().0 && minCol <= p.1 < minCol + Size().1
      {
        assert p in points.Keys;
      }
    }

    /** `index`: the stored character, or the filler for an unoccupied cell. */
    function Get(row: int, col: int): (c: char)
      reads this
      ensures (row, col) in points ==> c == points[(row, col)]
      ensures (row, col) !in points ==> c == options.filler
    {
      if (row, col) in points then points[(row, col)] else options.filler
    }

    /**
      `index_mut` before the caller assigns: widens each extremum to take in
      (row, col) and, when the cell is unoccupied, stores a space there.
     */
    method Touch(row: I64, col: I64)
      requires Valid()
      modifies this
      ensures Valid()
      ensures minRow == Min(old(minRow), row) && maxRow == Max(old(maxRow), row)
      ensures minCol == Min(old(minCol), col) && maxCol == Max(old(maxCol), col)
      ensures (row, col) in old(points) ==> points == old(points)
      ensures (row, col) !in old(points) ==> points == old(points)[(row, col) := ' ']
    {
      var p := (row, col);
      ghost var keys := points.Keys;
      TouchKeepsBox(keys, row, col, minRow, maxRow, minCol, maxCol);
      var points' := if p in points then points else points[p := ' '];
      assert points'.Keys == keys + {p};
      maxCol, minCol, maxRow, minRow, points :=
        Max(maxCol, col), Min(minCol, col), Max(maxRow, row), Min(minRow, row), points';
    }

    /** `canvas[(row, col)] = c`: touch the cell, then overwrite it. */
    method Set(row: I64, col: I64, c: char)
      requires Valid()
      modifies this
      ensures Valid()
      ensures minRow == Min(old(minRow), row) && maxRow == Max(old(maxRow), row)
      ensures minCol == Min(old(minCol), col) && maxCol == Max(old(maxCol), col)
      ensures points == old(points)[(row, col) := c]
      ensures Get(row, col) == c
    {
      Touch(row, col);
      ghost var touched := points;
      points := points[(row, col) := c];
      assert points == old(points)[(row, col) := c] by {
        assert touched == old(points) || touched == old(points)[(row, col) := ' '];
      }
      assert points.Keys == touched.Keys;
    }

    /**
      `remove`: deletes one cell (if present) and recomputes the extrema from
      the remaining cells, falling back to the sentinel when none remain.
     */
    method Remove(row: I64, col: I64)
      requires Valid()
      modifies this
      ensures Valid()
      ensures points == old(points) - {(row, col)}
      ensures Get(row, col) == options.filler
      ensures points != map[] ==>
                old(minRow) <= minRow && maxRow <= old(maxRow) &&
                old(minCol) <= minCol && maxCol <= old(maxCol)
      ensures (row, col) !in old(points) ==>
                minRow == old(minRow) && maxRow == old(maxRow) &&
                minCol == old(minCol) && maxCol == old(maxCol)
    {
      var points' := points - {(row, col)};
      var maxCol' := MaxCoord(points'.Keys, Col);
      var minCol' := MinCoord(points'.Keys, Col);
      var maxRow' := MaxCoord(points'.Keys, Row);
      var minRow' := MinCoord(points'.Keys, Row);
      assert points'.Keys == points.Keys - {(row, col)};
      RemoveNarrowsBox(points.Keys, row, col, minRow, maxRow, minCol, maxCol,
        minRow', maxRow', minCol', maxCol');
      points, maxCol, minCol, maxRow, minRow := points', maxCol', minCol', maxRow', minRow';
    }

    /** `clear`: back to an empty canvas with the same options. */
    method Clear()
      requires Valid()
      modifies this
      ensures Valid() && IsEmpty()
      ensures minRow == I64Max && maxRow == I64Min && minCol == I64Max && maxCol == I64Min
      ensures Size() == (0, 0)
    {
      points := map[];
      minRow, maxRow := I64Max, I64Min;
      minCol, maxCol := I64Max, I64Min;
    }

    /** The row shown on line `i` of the rendering. */
    function LineRow(i: int): int
      reads this
    {
      if options.bottomOriented then minRow + i else maxRow - i
    }

    /** The first `j` characters of the line that shows `row`. */
    ghost function Cells(row: int, j: nat): string
      reads this
    {
      if j == 0 then [] else Cells(row, j - 1) + [Get(row, minCol + j - 1)]
    }

    /** The first `i` lines of width `m`, a newline between each two. */
    ghost function Lines(i: nat, m: nat): string
      reads this
    {
      if i == 0 then []
      else Lines(i - 1, m) + (if i > 1 then "\n" else "") + Cells(LineRow(i - 1), m)
    }

    /** The text that `fmt` writes: every line followed by a newline, nothing when empty. */
    ghost function Rendered(): string
      reads this
      requires Ordered()
    {
      if IsEmpty() then [] else Lines(Size().0, Size().1) + "\n"
    }

    /** `fmt`: renders the bounding box line by line with two nested loops. */
    method Fmt() returns (s: string)
      requires Valid()
      ensures s == Rendered()
    {
      s := "";
      if IsEmpty() {
        return;
      }
      var (n, m) := Size();
      var i := 0;
      while i < n
        invariant 0 <= i <= n
        invariant s == Lines(i, m)
      {
        if i > 0 {
          s := s + "\n";
        }
        var j := 0;
        while j < m
          invariant 0 <= j <= m
          invariant s == Lines(i, m) + (if i > 0 then "\n" else "") + Cells(LineRow(i), j)
        {
          var row := if options.bottomOriented then minRow + i else maxRow - i;
          var col := minCol + j;
          s := s + [Get(row, col)];
          j := j + 1;
        }
        i := i + 1;
      }
      s := s + "\n";
    }

    lemma {:induction false} CellsAt(row: int, j: nat, t: int)
      ensures |Cells(row, j)| == j
      ensures 0 <= t < j ==> Cells(row, j)[t] == Get(row, minCol + t)
    {
      if j > 0 {
        CellsAt(row, j - 1, t);
      }
    }

    lemma {:induction false} LinesLength(i: nat, m: nat)
      requires 1 <= i
      ensures |Lines(i, m)| == i * (m + 1) - 1
    {
      CellsAt(LineRow(i - 1), m, 0);
      if i > 1 {
        LinesLength(i - 1, m);
        assert i * (m + 1) == (i - 1) * (m + 1) + m + 1;
      }
    }

    /** Inside the first `i` lines, position `t` of line `a` is a cell or the newline after it. */
    lemma {:induction false} LinesAt(i: nat, m: nat, a: nat, t: nat)
      requires a < i && t <= m
      requires t == m ==> a < i - 1
      ensures a * (m + 1) + t < |Lines(i, m)|
      ensures Lines(i, m)[a * (m + 1) + t] == if t < m then Get(LineRow(a), minCol + t) else '\n'
    {
      LinesLength(i, m);
      CellsAt(LineRow(i - 1), m, t);
      if i > 1 {
        LinesLength(i - 1, m);
        assert i * (m + 1) == (i - 1) * (m + 1) + m + 1;
        if a < i - 1 {
          MulMonotone(a, i - 2, m + 1);
          assert (i - 1) * (m + 1) == (i - 2) * (m + 1) + m + 1;
          if t < m || a < i - 2 {
            LinesAt(i - 1, m, a, t);
          }
        }
      }
    }

    /**
      The layout of the rendering: `n` lines of `m` characters, each followed
      by a newline, where (n, m) is the size. Line `i` shows row `maxRow - i`
      (or `minRow + i` when bottom-oriented) and character `j` of it is the
      read value at column `minCol + j`.
     */
    lemma RenderedAt(i: int, j: int)
      requires Ordered() && !IsEmpty()
      requires 0 <= i < Size().0 && 0 <= j <= Size().1
      ensures |Rendered()| == Size().0 * (Size().1 + 1)
      ensures i * (Size().1 + 1) + j < |Rendered()|
      ensures minRow <= (if options.bottomOriented then minRow + i else maxRow - i) <= maxRow
      ensures Rendered()[i * (Size().1 + 1) + j] ==
                if j < Size().1
                then Get(if options.bottomOriented then minRow + i else maxRow - i, minCol + j)
                else '\n'
    {
      var (n, m) := Size();
      LinesLength(n, m);
      MulMonotone(i, n - 1, m + 1);
      assert n * (m + 1) == (n - 1) * (m + 1) + m + 1;
      if j < m || i < n - 1 {
        LinesAt(n, m, i, j);
      }
    }

    /** The rendering of an empty canvas is empty; otherwise it ends in a newline. */
    lemma RenderedShape()
      requires Ordered()
      ensures IsEmpty() <==> Rendered() == []
      ensures !IsEmpty() ==> Rendered()[|Rendered()| - 1] == '\n'
    {
    }

    /** Every occupied cell shows its character at its place in the rendering. */
    lemma RenderedShowsPoint(row: int, col: int)
      requires Valid() && (row, col) in points
      ensures
        var line := if options.bottomOriented then row - minRow else maxRow - row;
        && 0 <= line < Size().0
        && line * (Size().1 + 1) + (col - minCol) < |Rendered()|
        && Rendered()[line * (Size().1 + 1) + (col - minCol)] == points[(row, col)]
    {
      var line := if options.bottomOriented then row - minRow else maxRow - row;
      RenderedAt(line, col - minCol);
    }

    /** An empty canvas reads as the filler everywhere. */
    lemma EmptyReadsFiller(row: int, col: int)
      requires IsEmpty()
      ensures Get(row, col) == options.filler
    {
    }

    /** Reading outside the bounding box always yields the filler. */
    lemma ReadOutsideBox(row: int, col: int)
      requires Valid()
      requires !(minRow <= row <= maxRow && minCol <= col <= maxCol)
      ensures Get(row, col) == options.filler
    {
    }
  }

  /** Widening the extrema by one point gives the tight box once that point is added. */
  lemma TouchKeepsBox(keys: set<Point>, row: I64, col: I64,
                      minRow: int, maxRow: int, minCol: int, maxCol: int)
    requires TightBox(keys, minRow, maxRow, minCol, maxCol)
    ensures TightBox(keys + {(row, col)},
                     Min(minRow, row), Max(maxRow, row), Min(minCol, col), Max(maxCol, col))
  {
    var p: Point := (row, col);
    assert p in keys + {p} && Coord(p, Row) == row && Coord(p, Col) == col;
  }

  /**
    Removing one point and taking the tight box of what is left only narrows
    the box, and leaves it as it was when the point was absent.
   */
  lemma RemoveNarrowsBox(keys: set<Point>, row: int, col: int,
                         minRow: int, maxRow: int, minCol: int, maxCol: int,
                         minRow': int, maxRow': int, minCol': int, maxCol': int)
    requires TightBox(keys, minRow, maxRow, minCol, maxCol)
    requires TightBox(keys - {(row, col)}, minRow', maxRow', minCol', maxCol')
    ensures keys - {(row, col)} != {} ==>
              minRow <= minRow' && maxRow' <= maxRow && minCol <= minCol' && maxCol' <= maxCol
    ensures (row, col) !in keys ==>
              minRow' == minRow && maxRow' == maxRow && minCol' == minCol && maxCol' == maxCol
  {
    if (row, col) !in keys {
      assert keys - {(row, col)} == keys;
    }
  }

  lemma MulMonotone(a: int, b: int, c: int)
    requires a <= b && 0 <= c
    ensures a * c <= b * c
  {
  }
}
