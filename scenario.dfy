/**
  The sequence of writes and removals exercised by the repository's own
  test, replayed on a canvas whose filler is a space, with the text each
  step renders (every rendered line followed by a newline), and its first
  writes replayed on `new`, whose filler is NUL.
 */
module CanvasScenario {
  import opened Canvas

  const Spaces := Options(false, ' ')

  /** `c` has the options `o` and holds exactly the cells `pts` within the given extrema. */
  ghost predicate Holds(c: DebugCanvas, o: Options, pts: map<Point, char>,
                        minRow: int, maxRow: int, minCol: int, maxCol: int)
    reads c
  {
    && c.options == o && c.points == pts
    && c.minRow == minRow && c.maxRow == maxRow && c.minCol == minCol && c.maxCol == maxCol
  }

  /** The steps of the repository's test, each followed by the text the canvas renders. */
  method BlankCanvasScenario() returns (renders: seq<string>)
    ensures renders == ["", "#\n", ".\n", ".-\n", ".-\n a\n", ".-  \n a b\n", ".-\n a\n", ".-\n a\n"]
  {
    var canvas := new DebugCanvas.WithOptions(Spaces);
    var s0 := canvas.Fmt();
    var s1 := WriteFirst(canvas, Spaces);
    var s2 := Overwrite(canvas, Spaces);
    var s3 := WriteRight(canvas, Spaces);
    var s4 := WriteBelow(canvas, Spaces);
    var s5 := WriteFarRight(canvas);
    var s6 := RemoveFarRight(canvas);
    var s7 := RemoveAbsent(canvas);
    renders := [s0, s1, s2, s3, s4, s5, s6, s7];
  }

  /**
    The first writes of the test on `new`, whose filler is NUL: the code
    renders a final newline, where the test expects none, and NUL in the empty
    cell, where the test expects a space.
   */
  method DefaultCanvasRenders() returns (oneCell: string, twoRows: string)
    ensures oneCell == "#\n" && oneCell != "#"
    ensures twoRows == ".-\n\0a\n" && twoRows != ".-\n a"
  {
    var canvas := new DebugCanvas();
    oneCell := WriteFirst(canvas, DefaultOptions);
    var overwritten := Overwrite(canvas, DefaultOptions);
    var oneRow := WriteRight(canvas, DefaultOptions);
    twoRows := WriteBelow(canvas, DefaultOptions);
  }

  method WriteFirst(c: DebugCanvas, o: Options) returns (s: string)
    requires Holds(c, o, map[], I64Max, I64Min, I64Max, I64Min)
    modifies c
    ensures Holds(c, o, map[(3, 2) := '#'], 3, 3, 2, 2)
    ensures s == "#\n"
  {
    assert c.Valid();
    c.Set(3, 2, '#');
    RendersOneCell(c, '#');
    s := c.Fmt();
  }

  method Overwrite(c: DebugCanvas, o: Options) returns (s: string)
    requires Holds(c, o, map[(3, 2) := '#'], 3, 3, 2, 2)
    modifies c
    ensures Holds(c, o, map[(3, 2) := '.'], 3, 3, 2, 2)
    ensures s == ".\n"
  {
    OneCellValid(c);
    c.Set(3, 2, '.');
    assert c.points == map[(3, 2) := '.'];
    RendersOneCell(c, '.');
    s := c.Fmt();
  }

  method WriteRight(c: DebugCanvas, o: Options) returns (s: string)
    requires Holds(c, o, map[(3, 2) := '.'], 3, 3, 2, 2)
    modifies c
    ensures Holds(c, o, map[(3, 2) := '.', (3, 3) := '-'], 3, 3, 2, 3)
    ensures s == ".-\n"
  {
    OneCellValid(c);
    c.Set(3, 3, '-');
    RendersOneRow(c);
    s := c.Fmt();
  }

  method WriteBelow(c: DebugCanvas, o: Options) returns (s: string)
    requires !o.bottomOriented
    requires Holds(c, o, map[(3, 2) := '.', (3, 3) := '-'], 3, 3, 2, 3)
    modifies c
    ensures Holds(c, o, map[(3, 2) := '.', (3, 3) := '-', (2, 3) := 'a'], 2, 3, 2, 3)
    ensures s == ['.', '-', '\n', o.filler, 'a', '\n']
  {
    OneRowValid(c);
    c.Set(2, 3, 'a');
    RendersTwoRows(c);
    s := c.Fmt();
  }

  method WriteFarRight(c: DebugCanvas) returns (s: string)
    requires Holds(c, Spaces, map[(3, 2) := '.', (3, 3) := '-', (2, 3) := 'a'], 2, 3, 2, 3)
    modifies c
    ensures Holds(c, Spaces, map[(3, 2) := '.', (3, 3) := '-', (2, 3) := 'a', (2, 5) := 'b'], 2, 3, 2, 5)
    ensures s == ".-  \n a b\n"
  {
    TwoRowsValid(c);
    c.Set(2, 5, 'b');
    RendersWideRows(c);
    s := c.Fmt();
  }

  method RemoveFarRight(c: DebugCanvas) returns (s: string)
    requires Holds(c, Spaces, map[(3, 2) := '.', (3, 3) := '-', (2, 3) := 'a', (2, 5) := 'b'], 2, 3, 2, 5)
    modifies c
    ensures Holds(c, Spaces, map[(3, 2) := '.', (3, 3) := '-', (2, 3) := 'a'], 2, 3, 2, 3)
    ensures s == ".-\n a\n"
  {
    WideRowsValid(c);
    c.Remove(2, 5);
    assert c.points == map[(3, 2) := '.', (3, 3) := '-', (2, 3) := 'a'];
    BoxOfThree(c.points.Keys, c.minRow, c.maxRow, c.minCol, c.maxCol);
    RendersTwoRows(c);
    s := c.Fmt();
  }

  method RemoveAbsent(c: DebugCanvas) returns (s: string)
    requires Holds(c, Spaces, map[(3, 2) := '.', (3, 3) := '-', (2, 3) := 'a'], 2, 3, 2, 3)
    modifies c
    ensures Holds(c, Spaces, map[(3, 2) := '.', (3, 3) := '-', (2, 3) := 'a'], 2, 3, 2, 3)
    ensures s == ".-\n a\n"
  {
    TwoRowsValid(c);
    c.Remove(2, 8);
    assert c.points == map[(3, 2) := '.', (3, 3) := '-', (2, 3) := 'a'];
    RendersTwoRows(c);
    s := c.Fmt();
  }

  lemma OneCellValid(c: DebugCanvas)
    requires c.points.Keys == {(3, 2)}
    requires c.minRow == 3 && c.maxRow == 3 && c.minCol == 2 && c.maxCol == 2
    ensures c.Valid()
  {
    var a: Point := (3, 2);
    assert a in c.points.Keys && Coord(a, Row) == 3 && Coord(a, Col) == 2;
  }

  lemma OneRowValid(c: DebugCanvas)
    requires c.points.Keys == {(3, 2), (3, 3)}
    requires c.minRow == 3 && c.maxRow == 3 && c.minCol == 2 && c.maxCol == 3
    ensures c.Valid()
  {
    var a: Point, b: Point := (3, 2), (3, 3);
    assert a in c.points.Keys && Coord(a, Row) == 3 && Coord(a, Col) == 2;
    assert b in c.points.Keys && Coord(b, Col) == 3;
  }

  lemma TwoRowsValid(c: DebugCanvas)
    requires c.points.Keys == {(3, 2), (3, 3), (2, 3)}
    requires c.minRow == 2 && c.maxRow == 3 && c.minCol == 2 && c.maxCol == 3
    ensures c.Valid()
  {
    var a: Point, b: Point := (3, 2), (2, 3);
    assert a in c.points.Keys && Coord(a, Row) == 3 && Coord(a, Col) == 2;
    assert b in c.points.Keys && Coord(b, Row) == 2 && Coord(b, Col) == 3;
  }

  lemma WideRowsValid(c: DebugCanvas)
    requires c.points.Keys == {(3, 2), (3, 3), (2, 3), (2, 5)}
    requires c.minRow == 2 && c.maxRow == 3 && c.minCol == 2 && c.maxCol == 5
    ensures c.Valid()
  {
    var a: Point, b: Point := (3, 2), (2, 5);
    assert a in c.points.Keys && Coord(a, Row) == 3 && Coord(a, Col) == 2;
    assert b in c.points.Keys && Coord(b, Row) == 2 && Coord(b, Col) == 5;
  }

  /** The only tight box of the three cells written in the test. */
  lemma BoxOfThree(keys: set<Point>, minRow: int, maxRow: int, minCol: int, maxCol: int)
    requires keys == {(3, 2), (3, 3), (2, 3)}
    requires TightBox(keys, minRow, maxRow, minCol, maxCol)
    ensures minRow == 2 && maxRow == 3 && minCol == 2 && maxCol == 3
  {
    var a: Point, b: Point, c: Point := (3, 2), (3, 3), (2, 3);
    assert a in keys && b in keys && c in keys;
    assert Coord(a, Row) == 3 && Coord(a, Col) == 2 && Coord(c, Row) == 2 && Coord(c, Col) == 3;
  }

  lemma RendersOneCell(c: DebugCanvas, v: char)
    requires c.points == map[(3, 2) := v]
    requires c.minRow == 3 && c.maxRow == 3 && c.minCol == 2 && c.maxCol == 2
    ensures c.Ordered() && c.Rendered() == [v, '\n']
  {
    assert (3, 2) in c.points;
    assert c.Size() == (1, 1);
    assert c.Cells(3, 1) == [c.Get(3, 2)];
    assert c.Lines(1, 1) == c.Cells(3, 1);
  }

  lemma RendersOneRow(c: DebugCanvas)
    requires c.points == map[(3, 2) := '.', (3, 3) := '-']
    requires c.minRow == 3 && c.maxRow == 3 && c.minCol == 2 && c.maxCol == 3
    ensures c.Ordered() && c.Rendered() == ".-\n"
  {
    assert (3, 2) in c.points;
    assert c.Size() == (1, 2);
    assert c.Cells(3, 1) == [c.Get(3, 2)];
    assert c.Cells(3, 2) == [c.Get(3, 2), c.Get(3, 3)];
    assert c.Lines(1, 2) == c.Cells(3, 2);
  }

  /** Two rows, top row first; the empty cell (2, 2) shows the filler. */
  lemma RendersTwoRows(c: DebugCanvas)
    requires !c.options.bottomOriented
    requires c.points == map[(3, 2) := '.', (3, 3) := '-', (2, 3) := 'a']
    requires c.minRow == 2 && c.maxRow == 3 && c.minCol == 2 && c.maxCol == 3
    ensures c.Ordered() && c.Rendered() == ['.', '-', '\n', c.options.filler, 'a', '\n']
  {
    assert (3, 2) in c.points;
    assert c.Size() == (2, 2);
    assert c.Get(2, 2) == c.options.filler;
    assert c.Cells(3, 1) == [c.Get(3, 2)];
    assert c.Cells(3, 2) == [c.Get(3, 2), c.Get(3, 3)];
    assert c.Cells(2, 1) == [c.Get(2, 2)];
    assert c.Cells(2, 2) == [c.Get(2, 2), c.Get(2, 3)];
    assert c.Lines(1, 2) == c.Cells(3, 2);
    assert c.Lines(2, 2) == c.Cells(3, 2) + "\n" + c.Cells(2, 2);
  }

  lemma RendersWideRows(c: DebugCanvas)
    requires c.options == Spaces
    requires c.points == map[(3, 2) := '.', (3, 3) := '-', (2, 3) := 'a', (2, 5) := 'b']
    requires c.minRow == 2 && c.maxRow == 3 && c.minCol == 2 && c.maxCol == 5
    ensures c.Ordered() && c.Rendered() == ".-  \n a b\n"
  {
    assert (3, 2) in c.points;
    assert c.Size() == (2, 4);
    WideTopLine(c);
    WideBottomLine(c);
    assert c.Lines(1, 4) == c.Cells(3, 4);
    assert c.Lines(2, 4) == c.Cells(3, 4) + "\n" + c.Cells(2, 4);
  }

  lemma WideTopLine(c: DebugCanvas)
    requires c.options == Spaces
    requires c.points == map[(3, 2) := '.', (3, 3) := '-', (2, 3) := 'a', (2, 5) := 'b']
    requires c.minCol == 2
    ensures c.Cells(3, 4) == ".-  "
  {
    assert c.Get(3, 2) == '.' && c.Get(3, 3) == '-' && c.Get(3, 4) == ' ' && c.Get(3, 5) == ' ';
    assert c.Cells(3, 1) == [c.Get(3, 2)];
    assert c.Cells(3, 2) == [c.Get(3, 2), c.Get(3, 3)];
    assert c.Cells(3, 3) == [c.Get(3, 2), c.Get(3, 3), c.Get(3, 4)];
    assert c.Cells(3, 4) == [c.Get(3, 2), c.Get(3, 3), c.Get(3, 4), c.Get(3, 5)];
  }

  lemma WideBottomLine(c: DebugCanvas)
    requires c.options == Spaces
    requires c.points == map[(3, 2) := '.', (3, 3) := '-', (2, 3) := 'a', (2, 5) := 'b']
    requires c.minCol == 2
    ensures c.Cells(2, 4) == " a b"
  {
    assert c.Get(2, 2) == ' ' && c.Get(2, 3) == 'a' && c.Get(2, 4) == ' ' && c.Get(2, 5) == 'b';
    assert c.Cells(2, 1) == [c.Get(2, 2)];
    assert c.Cells(2, 2) == [c.Get(2, 2), c.Get(2, 3)];
    assert c.Cells(2, 3) == [c.Get(2, 2), c.Get(2, 3), c.Get(2, 4)];
    assert c.Cells(2, 4) == [c.Get(2, 2), c.Get(2, 3), c.Get(2, 4), c.Get(2, 5)];
  }
}
