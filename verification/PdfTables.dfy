/**
 * Rebuilding a PDF page's text with its tables (pdf-tables.ts): lines are grouped
 * into rows, runs of rows with matching columns become tables. A cell's text is
 * kept as the lines it was put together from.
 */
module PdfTables {
  import opened JsText
  import Seqs

  datatype Line = Line(text: string, x: int, y: int)

  datatype Cell = Cell(x: int, parts: seq<Line>)

  datatype Band = Band(y: int, cells: seq<Cell>, continued: bool)

  datatype Item = Plain(cell: Cell) | LoneRow(cells: seq<Cell>) | Table(rows: seq<Band>)

  const ROW_Y_TOLERANCE := 2
  const COLUMN_X_TOLERANCE := 10
  const MAX_CONTINUATION_GAP := 25

  function Abs(v: int): int {
    if v < 0 then -v else v
  }

  // ------------------------------------------------------------------ how often a line occurs

  function CountIn(ls: seq<Line>, l: Line): nat {
    if ls == [] then 0 else CountIn(ls[..|ls| - 1], l) + if ls[|ls| - 1] == l then 1 else 0
  }

  function CountCells(cs: seq<Cell>, l: Line): nat {
    if cs == [] then 0 else CountCells(cs[..|cs| - 1], l) + CountIn(cs[|cs| - 1].parts, l)
  }

  function CountBands(bs: seq<Band>, l: Line): nat {
    if bs == [] then 0 else CountBands(bs[..|bs| - 1], l) + CountCells(bs[|bs| - 1].cells, l)
  }

  lemma {:induction false} CountInConcat(a: seq<Line>, b: seq<Line>, l: Line)
    ensures CountIn(a + b, l) == CountIn(a, l) + CountIn(b, l)
    decreases |b|
  {
    if b == [] {
      assert a + b == a;
    } else {
      assert (a + b)[..|a + b| - 1] == a + b[..|b| - 1];
      CountInConcat(a, b[..|b| - 1], l);
    }
  }

  lemma {:induction false} CountCellsConcat(a: seq<Cell>, b: seq<Cell>, l: Line)
    ensures CountCells(a + b, l) == CountCells(a, l) + CountCells(b, l)
    decreases |b|
  {
    if b == [] {
      assert a + b == a;
    } else {
      assert (a + b)[..|a + b| - 1] == a + b[..|b| - 1];
      CountCellsConcat(a, b[..|b| - 1], l);
    }
  }

  lemma {:induction false} CountBandsConcat(a: seq<Band>, b: seq<Band>, l: Line)
    ensures CountBands(a + b, l) == CountBands(a, l) + CountBands(b, l)
    decreases |b|
  {
    if b == [] {
      assert a + b == a;
    } else {
      assert (a + b)[..|a + b| - 1] == a + b[..|b| - 1];
      CountBandsConcat(a, b[..|b| - 1], l);
    }
  }

  lemma CountOneBand(b: Band, l: Line)
    ensures CountBands([b], l) == CountCells(b.cells, l)
  {
    assert [b][..0] == [];
  }

  lemma CountOneCell(c: Cell, l: Line)
    ensures CountCells([c], l) == CountIn(c.parts, l)
  {
    assert [c][..0] == [];
  }

  lemma CountOneLine(m: Line, l: Line)
    ensures CountIn([m], l) == if m == l then 1 else 0
  {
    assert [m][..0] == [];
  }

  // ------------------------------------------------------------------ rows

  predicate Before(a: Line, b: Line) {
    a.y < b.y || (a.y == b.y && a.x <= b.x)
  }

  /** Behind everything that does not come after it, as a stable sort places it. */
  function InsertLine(ls: seq<Line>, l: Line): seq<Line> {
    if ls == [] || Before(ls[|ls| - 1], l) then ls + [l]
    else InsertLine(ls[..|ls| - 1], l) + [ls[|ls| - 1]]
  }

  /** The lines sorted by y, then x. */
  function SortLines(ls: seq<Line>): seq<Line> {
    if ls == [] then [] else InsertLine(SortLines(ls[..|ls| - 1]), ls[|ls| - 1])
  }

  function InsertCell(cs: seq<Cell>, c: Cell): seq<Cell> {
    if cs == [] || cs[|cs| - 1].x <= c.x then cs + [c] else InsertCell(cs[..|cs| - 1], c) + [cs[|cs| - 1]]
  }

  function CellOf(l: Line): Cell {
    Cell(l.x, [l])
  }

  /** One line joins the last row or starts a new one. */
  function Placed(rows: seq<Band>, l: Line): seq<Band> {
    var n := |rows|;
    if n > 0 && Abs(l.y - rows[n - 1].y) <= ROW_Y_TOLERANCE then
      rows[n - 1 := rows[n - 1].(cells := InsertCell(rows[n - 1].cells, CellOf(l)))]
    else rows + [Band(l.y, [CellOf(l)], false)]
  }

  function Grouped(sorted: seq<Line>): seq<Band> {
    if sorted == [] then [] else Placed(Grouped(sorted[..|sorted| - 1]), sorted[|sorted| - 1])
  }

  predicate SortedByX(cs: seq<Cell>) {
    forall i, j :: 0 <= i < j < |cs| ==> cs[i].x <= cs[j].x
  }

  predicate SortedLines(ls: seq<Line>) {
    forall i, j :: 0 <= i < j < |ls| ==> Before(ls[i], ls[j])
  }

  /** A cell is one line of the page, at its x. */
  predicate IsLine(c: Cell) {
    |c.parts| == 1 && c.x == c.parts[0].x
  }

  /**
   * A row's cells are lines ordered by x, none more than two points below the
   * topmost, whose y is the row's.
   */
  predicate GoodBand(b: Band) {
    && SortedByX(b.cells) && !b.continued
    && (forall k :: 0 <= k < |b.cells| ==> IsLine(b.cells[k]) && b.y <= b.cells[k].parts[0].y <= b.y + 2)
    && exists k :: 0 <= k < |b.cells| && IsLine(b.cells[k]) && b.cells[k].parts[0].y == b.y
  }

  /** Rows are more than two points apart. */
  predicate GoodRows(rows: seq<Band>) {
    && (forall r :: 0 <= r < |rows| ==> GoodBand(rows[r]))
    && (forall r, s :: 0 <= r < s < |rows| ==> rows[r].y + 2 < rows[s].y)
  }

  lemma {:induction false} InsertedLine(ls: seq<Line>, m: Line)
    requires SortedLines(ls)
    ensures SortedLines(InsertLine(ls, m)) && |InsertLine(ls, m)| == |ls| + 1
    ensures forall x :: x in InsertLine(ls, m) <==> x in ls || x == m
    ensures forall l :: CountIn(InsertLine(ls, m), l) == CountIn(ls, l) + if m == l then 1 else 0
  {
    if ls == [] || Before(ls[|ls| - 1], m) {
      assert (ls + [m])[..|ls|] == ls;
      if ls != [] {
        assert forall i :: 0 <= i < |ls| ==> Before(ls[i], m);
      }
    } else {
      var n := |ls| - 1;
      var init := InsertLine(ls[..n], m);
      InsertedLine(ls[..n], m);
      assert (init + [ls[n]])[..|init|] == init;
      forall i | 0 <= i < |init| ensures Before(init[i], ls[n]) {
        assert init[i] in init;
      }
      assert ls == ls[..n] + [ls[n]];
    }
  }

  /** Sorting orders the lines by y, then x, and keeps every one as often as it was. */
  lemma {:induction false} SortingSorts(ls: seq<Line>)
    ensures SortedLines(SortLines(ls))
    ensures var s := SortLines(ls);
            forall i, j :: 0 <= i < j < |s| ==> s[i].y < s[j].y || (s[i].y == s[j].y && s[i].x <= s[j].x)
    ensures forall l :: CountIn(SortLines(ls), l) == CountIn(ls, l)
  {
    if ls != [] {
      SortingSorts(ls[..|ls| - 1]);
      InsertedLine(SortLines(ls[..|ls| - 1]), ls[|ls| - 1]);
    }
  }

  lemma {:induction false} InsertedCellOrder(cs: seq<Cell>, c: Cell)
    requires SortedByX(cs)
    ensures SortedByX(InsertCell(cs, c)) && InsertCell(cs, c) != []
    ensures forall d :: d in InsertCell(cs, c) <==> d in cs || d == c
  {
    if cs != [] && cs[|cs| - 1].x > c.x {
      var n := |cs| - 1;
      var init := InsertCell(cs[..n], c);
      InsertedCellOrder(cs[..n], c);
      forall i | 0 <= i < |init| ensures init[i].x <= cs[n].x {
        assert init[i] in init;
      }
      assert cs == cs[..n] + [cs[n]];
    }
  }

  lemma {:induction false} InsertedCellCount(cs: seq<Cell>, c: Cell, l: Line)
    ensures CountCells(InsertCell(cs, c), l) == CountCells(cs, l) + CountIn(c.parts, l)
  {
    if cs == [] || cs[|cs| - 1].x <= c.x {
      assert (cs + [c])[..|cs|] == cs;
    } else {
      var n := |cs| - 1;
      var init := InsertCell(cs[..n], c);
      InsertedCellCount(cs[..n], c, l);
      assert (init + [cs[n]])[..|init|] == init;
    }
  }

  lemma PlacedCount(rows: seq<Band>, m: Line, l: Line)
    ensures CountBands(Placed(rows, m), l) == CountBands(rows, l) + if m == l then 1 else 0
  {
    var n := |rows|;
    CountOneLine(m, l);
    if n > 0 && Abs(m.y - rows[n - 1].y) <= ROW_Y_TOLERANCE {
      InsertedCellCount(rows[n - 1].cells, CellOf(m), l);
      assert Placed(rows, m)[..n - 1] == rows[..n - 1];
    } else {
      CountOneCell(CellOf(m), l);
      assert Placed(rows, m)[..n] == rows;
    }
  }

  lemma PlacedInBand(b: Band, m: Line)
    requires GoodBand(b) && b.y <= m.y <= b.y + 2
    ensures GoodBand(b.(cells := InsertCell(b.cells, CellOf(m))))
  {
    var cells := InsertCell(b.cells, CellOf(m));
    InsertedCellOrder(b.cells, CellOf(m));
    forall k | 0 <= k < |cells| ensures IsLine(cells[k]) && b.y <= cells[k].parts[0].y <= b.y + 2 {
      assert cells[k] in cells;
    }
    var top :| 0 <= top < |b.cells| && IsLine(b.cells[top]) && b.cells[top].parts[0].y == b.y;
    assert b.cells[top] in cells;
  }

  lemma PlacedInLast(rows: seq<Band>, m: Line)
    requires GoodRows(rows) && rows != [] && rows[|rows| - 1].y <= m.y <= rows[|rows| - 1].y + 2
    ensures GoodRows(Placed(rows, m)) && Placed(rows, m)[|Placed(rows, m)| - 1].y == rows[|rows| - 1].y
  {
    PlacedInBand(rows[|rows| - 1], m);
  }

  lemma PlacedBehind(rows: seq<Band>, m: Line)
    requires GoodRows(rows) && (rows != [] ==> rows[|rows| - 1].y + 2 < m.y)
    ensures GoodRows(Placed(rows, m)) && Placed(rows, m)[|Placed(rows, m)| - 1].y == m.y
  {
    forall r | 0 <= r < |rows| ensures rows[r].y + 2 < m.y {
      assert r == |rows| - 1 || rows[r].y + 2 < rows[|rows| - 1].y;
    }
    assert IsLine(CellOf(m)) && GoodBand(Band(m.y, [CellOf(m)], false)) by {
      assert Band(m.y, [CellOf(m)], false).cells[0] == CellOf(m);
    }
  }

  /** The rows partition the sorted lines: every line is in one row, as often as on the page. */
  lemma {:induction false} RowsPartitionTheLines(sorted: seq<Line>, l: Line)
    ensures CountBands(Grouped(sorted), l) == CountIn(sorted, l)
  {
    if sorted != [] {
      RowsPartitionTheLines(sorted[..|sorted| - 1], l);
      PlacedCount(Grouped(sorted[..|sorted| - 1]), sorted[|sorted| - 1], l);
    }
  }

  /** Rows are apart, their cells ordered by x, and their lines in their band. */
  lemma {:induction false} RowsAreGood(sorted: seq<Line>)
    requires SortedLines(sorted)
    ensures GoodRows(Grouped(sorted))
    ensures sorted != [] ==> Grouped(sorted) != [] && Grouped(sorted)[|Grouped(sorted)| - 1].y <= sorted[|sorted| - 1].y
  {
    if sorted != [] {
      var n := |sorted| - 1;
      var rows, m := Grouped(sorted[..n]), sorted[n];
      RowsAreGood(sorted[..n]);
      assert n > 0 ==> Before(sorted[n - 1], m);
      if rows != [] && m.y <= rows[|rows| - 1].y + 2 {
        PlacedInLast(rows, m);
      } else {
        PlacedBehind(rows, m);
      }
    }
  }

  // ------------------------------------------------------------------ tables

  predicate ColumnsMatch(reference: seq<Cell>, candidate: seq<Cell>) {
    |reference| == |candidate|
    && forall k :: 0 <= k < |reference| ==> Abs(reference[k].x - candidate[k].x) <= COLUMN_X_TOLERANCE
  }

  /** The first column within the tolerance, the length for none. */
  function MatchingColumn(reference: seq<Cell>, x: int): (k: nat)
    ensures k <= |reference|
  {
    if reference == [] || Abs(reference[0].x - x) <= COLUMN_X_TOLERANCE then 0
    else 1 + MatchingColumn(reference[1..], x)
  }

  /** The row with a continuation line folded into one of its cells. */
  function Fold(b: Band, col: nat, c: Cell): Band
    requires col < |b.cells|
  {
    b.(cells := b.cells[col := b.cells[col].(parts := b.cells[col].parts + c.parts)], continued := true)
  }

  predicate Continues(table: seq<Band>, next: Band)
    requires table != []
  {
    var last := table[|table| - 1];
    && |next.cells| == 1 && !last.continued && next.y - last.y <= MAX_CONTINUATION_GAP
    && MatchingColumn(table[0].cells, next.cells[0].x) < |table[0].cells|
  }

  predicate Joins(table: seq<Band>, next: Band)
    requires table != []
  {
    |next.cells| >= 2 && ColumnsMatch(table[0].cells, next.cells)
  }

  /** All rows have a cell per column. */
  predicate SameWidth(table: seq<Band>) {
    forall k :: 0 <= k < |table| ==> |table[k].cells| == |table[0].cells|
  }

  /** The inner loop: the table grown by the rows from j on, and where it stops. */
  function Grown(table: seq<Band>, rows: seq<Band>, j: nat): (r: (seq<Band>, nat))
    requires table != [] && SameWidth(table) && j <= |rows|
    ensures |r.0| >= |table| && j <= r.1 <= |rows| && SameWidth(r.0)
    decreases |rows| - j
  {
    if j == |rows| then (table, j)
    else if Joins(table, rows[j]) then Grown(table + [rows[j]], rows, j + 1)
    else if Continues(table, rows[j]) then
      var n := |table| - 1;
      var col := MatchingColumn(table[0].cells, rows[j].cells[0].x);
      Grown(table[n := Fold(table[n], col, rows[j].cells[0])], rows, j + 1)
    else (table, j)
  }

  ghost predicate NoEmptyRow(rows: seq<Band>) {
    forall r :: 0 <= r < |rows| ==> rows[r].cells != []
  }

  /** One round of the outer loop at row i; after a row that grew no table the next row is looked at afresh. */
  function Round(rows: seq<Band>, i: nat): (r: (Item, nat))
    requires i < |rows| && rows[i].cells != []
    ensures i < r.1 <= |rows|
  {
    if |rows[i].cells| < 2 then (Plain(rows[i].cells[0]), i + 1)
    else
      var (table, j) := Grown([rows[i]], rows, i + 1);
      if |table| >= 2 then (Table(table), j) else (LoneRow(table[0].cells), i + 1)
  }

  function Rebuilt(rows: seq<Band>, i: nat): seq<Item>
    requires i <= |rows| && NoEmptyRow(rows)
    decreases |rows| - i
  {
    if i == |rows| then []
    else
      var (item, next) := Round(rows, i);
      [item] + Rebuilt(rows, next)
  }

  function CountItem(it: Item, l: Line): nat {
    match it
    case Plain(c) => CountIn(c.parts, l)
    case LoneRow(cs) => CountCells(cs, l)
    case Table(rows) => CountBands(rows, l)
  }

  function CountItems(items: seq<Item>, l: Line): nat {
    if items == [] then 0 else CountItem(items[0], l) + CountItems(items[1..], l)
  }

  function CountPlain(items: seq<Item>, l: Line): nat {
    if items == [] then 0 else (if items[0].Plain? then CountItem(items[0], l) else 0) + CountPlain(items[1..], l)
  }

  function CountTables(items: seq<Item>, l: Line): nat {
    if items == [] then 0 else (if items[0].Table? then CountItem(items[0], l) else 0) + CountTables(items[1..], l)
  }

  /** How often the line is folded into row i, if that stands alone. */
  function FoldedHere(rows: seq<Band>, i: nat, l: Line): nat
    requires i < |rows| && rows[i].cells != []
  {
    if |rows[i].cells| < 2 then 0
    else
      var (table, j) := Grown([rows[i]], rows, i + 1);
      if |table| >= 2 then 0 else CountBands(rows[i + 1..j], l)
  }

  function FoldedAlone(rows: seq<Band>, i: nat, l: Line): nat
    requires i <= |rows| && NoEmptyRow(rows)
    decreases |rows| - i
  {
    if i == |rows| then 0 else FoldedHere(rows, i, l) + FoldedAlone(rows, Round(rows, i).1, l)
  }

  /** A column of the row is where the stray line starts. */
  predicate HasColumnAt(cells: seq<Cell>, x: int) {
    exists k :: 0 <= k < |cells| && -10 <= cells[k].x - x <= 10
  }

  /** As many cells, each within ten points of the one above. */
  predicate SameColumns(head: seq<Cell>, cells: seq<Cell>) {
    |head| == |cells| && forall k :: 0 <= k < |head| ==> -10 <= head[k].x - cells[k].x <= 10
  }

  /**
   * What the page looks like there: a row of several cells, a single line close
   * below it that starts where one of them does, and behind that no row of the same
   * columns.
   */
  predicate FoldsAlone(rows: seq<Band>, i: nat)
    requires i < |rows|
  {
    && |rows[i].cells| >= 2 && !rows[i].continued
    && i + 1 < |rows| && |rows[i + 1].cells| == 1
    && rows[i + 1].y - rows[i].y <= 25
    && HasColumnAt(rows[i].cells, rows[i + 1].cells[0].x)
    && (i + 2 < |rows| ==> |rows[i + 2].cells| < 2 || !SameColumns(rows[i].cells, rows[i + 2].cells))
  }

  lemma {:induction false} MatchingColumnFinds(cells: seq<Cell>, x: int)
    ensures MatchingColumn(cells, x) < |cells| <==> HasColumnAt(cells, x)
    decreases |cells|
  {
    if cells != [] {
      MatchingColumnFinds(cells[1..], x);
      if HasColumnAt(cells[1..], x) {
        var k :| 0 <= k < |cells[1..]| && -10 <= cells[1..][k].x - x <= 10;
        assert cells[k + 1] == cells[1..][k];
      }
      if HasColumnAt(cells, x) && MatchingColumn(cells, x) > 0 {
        var k :| 0 <= k < |cells| && -10 <= cells[k].x - x <= 10;
        assert k > 0 && cells[1..][k - 1] == cells[k];
      }
    }
  }

  /** Folding changes no column. */
  lemma FoldKeepsColumns(b: Band, col: nat, c: Cell, next: Band)
    requires col < |b.cells|
    ensures Joins([Fold(b, col, c)], next) <==> Joins([b], next)
  {
    var folded := Fold(b, col, c);
    assert |folded.cells| == |b.cells| && forall k :: 0 <= k < |b.cells| ==> folded.cells[k].x == b.cells[k].x;
  }

  /** Where the inner loop stops with the row alone, after one fold or none. */
  lemma {:induction false} GrownFromOne(rows: seq<Band>, i: nat)
    requires i < |rows| && NoEmptyRow(rows) && |rows[i].cells| >= 2
    ensures var (table, j) := Grown([rows[i]], rows, i + 1);
            |table| < 2 ==> j == if FoldsAlone(rows, i) then i + 2 else i + 1
    ensures FoldsAlone(rows, i) ==> |Grown([rows[i]], rows, i + 1).0| < 2
  {
    var lone := [rows[i]];
    if i + 1 < |rows| && !Joins(lone, rows[i + 1]) {
      MatchingColumnFinds(rows[i].cells, rows[i + 1].cells[0].x);
      if Continues(lone, rows[i + 1]) {
        var col := MatchingColumn(rows[i].cells, rows[i + 1].cells[0].x);
        var folded := Fold(rows[i], col, rows[i + 1].cells[0]);
        assert lone[0 := folded] == [folded];
        if i + 2 < |rows| {
          FoldKeepsColumns(rows[i], col, rows[i + 1].cells[0], rows[i + 2]);
        }
      }
    }
  }

  /** A line is folded into row i standing alone exactly where the page looks like that, and it is the line below. */
  lemma FoldedExactlyWhere(rows: seq<Band>, i: nat, l: Line)
    requires i < |rows| && NoEmptyRow(rows)
    ensures FoldedHere(rows, i, l) == if FoldsAlone(rows, i) then CountCells(rows[i + 1].cells, l) else 0
  {
    if |rows[i].cells| >= 2 {
      GrownFromOne(rows, i);
      assert rows[i + 1..i + 1] == [];
      if FoldsAlone(rows, i) {
        OneRow(rows, i + 1, l);
      }
    }
  }

  /** The rounds that begin at a row pass this one. */
  ghost predicate Visited(rows: seq<Band>, start: nat, i: nat)
    requires start <= |rows| && NoEmptyRow(rows)
    decreases |rows| - start
  {
    start < |rows| && (start == i || Visited(rows, Round(rows, start).1, i))
  }

  lemma {:induction false} VisitedIsARow(rows: seq<Band>, start: nat, i: nat)
    requires start <= |rows| && NoEmptyRow(rows) && Visited(rows, start, i)
    ensures start <= i < |rows|
    decreases |rows| - start
  {
    if start != i {
      VisitedIsARow(rows, Round(rows, start).1, i);
    }
  }

  /** Some row the rounds come to folds this line and then stands alone. */
  ghost predicate FoldsTheLine(rows: seq<Band>, start: nat, l: Line)
    requires start <= |rows| && NoEmptyRow(rows)
  {
    exists i :: start <= i < |rows| && Visited(rows, start, i) && FoldsAlone(rows, i)
                && CountCells(rows[i + 1].cells, l) > 0
  }

  lemma FoldsInARoundExactly(rows: seq<Band>, start: nat, l: Line)
    requires start < |rows| && NoEmptyRow(rows)
    ensures FoldsTheLine(rows, start, l) <==>
              FoldedHere(rows, start, l) > 0 || FoldsTheLine(rows, Round(rows, start).1, l)
  {
    var next := Round(rows, start).1;
    FoldedExactlyWhere(rows, start, l);
    if i :| next <= i < |rows| && Visited(rows, next, i) && FoldsAlone(rows, i)
            && CountCells(rows[i + 1].cells, l) > 0 {
      assert Visited(rows, start, i);
    }
    if FoldedHere(rows, start, l) > 0 {
      assert Visited(rows, start, start);
    }
    if i :| start < i < |rows| && Visited(rows, start, i) && FoldsAlone(rows, i)
            && CountCells(rows[i + 1].cells, l) > 0 {
      VisitedIsARow(rows, next, i);
    }
  }

  lemma {:induction false} FoldedAloneExactlyWhere(rows: seq<Band>, start: nat, l: Line)
    requires start <= |rows| && NoEmptyRow(rows)
    ensures FoldedAlone(rows, start, l) > 0 <==> FoldsTheLine(rows, start, l)
    decreases |rows| - start
  {
    if start < |rows| {
      FoldsInARoundExactly(rows, start, l);
      FoldedAloneExactlyWhere(rows, Round(rows, start).1, l);
    }
  }

  lemma {:induction false} CountCellsUpdate(cs: seq<Cell>, k: nat, c: Cell, l: Line)
    requires k < |cs|
    ensures CountCells(cs[k := c], l) == CountCells(cs, l) - CountIn(cs[k].parts, l) + CountIn(c.parts, l)
    decreases |cs|
  {
    var n := |cs| - 1;
    if k < n {
      CountCellsUpdate(cs[..n], k, c, l);
      assert cs[k := c][..n] == cs[..n][k := c];
    } else {
      assert cs[k := c][..n] == cs[..n];
    }
  }

  lemma CountBandsLast(bs: seq<Band>, b: Band, l: Line)
    requires bs != []
    ensures CountBands(bs[|bs| - 1 := b], l) ==
              CountBands(bs, l) - CountCells(bs[|bs| - 1].cells, l) + CountCells(b.cells, l)
  {
    assert bs[|bs| - 1 := b][..|bs| - 1] == bs[..|bs| - 1];
  }

  lemma FoldCounts(b: Band, col: nat, next: Band, l: Line)
    requires col < |b.cells| && |next.cells| == 1
    ensures CountCells(Fold(b, col, next.cells[0]).cells, l) == CountCells(b.cells, l) + CountCells(next.cells, l)
  {
    var c := next.cells[0];
    CountCellsUpdate(b.cells, col, b.cells[col].(parts := b.cells[col].parts + c.parts), l);
    CountInConcat(b.cells[col].parts, c.parts, l);
    assert next.cells == [c];
    CountOneCell(c, l);
  }

  /** The table takes over exactly the lines of the rows it passes. */
  lemma {:induction false} GrownTakesTheRows(table: seq<Band>, rows: seq<Band>, j: nat, l: Line)
    requires table != [] && SameWidth(table) && j <= |rows|
    ensures var r := Grown(table, rows, j);
            CountBands(r.0, l) == CountBands(table, l) + CountBands(rows[j..r.1], l)
    decreases |rows| - j
  {
    var r := Grown(table, rows, j);
    if j < |rows| && (Joins(table, rows[j]) || Continues(table, rows[j])) {
      CountBandsConcat([rows[j]], rows[j + 1..r.1], l);
      CountOneBand(rows[j], l);
      assert [rows[j]] + rows[j + 1..r.1] == rows[j..r.1];
      if Joins(table, rows[j]) {
        GrownTakesTheRows(table + [rows[j]], rows, j + 1, l);
        CountBandsConcat(table, [rows[j]], l);
      } else {
        var n := |table| - 1;
        var col := MatchingColumn(table[0].cells, rows[j].cells[0].x);
        var b := Fold(table[n], col, rows[j].cells[0]);
        GrownTakesTheRows(table[n := b], rows, j + 1, l);
        CountBandsLast(table, b, l);
        FoldCounts(table[n], col, rows[j], l);
      }
    } else {
      assert rows[j..j] == [];
    }
  }

  /** Growing only ever lengthens a table that has more than one row, or was joined. */
  lemma {:induction false} GrownAlone(table: seq<Band>, rows: seq<Band>, j: nat)
    requires |table| == 1 && j <= |rows| && |Grown(table, rows, j).0| == 1
    ensures var r := Grown(table, rows, j);
            && (table[0].continued ==> r == (table, j))
            && r.1 <= j + 1
            && (r.1 == j + 1 ==> |rows[j].cells| == 1)
    decreases |rows| - j
  {
    if j < |rows| && !Joins(table, rows[j]) && Continues(table, rows[j]) {
      var col := MatchingColumn(table[0].cells, rows[j].cells[0].x);
      var folded := table[0 := Fold(table[0], col, rows[j].cells[0])];
      GrownAlone(folded, rows, j + 1);
    }
  }

  lemma SplitRows(rows: seq<Band>, i: nat, j: nat, l: Line)
    requires i <= j <= |rows|
    ensures CountBands(rows[i..], l) == CountBands(rows[i..j], l) + CountBands(rows[j..], l)
  {
    assert rows[i..j] + rows[j..] == rows[i..];
    CountBandsConcat(rows[i..j], rows[j..], l);
  }

  lemma OneRow(rows: seq<Band>, i: nat, l: Line)
    requires i < |rows|
    ensures CountBands(rows[i..i + 1], l) == CountCells(rows[i].cells, l)
  {
    assert rows[i..i + 1] == [rows[i]];
    CountOneBand(rows[i], l);
  }

  lemma OneCellRow(cells: seq<Cell>, l: Line)
    requires |cells| == 1
    ensures CountCells(cells, l) == CountIn(cells[0].parts, l)
  {
    assert cells == [cells[0]];
    CountOneCell(cells[0], l);
  }

  /** The item of a round holds the lines of the rows it passes, and those folded into a row standing alone. */
  lemma RoundCounts(rows: seq<Band>, i: nat, l: Line)
    requires i < |rows| && rows[i].cells != []
    ensures var (item, next) := Round(rows, i);
            CountItem(item, l) == CountBands(rows[i..next], l) + FoldedHere(rows, i, l)
    ensures !Round(rows, i).0.LoneRow? ==> FoldedHere(rows, i, l) == 0
  {
    OneRow(rows, i, l);
    if |rows[i].cells| < 2 {
      OneCellRow(rows[i].cells, l);
    } else {
      var (table, j) := Grown([rows[i]], rows, i + 1);
      GrownTakesTheRows([rows[i]], rows, i + 1, l);
      CountOneBand(rows[i], l);
      if |table| >= 2 {
        assert rows[i..j] == rows[i..i + 1] + rows[i + 1..j];
        CountBandsConcat(rows[i..i + 1], rows[i + 1..j], l);
      } else {
        assert table == [table[0]];
        CountOneBand(table[0], l);
      }
    }
  }

  /** What comes out is what the rows hold, and once more each line folded into a row that then stood alone. */
  lemma {:induction false} RebuildingCounts(rows: seq<Band>, i: nat, l: Line)
    requires i <= |rows| && NoEmptyRow(rows)
    ensures CountItems(Rebuilt(rows, i), l) == CountBands(rows[i..], l) + FoldedAlone(rows, i, l)
    decreases |rows| - i
  {
    if i < |rows| {
      var next := Round(rows, i).1;
      RoundCounts(rows, i, l);
      SplitRows(rows, i, next, l);
      RebuildingCounts(rows, next, l);
    }
  }

  /** Plain lines and table lines stem from rows of their own. */
  lemma {:induction false} TablesAndPlainWithinRows(rows: seq<Band>, i: nat, l: Line)
    requires i <= |rows| && NoEmptyRow(rows)
    ensures CountTables(Rebuilt(rows, i), l) + CountPlain(Rebuilt(rows, i), l) <= CountBands(rows[i..], l)
    decreases |rows| - i
  {
    if i < |rows| {
      var next := Round(rows, i).1;
      RoundCounts(rows, i, l);
      SplitRows(rows, i, next, l);
      TablesAndPlainWithinRows(rows, next, l);
    }
  }

  /** A line folded into a row standing alone is the only cell of the next row, where it comes out as it is. */
  lemma FoldedHereComesNext(rows: seq<Band>, i: nat, l: Line)
    requires i < |rows| && NoEmptyRow(rows) && FoldedHere(rows, i, l) > 0
    ensures i + 1 < |rows| && Round(rows, i).1 == i + 1
    ensures Round(rows, i + 1).0 == Plain(rows[i + 1].cells[0]) && Round(rows, i + 1).1 == i + 2
    ensures FoldedHere(rows, i, l) == CountIn(rows[i + 1].cells[0].parts, l)
    ensures FoldedHere(rows, i + 1, l) == 0
  {
    var (table, j) := Grown([rows[i]], rows, i + 1);
    GrownAlone([rows[i]], rows, i + 1);
    assert rows[i + 1..j] != [];
    OneRow(rows, i + 1, l);
    OneCellRow(rows[i + 1].cells, l);
  }

  /** Each line folded into a row that stood alone is also emitted as a line of its own. */
  lemma {:induction false} FoldedAloneIsPlainToo(rows: seq<Band>, i: nat, l: Line)
    requires i <= |rows| && NoEmptyRow(rows)
    ensures FoldedAlone(rows, i, l) <= CountPlain(Rebuilt(rows, i), l)
    decreases |rows| - i
  {
    if i < |rows| {
      if FoldedHere(rows, i, l) > 0 {
        FoldedHereComesNext(rows, i, l);
        FoldedAloneIsPlainToo(rows, i + 2, l);
        assert Rebuilt(rows, i + 1) == [Round(rows, i + 1).0] + Rebuilt(rows, i + 2);
      } else {
        FoldedAloneIsPlainToo(rows, Round(rows, i).1, l);
      }
    }
  }

  // ------------------------------------------------------------------ where everything comes out

  /** The first column that starts within ten points of there. */
  predicate FirstColumnAt(head: seq<Cell>, x: int, k: nat) {
    && k < |head| && -10 <= head[k].x - x <= 10
    && forall m :: 0 <= m < k ==> !(-10 <= head[m].x - x <= 10)
  }

  lemma {:induction false} MatchingColumnIsTheFirst(head: seq<Cell>, x: int)
    ensures MatchingColumn(head, x) < |head| ==> FirstColumnAt(head, x, MatchingColumn(head, x))
    ensures MatchingColumn(head, x) == |head| ==> !HasColumnAt(head, x)
    decreases |head|
  {
    if head != [] && !(-10 <= head[0].x - x <= 10) {
      MatchingColumnIsTheFirst(head[1..], x);
      MatchingColumnFinds(head, x);
      var k := MatchingColumn(head[1..], x);
      if k < |head[1..]| {
        forall m | 0 <= m < k + 1 ensures !(-10 <= head[m].x - x <= 10) {
          assert m > 0 ==> head[m] == head[1..][m - 1];
        }
      }
    }
  }

  /** The row with one more line behind the text of the k-th cell, and all else as it was. */
  predicate FoldedInto(b: Band, own: Band, line: Cell, k: nat) {
    && b.y == own.y && b.continued && |b.cells| == |own.cells| && k < |own.cells|
    && forall m :: 0 <= m < |own.cells| ==>
         && b.cells[m].x == own.cells[m].x
         && b.cells[m].parts == own.cells[m].parts + if m == k then line.parts else []
  }

  ghost predicate FoldedWhereItFits(b: Band, own: Band, head: seq<Cell>, line: Cell) {
    exists k :: FirstColumnAt(head, line.x, k) && FoldedInto(b, own, line, k)
  }

  /** The row of a single cell at j goes on with a column of the row above. */
  predicate GoesOn(rows: seq<Band>, head: seq<Cell>, j: nat) {
    && 0 < j < |rows| && |rows[j].cells| == 1 && rows[j].y - rows[j - 1].y <= 25
    && HasColumnAt(head, rows[j].cells[0].x)
  }

  /** A row of the output: the page's row as it is, or with the line below it in the first column it fits. */
  ghost predicate RowReads(rows: seq<Band>, head: seq<Cell>, b: Band, from: nat, next: nat) {
    && from < next <= |rows|
    && if next == from + 1 then b == rows[from]
       else next == from + 2 && GoesOn(rows, head, from + 1)
            && FoldedWhereItFits(b, rows[from], head, rows[from + 1].cells[0])
  }

  /**
   * The table is made of the page's rows in their order, `at` being where each of
   * them begins and where the table ends: all have the columns of the first.
   */
  ghost predicate TableReads(rows: seq<Band>, table: seq<Band>, at: seq<nat>) {
    && table != [] && |at| == |table| + 1 && at[0] < |rows|
    && forall r :: 0 <= r < |table| ==> RowAt(rows, table, at, r)
  }

  ghost predicate RowAt(rows: seq<Band>, table: seq<Band>, at: seq<nat>, r: nat)
    requires |at| == |table| + 1 && at[0] < |rows|
  {
    && r < |table| && RowReads(rows, rows[at[0]].cells, table[r], at[r], at[r + 1])
    && (r > 0 ==> |rows[at[r]].cells| >= 2 && SameColumns(rows[at[0]].cells, rows[at[r]].cells))
  }

  /** The table goes as far as it can: what comes next is no row of it and no line that goes on. */
  ghost predicate TableEnds(rows: seq<Band>, at: seq<nat>)
    requires |at| >= 2 && at[0] < |rows|
  {
    var head, last, end := rows[at[0]].cells, at[|at| - 2], at[|at| - 1];
    end < |rows| ==>
      && !(|rows[end].cells| >= 2 && SameColumns(head, rows[end].cells))
      && !(end == last + 1 && GoesOn(rows, head, end))
  }

  ghost predicate NoneContinued(rows: seq<Band>) {
    forall r :: 0 <= r < |rows| ==> !rows[r].continued
  }

  /** The columns of the table's first row are those of the page's. */
  lemma HeadIsTheRows(rows: seq<Band>, table: seq<Band>, at: seq<nat>, next: Band)
    requires TableReads(rows, table, at)
    ensures |table[0].cells| == |rows[at[0]].cells|
    ensures forall m :: 0 <= m < |table[0].cells| ==> table[0].cells[m].x == rows[at[0]].cells[m].x
    ensures Joins(table, next) <==> |next.cells| >= 2 && SameColumns(rows[at[0]].cells, next.cells)
  {
    assert RowAt(rows, table, at, 0);
  }

  lemma {:induction false} SameMatch(a: seq<Cell>, b: seq<Cell>, x: int)
    requires |a| == |b| && forall m :: 0 <= m < |a| ==> a[m].x == b[m].x
    ensures MatchingColumn(a, x) == MatchingColumn(b, x)
    decreases |a|
  {
    if a != [] && Abs(a[0].x - x) > COLUMN_X_TOLERANCE {
      assert forall m :: 0 <= m < |a[1..]| ==> a[1..][m] == a[m + 1] && b[1..][m] == b[m + 1];
      SameMatch(a[1..], b[1..], x);
    }
  }

  lemma ContinuesIsGoingOn(rows: seq<Band>, table: seq<Band>, at: seq<nat>)
    requires TableReads(rows, table, at) && NoneContinued(rows) && at[|table|] < |rows|
    ensures Continues(table, rows[at[|table|]]) <==>
              at[|table|] == at[|table| - 1] + 1 && GoesOn(rows, rows[at[0]].cells, at[|table|])
  {
    var n, j := |table| - 1, at[|table|];
    var head := rows[at[0]].cells;
    assert RowAt(rows, table, at, n);
    HeadIsTheRows(rows, table, at, rows[j]);
    if |rows[j].cells| == 1 {
      SameMatch(table[0].cells, head, rows[j].cells[0].x);
      MatchingColumnFinds(head, rows[j].cells[0].x);
    }
  }

  /** Folding in the line that goes on. */
  lemma FoldReads(rows: seq<Band>, table: seq<Band>, at: seq<nat>)
    requires TableReads(rows, table, at) && NoneContinued(rows) && at[|table|] < |rows| && SameWidth(table)
    requires Continues(table, rows[at[|table|]])
    ensures var n, j := |table| - 1, at[|table|];
            var col := MatchingColumn(table[0].cells, rows[j].cells[0].x);
            TableReads(rows, table[n := Fold(table[n], col, rows[j].cells[0])], at[n + 1 := j + 1])
  {
    var n, j := |table| - 1, at[|table|];
    var head := rows[at[0]].cells;
    var line := rows[j].cells[0];
    var col := MatchingColumn(table[0].cells, line.x);
    ContinuesIsGoingOn(rows, table, at);
    HeadIsTheRows(rows, table, at, rows[j]);
    SameMatch(table[0].cells, head, line.x);
    MatchingColumnIsTheFirst(head, line.x);
    assert RowAt(rows, table, at, n);
    var b := Fold(table[n], col, line);
    assert FoldedInto(b, rows[at[n]], line, col);
    assert RowReads(rows, head, b, at[n], j + 1);
    var table', at' := table[n := b], at[n + 1 := j + 1];
    forall r | 0 <= r < |table'| ensures RowAt(rows, table', at', r) {
      assert RowAt(rows, table, at, r);
    }
  }

  lemma JoinReads(rows: seq<Band>, table: seq<Band>, at: seq<nat>)
    requires TableReads(rows, table, at) && at[|table|] < |rows| && Joins(table, rows[at[|table|]])
    ensures TableReads(rows, table + [rows[at[|table|]]], at + [at[|table|] + 1])
  {
    var j := at[|table|];
    HeadIsTheRows(rows, table, at, rows[j]);
    var table', at' := table + [rows[j]], at + [j + 1];
    forall r | 0 <= r < |table'| ensures RowAt(rows, table', at', r) {
      if r < |table| {
        assert RowAt(rows, table, at, r);
      }
    }
  }

  /** What the inner loop grows is made of the page's rows in their order, and goes as far as it can. */
  lemma {:induction false} GrownReads(table: seq<Band>, rows: seq<Band>, at: seq<nat>) returns (ends: seq<nat>)
    requires TableReads(rows, table, at) && NoneContinued(rows) && SameWidth(table) && at[|table|] <= |rows|
    ensures var (grown, j) := Grown(table, rows, at[|table|]);
            TableReads(rows, grown, ends) && ends[0] == at[0] && ends[|grown|] == j && TableEnds(rows, ends)
    decreases |rows| - at[|table|]
  {
    var n, j := |table| - 1, at[|table|];
    if j < |rows| {
      HeadIsTheRows(rows, table, at, rows[j]);
      ContinuesIsGoingOn(rows, table, at);
    }
    if j < |rows| && Joins(table, rows[j]) {
      JoinReads(rows, table, at);
      ends := GrownReads(table + [rows[j]], rows, at + [j + 1]);
    } else if j < |rows| && Continues(table, rows[j]) {
      FoldReads(rows, table, at);
      var col := MatchingColumn(table[0].cells, rows[j].cells[0].x);
      ends := GrownReads(table[n := Fold(table[n], col, rows[j].cells[0])], rows, at[n + 1 := j + 1]);
    } else {
      ends := at;
    }
  }

  /**
   * An item of the output, made of the page's rows from `from` to `next`: a single
   * line, a table of at least two rows, or a row of several cells that begins no
   * table; the line folded into that is not passed.
   */
  ghost predicate ItemReads(rows: seq<Band>, item: Item, from: nat, next: nat)
    requires from < |rows|
  {
    match item
    case Plain(c) => rows[from].cells == [c] && next == from + 1
    case LoneRow(cells) =>
      && |rows[from].cells| >= 2 && next == from + 1
      && exists at, b :: |at| == 2 && at[0] == from && TableReads(rows, [b], at) && TableEnds(rows, at)
                         && cells == b.cells
    case Table(table) =>
      && |rows[from].cells| >= 2 && |table| >= 2
      && exists at :: TableReads(rows, table, at) && TableEnds(rows, at) && at[0] == from && at[|table|] == next
  }

  lemma RoundReads(rows: seq<Band>, i: nat)
    requires i < |rows| && NoEmptyRow(rows) && NoneContinued(rows)
    ensures ItemReads(rows, Round(rows, i).0, i, Round(rows, i).1)
  {
    if |rows[i].cells| >= 2 {
      assert RowAt(rows, [rows[i]], [i, i + 1], 0);
      assert TableReads(rows, [rows[i]], [i, i + 1]);
      var at := GrownReads([rows[i]], rows, [i, i + 1]);
      var (table, j) := Grown([rows[i]], rows, i + 1);
      if |table| < 2 {
        assert table == [table[0]];
        assert |at| == 2 && at[0] == i && TableReads(rows, [table[0]], at) && TableEnds(rows, at);
      }
    }
  }

  ghost predicate ReadAt(rows: seq<Band>, items: seq<Item>, starts: seq<nat>, k: nat) {
    && k < |items| && |starts| == |items| + 1
    && starts[k] < starts[k + 1] <= |rows| && ItemReads(rows, items[k], starts[k], starts[k + 1])
  }

  /** The items in their order, each where the one before stopped; `starts` says where. */
  ghost predicate AllRead(rows: seq<Band>, items: seq<Item>, starts: seq<nat>) {
    && |starts| == |items| + 1 && starts[|items|] == |rows|
    && forall k :: 0 <= k < |items| ==> ReadAt(rows, items, starts, k)
  }

  lemma {:induction false} RebuiltReads(rows: seq<Band>, i: nat) returns (starts: seq<nat>)
    requires i <= |rows| && NoEmptyRow(rows) && NoneContinued(rows)
    ensures AllRead(rows, Rebuilt(rows, i), starts) && starts[0] == i
    decreases |rows| - i
  {
    if i == |rows| {
      starts := [i];
    } else {
      var (item, next) := Round(rows, i);
      RoundReads(rows, i);
      var rest := RebuiltReads(rows, next);
      starts := [i] + rest;
      var items, behind := Rebuilt(rows, i), Rebuilt(rows, next);
      forall k | 0 <= k < |items| ensures ReadAt(rows, items, starts, k) {
        if k > 0 {
          assert items[k] == behind[k - 1] && starts[k] == rest[k - 1] && starts[k + 1] == rest[k];
          assert ReadAt(rows, behind, rest, k - 1);
        } else {
          assert items[0] == item && starts[1] == rest[0];
        }
      }
    }
  }

  // ------------------------------------------------------------------ a page

  predicate Blank(text: string) {
    forall i :: 0 <= i < |text| ==> White(text[i])
  }

  /** There is something to read in it. */
  ghost predicate HasText(text: string) {
    exists c :: c in text && !White(c)
  }

  lemma BlankHasNoText(text: string)
    ensures HasText(text) <==> !Blank(text)
  {
    if !Blank(text) {
      var i :| 0 <= i < |text| && !White(text[i]);
      assert text[i] in text;
    }
  }

  function Meaningful(ls: seq<Line>): (r: seq<Line>)
    ensures forall l :: CountIn(r, l) == if Blank(l.text) then 0 else CountIn(ls, l)
  {
    if ls == [] then []
    else
      var n := |ls| - 1;
      var rest := Meaningful(ls[..n]);
      if Blank(ls[n].text) then rest
      else
        assert (rest + [ls[n]])[..|rest|] == rest;
        rest + [ls[n]]
  }

  /** The page's rows. */
  function Rows(lines: seq<Line>): seq<Band> {
    Grouped(SortLines(Meaningful(lines)))
  }

  lemma RowsOfAPage(lines: seq<Line>)
    ensures GoodRows(Rows(lines)) && NoEmptyRow(Rows(lines))
    ensures forall l :: CountBands(Rows(lines), l) == if Blank(l.text) then 0 else CountIn(lines, l)
  {
    SortingSorts(Meaningful(lines));
    RowsAreGood(SortLines(Meaningful(lines)));
    forall l ensures CountBands(Rows(lines), l) == CountIn(Meaningful(lines), l) {
      RowsPartitionTheLines(SortLines(Meaningful(lines)), l);
    }
    assert forall r :: 0 <= r < |Rows(lines)| ==> GoodBand(Rows(lines)[r]);
  }

  /** `reconstructPageText`, before the items are joined into one text. */
  function Page(lines: seq<Line>): seq<Item> {
    RowsOfAPage(lines);
    Rebuilt(Rows(lines), 0)
  }

  /** How often the line is folded into rows that then stand alone. */
  function FoldedOnPage(lines: seq<Line>, l: Line): nat {
    RowsOfAPage(lines);
    FoldedAlone(Rows(lines), 0, l)
  }

  lemma RebuildingAll(rows: seq<Band>, l: Line)
    requires NoEmptyRow(rows)
    ensures var items := Rebuilt(rows, 0);
            && CountItems(items, l) == CountBands(rows, l) + FoldedAlone(rows, 0, l)
            && CountTables(items, l) + CountPlain(items, l) <= CountBands(rows, l)
            && FoldedAlone(rows, 0, l) <= CountPlain(items, l)
  {
    RebuildingCounts(rows, 0, l);
    TablesAndPlainWithinRows(rows, 0, l);
    FoldedAloneIsPlainToo(rows, 0, l);
    assert rows[0..] == rows;
  }

  /**
   * Nothing is lost and nothing invented: a line that is not blank comes out as
   * often as it is on the page, and once more for each time it was folded into a
   * row that then stood alone; each of these it also comes out as a plain line.
   */
  lemma EveryLineComesOut(lines: seq<Line>, l: Line)
    ensures var own := if HasText(l.text) then CountIn(lines, l) else 0;
            && CountItems(Page(lines), l) == own + FoldedOnPage(lines, l)
            && CountTables(Page(lines), l) + CountPlain(Page(lines), l) <= own
            && FoldedOnPage(lines, l) <= CountPlain(Page(lines), l)
  {
    BlankHasNoText(l.text);
    RowsOfAPage(lines);
    RebuildingAll(Rows(lines), l);
  }

  /**
   * The whole output, item by item, in the page's order: which rows each is made of,
   * and behind which cell's text a line that goes on comes.
   */
  lemma ThePageReadsInOrder(lines: seq<Line>) returns (starts: seq<nat>)
    ensures AllRead(Rows(lines), Page(lines), starts) && starts[0] == 0
  {
    RowsOfAPage(lines);
    assert forall r :: 0 <= r < |Rows(lines)| ==> GoodBand(Rows(lines)[r]);
    starts := RebuiltReads(Rows(lines), 0);
  }

  /** A line that is on the page once and in a table is nowhere else in the output. */
  lemma TableLinesComeOutOnce(lines: seq<Line>, l: Line)
    requires CountIn(lines, l) == 1 && CountTables(Page(lines), l) > 0
    ensures CountTables(Page(lines), l) == 1 && CountItems(Page(lines), l) == 1
  {
    EveryLineComesOut(lines, l);
  }

  /**
   * A line that is on the page once comes out twice if and only if it is the single
   * line close below a row that the rounds come to, starts where one of that row's
   * cells does, and no row of the same columns follows. One of the two is a plain line.
   */
  lemma ComesOutTwiceExactly(lines: seq<Line>, l: Line)
    requires CountIn(lines, l) == 1 && HasText(l.text)
    ensures NoEmptyRow(Rows(lines))
    ensures CountItems(Page(lines), l) == 2 <==> FoldsTheLine(Rows(lines), 0, l)
    ensures CountItems(Page(lines), l) == 2 ==> CountPlain(Page(lines), l) == 1
    ensures CountItems(Page(lines), l) <= 2
  {
    BlankHasNoText(l.text);
    RowsOfAPage(lines);
    EveryLineComesOut(lines, l);
    FoldedAloneExactlyWhere(Rows(lines), 0, l);
  }

  /** Two cells side by side and a line just below the first one. */
  function HeadAndBody(a: string, b: string, c: string): seq<Line> {
    [Line(a, 0, 0), Line(b, 100, 0), Line(c, 0, 10)]
  }

  lemma Appended(ls: seq<Line>, l: Line)
    ensures Meaningful(ls + [l]) == if Blank(l.text) then Meaningful(ls) else Meaningful(ls) + [l]
    ensures SortLines(ls + [l]) == InsertLine(SortLines(ls), l)
    ensures Grouped(ls + [l]) == Placed(Grouped(ls), l)
  {
    assert (ls + [l])[..|ls|] == ls;
  }

  lemma RowsOfHeadAndBody(a: string, b: string, c: string)
    requires !Blank(a) && !Blank(b) && !Blank(c)
    ensures var ls := HeadAndBody(a, b, c);
            Rows(ls) == [Band(0, [CellOf(ls[0]), CellOf(ls[1])], false), Band(10, [CellOf(ls[2])], false)]
  {
    var ls := HeadAndBody(a, b, c);
    var two := [] + [ls[0]] + [ls[1]];
    assert ls == two + [ls[2]];
    Appended([], ls[0]);
    Appended([] + [ls[0]], ls[1]);
    Appended(two, ls[2]);
    assert Meaningful(ls) == ls;
    assert SortLines([] + [ls[0]]) == [] + [ls[0]];
    assert SortLines(two) == two;
    assert SortLines(ls) == ls;
    assert Placed([], ls[0]) == [Band(0, [CellOf(ls[0])], false)];
    assert InsertCell([CellOf(ls[0])], CellOf(ls[1])) == [CellOf(ls[0]), CellOf(ls[1])];
    assert Grouped(two) == [Band(0, [CellOf(ls[0]), CellOf(ls[1])], false)];
  }

  lemma OnceAtTheEnd(first: Line, second: Line, l: Line)
    requires first != l && second != l
    ensures CountIn([first, second, l], l) == 1
  {
    CountOneLine(first, l);
    assert [first, second][..1] == [first];
    assert CountIn([first, second], l) == 0;
    assert [first, second, l][..2] == [first, second];
  }

  /** The line below is folded into the first row, which then stands alone. */
  lemma TheLineBelowIsFolded(first: Line, second: Line, l: Line)
    requires first.x == l.x
    ensures var rows := [Band(0, [CellOf(first), CellOf(second)], false), Band(10, [CellOf(l)], false)];
            NoEmptyRow(rows) && FoldsTheLine(rows, 0, l)
  {
    var rows := [Band(0, [CellOf(first), CellOf(second)], false), Band(10, [CellOf(l)], false)];
    assert HasColumnAt(rows[0].cells, l.x) by {
      assert rows[0].cells[0].x == l.x;
    }
    assert FoldsAlone(rows, 0);
    OneCellRow(rows[1].cells, l);
    CountOneLine(l, l);
    assert Visited(rows, 0, 0);
  }

  /** On such a page the third line comes out in the first cell and again by itself. */
  lemma ThreeLinesComeOutAsFour(a: string, b: string, c: string)
    requires HasText(a) && HasText(b) && HasText(c)
    ensures var l := Line(c, 0, 10);
            CountIn(HeadAndBody(a, b, c), l) == 1 && CountItems(Page(HeadAndBody(a, b, c)), l) == 2
  {
    var ls := HeadAndBody(a, b, c);
    BlankHasNoText(a);
    BlankHasNoText(b);
    BlankHasNoText(c);
    RowsOfHeadAndBody(a, b, c);
    OnceAtTheEnd(ls[0], ls[1], ls[2]);
    TheLineBelowIsFolded(ls[0], ls[1], ls[2]);
    ComesOutTwiceExactly(ls, ls[2]);
  }

  // ------------------------------------------------------------------ the loops

  lemma GroupedNext(sorted: seq<Line>, i: nat)
    requires i < |sorted|
    ensures Grouped(sorted[..i + 1]) == Placed(Grouped(sorted[..i]), sorted[i])
  {
    assert sorted[..i + 1][..i] == sorted[..i];
  }

  /** `groupIntoRows`. */
  method GroupIntoRows(lines: seq<Line>) returns (rows: seq<Band>)
    ensures rows == Grouped(SortLines(lines))
  {
    var sorted := SortLines(lines);
    rows := [];
    for i := 0 to |sorted|
      invariant rows == Grouped(sorted[..i])
    {
      GroupedNext(sorted, i);
      var line, n := sorted[i], |rows|;
      if n > 0 && Abs(line.y - rows[n - 1].y) <= ROW_Y_TOLERANCE {
        rows := rows[n - 1 := rows[n - 1].(cells := InsertCell(rows[n - 1].cells, CellOf(line)))];
      } else {
        rows := rows + [Band(line.y, [CellOf(line)], false)];
      }
    }
    assert sorted[..|sorted|] == sorted;
  }

  /** The inner loop of `reconstructPageText`: rows join the table or fold into its last row. */
  method GrowTable(rows: seq<Band>, i: nat) returns (table: seq<Band>, j: nat)
    requires i < |rows|
    ensures (table, j) == Grown([rows[i]], rows, i + 1)
  {
    table, j := [rows[i]], i + 1;
    var growing := true;
    while j < |rows| && growing
      invariant table != [] && SameWidth(table) && i < j <= |rows|
      invariant if growing then Grown(table, rows, j) == Grown([rows[i]], rows, i + 1)
                else (table, j) == Grown([rows[i]], rows, i + 1)
      decreases |rows| - j, growing
    {
      var next, n := rows[j], |table| - 1;
      if |next.cells| >= 2 && ColumnsMatch(table[0].cells, next.cells) {
        table, j := table + [next], j + 1;
      } else {
        var col := |table[0].cells|;
        if |next.cells| == 1 && !table[n].continued && next.y - table[n].y <= MAX_CONTINUATION_GAP {
          col := MatchingColumn(table[0].cells, next.cells[0].x);
        }
        if col < |table[0].cells| {
          table, j := table[n := Fold(table[n], col, next.cells[0])], j + 1;
        } else {
          growing := false;
        }
      }
    }
  }

  /** One round of the outer loop. */
  method RebuildRow(rows: seq<Band>, i: nat) returns (item: Item, next: nat)
    requires i < |rows| && rows[i].cells != []
    ensures (item, next) == Round(rows, i)
  {
    if |rows[i].cells| < 2 {
      item, next := Plain(rows[i].cells[0]), i + 1;
    } else {
      var table, j := GrowTable(rows, i);
      if |table| >= 2 {
        item, next := Table(table), j;
      } else {
        item, next := LoneRow(table[0].cells), i + 1;
      }
    }
  }

  /** The outer loop: every round moves on by at least one row. */
  method RebuildAll(rows: seq<Band>) returns (out: seq<Item>)
    requires NoEmptyRow(rows)
    ensures out == Rebuilt(rows, 0)
  {
    out := [];
    var i := 0;
    ghost var all := Rebuilt(rows, 0);
    while i < |rows|
      invariant 0 <= i <= |rows|
      invariant out + Rebuilt(rows, i) == all
    {
      var item, next := RebuildRow(rows, i);
      Seqs.Regroup(out, [item], Rebuilt(rows, next));
      out, i := out + [item], next;
    }
    assert Rebuilt(rows, i) == [];
  }

  /** `reconstructPageText`. */
  method ReconstructPage(lines: seq<Line>) returns (out: seq<Item>)
    ensures out == Page(lines)
    ensures exists starts :: AllRead(Rows(lines), out, starts) && starts[0] == 0
  {
    var rows := GroupIntoRows(Meaningful(lines));
    RowsOfAPage(lines);
    out := RebuildAll(rows);
    ghost var starts := ThePageReadsInOrder(lines);
  }
}
