/** The envelope screen of app/envelope.tsx: a checkerboard background that
    covers the window, and a sheet of paper that slides out of the envelope
    when tapped and then opens the question screen. */
module Envelope {

  /** Side of one checker square, in pixels (CHECKER_SIZE). */
  const CHECKER_SIZE: int := 46

  const QUESTION_ROUTE: string := "/question"

  /** One painted square of the checkerboard. */
  datatype CheckerSquare = CheckerSquare(id: int, left: int, top: int)

  /** Math.ceil on exact reals. */
  function Ceil(x: real): (c: int)
    ensures x <= c as real < x + 1.0
  {
    -((-x).Floor)
  }

  /** The number of checker cells along an edge `extent` pixels long:
      enough to cover it, and one fewer would not. */
  function Cells(extent: real): (n: int)
    ensures n as real * CHECKER_SIZE as real >= extent
    ensures (n - 1) as real * CHECKER_SIZE as real < extent
  {
    Ceil(extent / CHECKER_SIZE as real)
  }

  /** How many times `for (i = 0; i < n; i += 1)` runs its body. */
  function Span(n: int): nat
  {
    if n < 0 then 0 else n
  }

  /** The square emitted for cell (row, column) of a grid `columns` wide:
      its id numbers the cell in row-major order from 1. */
  function Cell(row: int, column: int, columns: int): CheckerSquare
  {
    CheckerSquare(row * columns + column + 1, column * CHECKER_SIZE, row * CHECKER_SIZE)
  }

  /** The squares emitted for the first `count` cells of row `row`. */
  function RowSquares(row: nat, count: nat, columns: nat): seq<CheckerSquare>
  {
    if count == 0 then []
    else
      RowSquares(row, count - 1, columns)
      + (if (row + count - 1) % 2 == 0 then [Cell(row, count - 1, columns)] else [])
  }

  /** The squares emitted for the first `rows` rows of a grid `columns` wide. */
  function Board(rows: nat, columns: nat): seq<CheckerSquare>
  {
    if rows == 0 then [] else Board(rows - 1, columns) + RowSquares(rows - 1, columns, columns)
  }

  /** The checkerboard for a window `width` by `height` pixels, built row by
      row and column by column as the screen does, numbering every cell. */
  method BuildSquares(width: real, height: real) returns (items: seq<CheckerSquare>)
    ensures items == Board(Span(Cells(height)), Span(Cells(width)))
  {
    var columns := Cells(width);
    var rows := Cells(height);
    ghost var cols := Span(columns);
    items := [];
    var id := 0;
    var row := 0;
    while row < rows
      invariant 0 <= row <= Span(rows)
      invariant items == Board(row, cols)
      invariant id == row * cols
    {
      var column := 0;
      while column < columns
        invariant 0 <= column <= cols
        invariant items == Board(row, cols) + RowSquares(row, column, cols)
        invariant id == row * cols + column
      {
        if (row + column) % 2 == 0 {
          items := items + [CheckerSquare(id + 1, column * CHECKER_SIZE, row * CHECKER_SIZE)];
        }
        id := id + 1;
        column := column + 1;
      }
      MulSucc(row, cols);
      row := row + 1;
    }
  }

  /** The number of even-parity cells among the first `count` cells of row `row`. */
  function EvenInRow(row: nat, count: nat): nat
  {
    if count == 0 then 0 else EvenInRow(row, count - 1) + (if (row + count - 1) % 2 == 0 then 1 else 0)
  }

  /** The number of even-parity cells in a grid `rows` by `columns`. */
  function EvenCells(rows: nat, columns: nat): nat
  {
    if rows == 0 then 0 else EvenCells(rows - 1, columns) + EvenInRow(rows - 1, columns)
  }

  /** A row prefix emits one square per even-parity cell. */
  lemma {:induction false} RowLength(row: nat, count: nat, columns: nat)
    ensures |RowSquares(row, count, columns)| == EvenInRow(row, count)
  {
    if count > 0 {
      RowLength(row, count - 1, columns);
    }
  }

  /** A board emits one square per even-parity cell of its grid. */
  lemma {:induction false} BoardCount(rows: nat, columns: nat)
    ensures |Board(rows, columns)| == EvenCells(rows, columns)
  {
    if rows > 0 {
      BoardCount(rows - 1, columns);
      RowLength(rows - 1, columns, columns);
    }
  }

  /** Every other cell of a row has even parity, starting with the first
      cell on even rows and the second on odd rows. */
  lemma {:induction false} EvenInRowHalf(row: nat, count: nat)
    ensures EvenInRow(row, count) == if row % 2 == 0 then (count + 1) / 2 else count / 2
  {
    if count > 0 {
      EvenInRowHalf(row, count - 1);
    }
  }

  /** Two consecutive rows, one even and one odd, hold one even-parity cell
      per column: `pairs` such pairs hold `pairs * columns`. */
  lemma {:induction false} EvenCellsPairs(pairs: nat, columns: nat)
    ensures EvenCells(2 * pairs, columns) == pairs * columns
  {
    EvenCellsRepeat(pairs, columns);
    RepeatIsProduct(pairs, columns);
  }

  /** `count` added up `times` times, without multiplication. */
  function Repeat(times: nat, count: nat): nat
  {
    if times == 0 then 0 else Repeat(times - 1, count) + count
  }

  lemma {:induction false} RepeatIsProduct(times: nat, count: nat)
    ensures Repeat(times, count) == times * count
  {
    if times > 0 {
      RepeatIsProduct(times - 1, count);
      MulSucc(times - 1, count);
    }
  }

  lemma {:induction false} EvenCellsRepeat(pairs: nat, columns: nat)
    ensures EvenCells(2 * pairs, columns) == Repeat(pairs, columns)
  {
    if pairs > 0 {
      var r := 2 * pairs - 2;
      EvenCellsRepeat(pairs - 1, columns);
      assert EvenCells(r + 1, columns) == EvenCells(r, columns) + EvenInRow(r, columns);
      assert EvenCells(r + 2, columns) == EvenCells(r + 1, columns) + EvenInRow(r + 1, columns);
      AdjacentRows(r, columns);
    }
  }

  /** Of two cells side by side in a column, exactly one has even parity. */
  lemma {:induction false} AdjacentRows(row: nat, count: nat)
    ensures EvenInRow(row, count) + EvenInRow(row + 1, count) == count
  {
    if count > 0 {
      AdjacentRows(row, count - 1);
    }
  }

  /** A grid of `rows` by `columns` cells has (rows * columns + 1) / 2
      cells of even parity. */
  lemma {:induction false} EvenCellsHalf(rows: nat, columns: nat)
    ensures EvenCells(rows, columns) == (rows * columns + 1) / 2
  {
    var pairs := rows / 2;
    var cells := pairs * columns;
    EvenCellsPairs(pairs, columns);
    MulTwice(pairs, columns);
    if rows == 2 * pairs {
      HalveWithRest(cells, 0);
    } else {
      assert rows == 2 * pairs + 1;
      MulSucc(2 * pairs, columns);
      assert rows * columns == 2 * cells + columns;
      EvenInRowHalf(2 * pairs, columns);
      assert (2 * pairs) % 2 == 0;
      HalveWithRest(cells, columns);
    }
  }

  /** A board of `rows` by `columns` cells has (rows * columns + 1) / 2 squares. */
  lemma BoardLength(rows: nat, columns: nat)
    ensures |Board(rows, columns)| == (rows * columns + 1) / 2
  {
    BoardCount(rows, columns);
    EvenCellsHalf(rows, columns);
  }

  /** Halving, rounded up, `2 * k` cells and `c` more. */
  lemma HalveWithRest(k: int, c: nat)
    ensures (2 * k + c + 1) / 2 == k + (c + 1) / 2
  {
  }

  /** One more row of `c` cells adds `c` cells. */
  lemma MulSucc(r: nat, c: nat)
    ensures (r + 1) * c == r * c + c
  {
  }

  /** Twice as many rows hold twice as many cells. */
  lemma MulTwice(r: nat, c: nat)
    ensures (2 * r) * c == 2 * (r * c)
  {
  }

  /** Every square of a row prefix comes from an even-parity cell of that row. */
  lemma {:induction false} RowSound(row: nat, count: nat, columns: nat)
    ensures forall i :: 0 <= i < |RowSquares(row, count, columns)| ==>
              exists column :: 0 <= column < count && (row + column) % 2 == 0
                               && RowSquares(row, count, columns)[i] == Cell(row, column, columns)
  {
    if count > 0 {
      RowSound(row, count - 1, columns);
      var s := RowSquares(row, count, columns);
      var p := RowSquares(row, count - 1, columns);
      var last := if (row + count - 1) % 2 == 0 then [Cell(row, count - 1, columns)] else [];
      assert s == p + last;
      forall i | 0 <= i < |s|
        ensures exists column :: 0 <= column < count && (row + column) % 2 == 0
                                 && s[i] == Cell(row, column, columns)
      {
        if i < |p| {
          assert s[i] == p[i];
          var column :| 0 <= column < count - 1 && (row + column) % 2 == 0 && p[i] == Cell(row, column, columns);
          assert 0 <= column < count;
        } else {
          assert s[i] == Cell(row, count - 1, columns);
          assert (row + (count - 1)) % 2 == 0;
        }
      }
    } else {
      assert RowSquares(row, count, columns) == [];
    }
  }

  /** `square` is the one emitted for some even-parity cell of a grid
      `rows` by `columns`. */
  ghost predicate FromEvenCell(square: CheckerSquare, rows: int, columns: int)
  {
    exists row, column :: 0 <= row < rows && 0 <= column < columns && (row + column) % 2 == 0
                          && square == Cell(row, column, columns)
  }

  /** Every square of the board comes from an even-parity cell inside the
      grid, with the id, left and top of that cell. */
  lemma {:induction false} BoardSound(rows: nat, columns: nat)
    ensures forall i :: 0 <= i < |Board(rows, columns)| ==> FromEvenCell(Board(rows, columns)[i], rows, columns)
  {
    if rows > 0 {
      BoardSound(rows - 1, columns);
      RowSound(rows - 1, columns, columns);
      var b := Board(rows, columns);
      var p := Board(rows - 1, columns);
      var q := RowSquares(rows - 1, columns, columns);
      assert b == p + q;
      forall i | 0 <= i < |b| ensures FromEvenCell(b[i], rows, columns) {
        if i < |p| {
          assert FromEvenCell(p[i], rows - 1, columns);
          var row, column :| 0 <= row < rows - 1 && 0 <= column < columns && (row + column) % 2 == 0
                             && p[i] == Cell(row, column, columns);
          assert b[i] == Cell(row, column, columns);
        } else {
          var column :| 0 <= column < columns && (rows - 1 + column) % 2 == 0
                        && q[i - |p|] == Cell(rows - 1, column, columns);
          assert b[i] == Cell(rows - 1, column, columns);
        }
      }
    } else {
      assert Board(rows, columns) == [];
    }
  }

  /** Every even-parity cell of a row prefix has its square in it. */
  lemma {:induction false} RowComplete(row: nat, count: nat, columns: nat, column: nat)
    requires column < count && (row + column) % 2 == 0
    ensures Cell(row, column, columns) in RowSquares(row, count, columns)
  {
    if column < count - 1 {
      RowComplete(row, count - 1, columns, column);
    }
  }

  /** Every even-parity cell of the grid has its square on the board. */
  lemma {:induction false} BoardComplete(rows: nat, columns: nat, row: nat, column: nat)
    requires row < rows && column < columns && (row + column) % 2 == 0
    ensures Cell(row, column, columns) in Board(rows, columns)
  {
    assert Board(rows, columns) == Board(rows - 1, columns) + RowSquares(rows - 1, columns, columns);
    if row < rows - 1 {
      BoardComplete(rows - 1, columns, row, column);
    } else {
      RowComplete(row, columns, columns, column);
    }
  }

  /** Ids strictly increase along a sequence of squares. */
  ghost predicate IdsIncrease(s: seq<CheckerSquare>)
  {
    forall i, j :: 0 <= i < j < |s| ==> s[i].id < s[j].id
  }

  /** All ids of a sequence of squares lie in (low, high]. */
  ghost predicate IdsWithin(s: seq<CheckerSquare>, low: int, high: int)
  {
    forall i :: 0 <= i < |s| ==> low < s[i].id <= high
  }

  lemma ConcatIncrease(s: seq<CheckerSquare>, t: seq<CheckerSquare>, low: int, mid: int, high: int)
    requires low <= mid <= high
    requires IdsIncrease(s) && IdsWithin(s, low, mid)
    requires IdsIncrease(t) && IdsWithin(t, mid, high)
    ensures IdsIncrease(s + t) && IdsWithin(s + t, low, high)
  {
    var u := s + t;
    forall i | 0 <= i < |u| ensures low < u[i].id <= high {
      if i < |s| {
        assert u[i] == s[i];
      } else {
        assert u[i] == t[i - |s|];
      }
    }
    forall i, j | 0 <= i < j < |u| ensures u[i].id < u[j].id {
      if j < |s| {
        assert u[i] == s[i] && u[j] == s[j];
      } else if i < |s| {
        assert u[i] == s[i] && u[j] == t[j - |s|];
      } else {
        assert u[i] == t[i - |s|] && u[j] == t[j - |s|];
      }
    }
  }

  /** In a row prefix the ids increase and number the row's first cells. */
  lemma {:induction false} RowIds(row: nat, count: nat, columns: nat)
    requires count <= columns
    ensures IdsIncrease(RowSquares(row, count, columns))
    ensures IdsWithin(RowSquares(row, count, columns), row * columns, row * columns + count)
  {
    if count > 0 {
      RowIds(row, count - 1, columns);
      var last := if (row + count - 1) % 2 == 0 then [Cell(row, count - 1, columns)] else [];
      ConcatIncrease(RowSquares(row, count - 1, columns), last,
                     row * columns, row * columns + count - 1, row * columns + count);
    }
  }

  /** Ids increase strictly in emission order, so no two squares share an
      id, and they all lie in 1 .. rows * columns. */
  lemma {:induction false} BoardIds(rows: nat, columns: nat)
    ensures IdsIncrease(Board(rows, columns))
    ensures IdsWithin(Board(rows, columns), 0, rows * columns)
  {
    if rows > 0 {
      BoardIds(rows - 1, columns);
      RowIds(rows - 1, columns, columns);
      assert (rows - 1) * columns + columns == rows * columns;
      ConcatIncrease(Board(rows - 1, columns), RowSquares(rows - 1, columns, columns),
                     0, (rows - 1) * columns, rows * columns);
    }
  }

  /** No cell is painted twice: two squares of the board never sit at the
      same place. */
  lemma BoardNoRepeat(rows: nat, columns: nat)
    ensures forall i, j :: 0 <= i < j < |Board(rows, columns)| ==>
              Board(rows, columns)[i].left != Board(rows, columns)[j].left
              || Board(rows, columns)[i].top != Board(rows, columns)[j].top
  {
    var b := Board(rows, columns);
    BoardSound(rows, columns);
    BoardIds(rows, columns);
    forall i, j | 0 <= i < j < |b| ensures b[i].left != b[j].left || b[i].top != b[j].top {
      assert FromEvenCell(b[i], rows, columns) && FromEvenCell(b[j], rows, columns);
      var r1, c1 :| 0 <= r1 < rows && 0 <= c1 < columns && (r1 + c1) % 2 == 0 && b[i] == Cell(r1, c1, columns);
      var r2, c2 :| 0 <= r2 < rows && 0 <= c2 < columns && (r2 + c2) % 2 == 0 && b[j] == Cell(r2, c2, columns);
      assert b[i].id < b[j].id;
    }
  }

  /** The paper on the envelope: whether its slide-out animation runs, its
      animated offset and scale, and the routes pushed so far. */
  class EnvelopeScreen {
    var isAnimating: bool
    var paperTranslate: real
    var paperScale: real
    var navigation: seq<string>

    /** At rest the paper sits in the envelope at its natural size. */
    ghost predicate Valid()
      reads this
    {
      !isAnimating ==> paperTranslate == 0.0 && paperScale == 1.0
    }

    constructor ()
      ensures Valid()
      ensures !isAnimating && paperTranslate == 0.0 && paperScale == 1.0 && navigation == []
    {
      isAnimating := false;
      paperTranslate := 0.0;
      paperScale := 1.0;
      navigation := [];
    }

    /** A tap on the paper: ignored while the animation runs, otherwise the
        animation starts (the paper is then pulled out over 700 ms). */
    method HandlePaperPress()
      requires Valid()
      modifies this`isAnimating
      ensures Valid()
      ensures isAnimating
      ensures old(isAnimating) ==> unchanged(this)
    {
      if isAnimating {
        return;
      }
      isAnimating := true;
    }

    /** The animation's completion callback: open the question screen, put
        the paper back and accept taps again. */
    method PaperOutDone()
      requires Valid() && isAnimating
      modifies this
      ensures Valid()
      ensures navigation == old(navigation) + [QUESTION_ROUTE]
      ensures paperTranslate == 0.0 && paperScale == 1.0 && !isAnimating
    {
      navigation := navigation + [QUESTION_ROUTE];
      paperTranslate := 0.0;
      paperScale := 1.0;
      isAnimating := false;
    }
  }
}
