/**
  Row-major walks over a rows x cols grid that keep the cells a
  predicate accepts, as a nested `for i { for j { ... continue ... } }`
  loop does. Kept apart from the arithmetic that decides which cells to
  keep.
 */
module Grid {

  /** Grid cell (i, j): row i counts latitude steps, column j longitude steps. */
  datatype Cell = Cell(row: nat, col: nat)

  /** Row-major order: i outer, j inner. */
  predicate RowMajorBefore(a: Cell, b: Cell)
  {
    a.row < b.row || (a.row == b.row && a.col < b.col)
  }

  predicate StrictlyRowMajor(cells: seq<Cell>)
  {
    forall a, b :: 0 <= a < b < |cells| ==> RowMajorBefore(cells[a], cells[b])
  }

  /** The kept cells of row i among columns 0 .. j-1, in column order. */
  function KeptInRow(keep: Cell -> bool, i: nat, j: nat): seq<Cell>
  {
    if j == 0 then []
    else KeptInRow(keep, i, j - 1) + if keep(Cell(i, j - 1)) then [Cell(i, j - 1)] else []
  }

  /** The kept cells of rows 0 .. i-1 of a grid `cols` wide, in row-major order. */
  function KeptInRows(keep: Cell -> bool, cols: nat, i: nat): seq<Cell>
  {
    if i == 0 then [] else KeptInRows(keep, cols, i - 1) + KeptInRow(keep, i - 1, cols)
  }

  /** One row: exactly the kept cells of its first j columns, in order, at most j of them. */
  lemma {:induction false} KeptInRowFacts(keep: Cell -> bool, i: nat, j: nat)
    ensures forall k :: 0 <= k < |KeptInRow(keep, i, j)| ==>
      KeptInRow(keep, i, j)[k].row == i && KeptInRow(keep, i, j)[k].col < j && keep(KeptInRow(keep, i, j)[k])
    ensures forall col: nat :: col < j && keep(Cell(i, col)) ==> Cell(i, col) in KeptInRow(keep, i, j)
    ensures StrictlyRowMajor(KeptInRow(keep, i, j))
    ensures |KeptInRow(keep, i, j)| <= j
  {
    if j > 0 {
      KeptInRowFacts(keep, i, j - 1);
      var r := KeptInRow(keep, i, j);
      var prev := KeptInRow(keep, i, j - 1);
      var c := Cell(i, j - 1);
      if keep(c) {
        assert r == prev + [c];
        forall col: nat | col < j && keep(Cell(i, col)) ensures Cell(i, col) in r {
          if col < j - 1 {
            assert Cell(i, col) in prev;
          } else {
            assert r[|prev|] == c;
          }
        }
      } else {
        assert r == prev;
      }
    }
  }

  /** The first i rows hold only kept cells of those rows. */
  lemma {:induction false} KeptInRowsSound(keep: Cell -> bool, cols: nat, i: nat)
    ensures forall k :: 0 <= k < |KeptInRows(keep, cols, i)| ==>
      KeptInRows(keep, cols, i)[k].row < i && KeptInRows(keep, cols, i)[k].col < cols && keep(KeptInRows(keep, cols, i)[k])
  {
    if i > 0 {
      KeptInRowsSound(keep, cols, i - 1);
      KeptInRowFacts(keep, i - 1, cols);
      var front, last := KeptInRows(keep, cols, i - 1), KeptInRow(keep, i - 1, cols);
      var r := front + last;
      forall k | 0 <= k < |r| ensures r[k].row < i && r[k].col < cols && keep(r[k]) {
        if k < |front| {
          assert r[k] == front[k];
        } else {
          assert r[k] == last[k - |front|];
        }
      }
    }
  }

  /** Every kept cell of the first i rows is among them. */
  lemma {:induction false} KeptInRowsComplete(keep: Cell -> bool, cols: nat, i: nat)
    ensures forall c: Cell :: c.row < i && c.col < cols && keep(c) ==> c in KeptInRows(keep, cols, i)
  {
    if i > 0 {
      KeptInRowsComplete(keep, cols, i - 1);
      KeptInRowFacts(keep, i - 1, cols);
      var front, last := KeptInRows(keep, cols, i - 1), KeptInRow(keep, i - 1, cols);
      forall c: Cell | c.row < i && c.col < cols && keep(c) ensures c in front + last {
        if c.row < i - 1 {
          assert c in front;
        } else {
          assert c == Cell(i - 1, c.col);
          assert c in last;
        }
      }
    }
  }

  /** The first i rows are listed in strictly increasing row-major order. */
  lemma {:induction false} KeptInRowsOrdered(keep: Cell -> bool, cols: nat, i: nat)
    ensures StrictlyRowMajor(KeptInRows(keep, cols, i))
  {
    if i > 0 {
      KeptInRowsOrdered(keep, cols, i - 1);
      KeptInRowsSound(keep, cols, i - 1);
      KeptInRowFacts(keep, i - 1, cols);
      var front, last := KeptInRows(keep, cols, i - 1), KeptInRow(keep, i - 1, cols);
      var r := front + last;
      forall a, b | 0 <= a < b < |r| ensures RowMajorBefore(r[a], r[b]) {
        if b < |front| {
          assert r[a] == front[a] && r[b] == front[b];
        } else if a < |front| {
          assert r[a] == front[a] && r[b] == last[b - |front|];
        } else {
          assert r[a] == last[a - |front|] && r[b] == last[b - |front|];
        }
      }
    }
  }

  /** The first i rows hold at most i * cols cells. */
  lemma {:induction false} KeptInRowsCount(keep: Cell -> bool, cols: nat, i: nat)
    ensures |KeptInRows(keep, cols, i)| <= i * cols
  {
    if i > 0 {
      KeptInRowsCount(keep, cols, i - 1);
      KeptInRowFacts(keep, i - 1, cols);
      assert (i - 1) * cols + cols == i * cols;
    }
  }
}
