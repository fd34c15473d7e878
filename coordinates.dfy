/**
 * Square labels such as "b1" and the (column, row) index pairs they stand for.
 * Columns a-g are indices 0-6 left to right, rows 1-7 are indices 0-6.
 */
module Coordinates {
  import opened Wrappers

  const Columns: string := "abcdefg"
  const Rows: string := "1234567"

  /** True iff (column, row) lies on the 7x7 board. */
  predicate CorrectBounds(column: int, row: int)
  {
    0 <= column < 7 && 0 <= row < 7
  }

  /** The first position of `ch` in `s`, as string.index finds it; None where that raises. */
  function IndexOf(s: string, ch: char): (r: Option<nat>)
    ensures r.None? <==> ch !in s
    ensures r.Some? ==> r.value < |s| && s[r.value] == ch
    ensures r.Some? ==> forall j :: 0 <= j < r.value ==> s[j] != ch
  {
    if |s| == 0 then None
    else if s[0] == ch then Some(0)
    else match IndexOf(s[1..], ch)
      case None => None
      case Some(k) => Some(k + 1)
  }

  /**
   * The index pair of a label. Only the first two characters are read; None
   * stands for the IndexError or ValueError the lookup would raise.
   */
  function ToIndex(square: string): (r: Option<(int, int)>)
    ensures r.Some? <==> |square| >= 2 && square[0] in Columns && square[1] in Rows
    ensures r.Some? ==> CorrectBounds(r.value.0, r.value.1)
    ensures r.Some? ==> Columns[r.value.0] == square[0] && Rows[r.value.1] == square[1]
  {
    if |square| < 2 then None
    else match (IndexOf(Columns, square[0]), IndexOf(Rows, square[1]))
      case (Some(c), Some(r)) => Some((c as int, r as int))
      case _ => None
  }

  /** The label of an on-board index pair. */
  function ToSquare(column: int, row: int): (s: string)
    requires CorrectBounds(column, row)
    ensures |s| == 2 && s[0] in Columns && s[1] in Rows
  {
    [Columns[column], Rows[row]]
  }

  /** A well-formed label: a column letter followed by a row digit. */
  predicate IsLabel(s: string)
  {
    |s| == 2 && s[0] in Columns && s[1] in Rows
  }

  /** The 49 labels of the board. */
  function Squares(): set<string>
  {
    set c: int, r: int | 0 <= c < 7 && 0 <= r < 7 :: ToSquare(c, r)
  }

  lemma ColumnsDistinct(i: int, j: int)
    requires 0 <= i < 7 && 0 <= j < 7 && Columns[i] == Columns[j]
    ensures i == j
  {
  }

  lemma RowsDistinct(i: int, j: int)
    requires 0 <= i < 7 && 0 <= j < 7 && Rows[i] == Rows[j]
    ensures i == j
  {
  }

  /** Converting an on-board pair to a label and back gives the pair. */
  lemma IndexOfSquare(column: int, row: int)
    requires CorrectBounds(column, row)
    ensures ToIndex(ToSquare(column, row)) == Some((column, row))
  {
    var s := ToSquare(column, row);
    var r := ToIndex(s);
    ColumnsDistinct(r.value.0, column);
    RowsDistinct(r.value.1, row);
  }

  /** Converting a well-formed label to a pair and back gives the label. */
  lemma SquareOfIndex(s: string)
    requires IsLabel(s)
    ensures ToIndex(s).Some?
    ensures ToSquare(ToIndex(s).value.0, ToIndex(s).value.1) == s
  {
    var p := ToIndex(s).value;
    assert ToSquare(p.0, p.1) == [s[0], s[1]];
  }

  /** Distinct on-board pairs have distinct labels. */
  lemma ToSquareInjective(c1: int, r1: int, c2: int, r2: int)
    requires CorrectBounds(c1, r1) && CorrectBounds(c2, r2)
    requires ToSquare(c1, r1) == ToSquare(c2, r2)
    ensures c1 == c2 && r1 == r2
  {
    IndexOfSquare(c1, r1);
    IndexOfSquare(c2, r2);
  }

  /** `correct_bounds` holds exactly of the pairs that are the index of some label. */
  lemma BoundsAreLabelIndices(column: int, row: int)
    ensures CorrectBounds(column, row) <==> exists s :: IsLabel(s) && ToIndex(s) == Some((column, row))
  {
    if CorrectBounds(column, row) {
      IndexOfSquare(column, row);
      assert IsLabel(ToSquare(column, row));
    }
  }

  /** The board's keys are exactly the well-formed labels. */
  lemma SquaresAreLabels(s: string)
    ensures s in Squares() <==> IsLabel(s)
  {
    if IsLabel(s) {
      SquareOfIndex(s);
      var p := ToIndex(s).value;
      assert ToSquare(p.0, p.1) in Squares();
    }
  }
}
