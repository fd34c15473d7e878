/**
 * The four piece kinds and their move generation. The board passed in is a
 * read-only snapshot: a map from labels to an optional occupant.
 */
module Pieces {
  import opened Wrappers
  import opened Coordinates

  datatype Color = Tangerine | Amethyst

  datatype Kind = Narwhal | Marmoset | Okapi | Chinchilla

  /** A piece is a value; `position` is kept in step with its board key by the game. */
  datatype Piece = Piece(kind: Kind, color: Color, position: string)

  type Board = map<string, Option<Piece>>

  /** The occupant of `square`, with a missing key read as empty (dict.get). */
  function At(board: Board, square: string): Option<Piece>
  {
    if square in board then board[square] else None
  }

  /** True iff `other` is a piece of `me`'s colour; an empty square is never friendly. */
  predicate Friendly(me: Piece, other: Option<Piece>)
    ensures other.None? ==> !Friendly(me, other)
    ensures Friendly(me, other) ==> other.value.color == me.color
  {
    other.Some? && me.color == other.value.color
  }

  const DiagonalJumps: seq<(int, int)> := [(2, 2), (2, -2), (-2, 2), (-2, -2)]
  const Orthogonal: seq<(int, int)> := [(1, 0), (0, 1), (-1, 0), (0, -1)]
  const Diagonal: seq<(int, int)> := [(1, 1), (1, -1), (-1, 1), (-1, -1)]

  const MarmosetReach: nat := 4
  const ChinchillaReach: nat := 3

  /** The square `distance` steps of `step` away from (column, row). */
  function Ray(column: int, row: int, step: (int, int), distance: int): (int, int)
  {
    (column + step.0 * distance, row + step.1 * distance)
  }

  predicate OnBoard(p: (int, int))
  {
    CorrectBounds(p.0, p.1)
  }

  function Label(p: (int, int)): string
    requires OnBoard(p)
  {
    ToSquare(p.0, p.1)
  }

  // ---------------------------------------------------------------------------
  // Move generation as functions; `LegalMoveList` below computes the same lists
  // with the loops of the source.

  /** The square one offset of `step` away from (column, row). */
  function Landing(column: int, row: int, step: (int, int)): (int, int)
  {
    (column + step.0, row + step.1)
  }

  /** One jump by `step`: the landing square unless it is off the board or friendly. */
  function Jump(column: int, row: int, step: (int, int), me: Piece, board: Board): seq<string>
  {
    var p := Landing(column, row, step);
    if OnBoard(p) && !Friendly(me, At(board, Label(p))) then [Label(p)] else []
  }

  /** The jumps along every step of `steps`, in order. */
  function Jumps(column: int, row: int, steps: seq<(int, int)>, me: Piece, board: Board): seq<string>
  {
    if |steps| == 0 then []
    else Jump(column, row, steps[0], me, board) + Jumps(column, row, steps[1..], me, board)
  }

  /**
   * The slide along `step` from distance `distance` up to `reach`: empty squares
   * are taken and the slide goes on; the first occupied square is taken when it
   * holds an enemy, and the slide stops there either way.
   */
  function Slide(column: int, row: int, step: (int, int), distance: nat, reach: nat, me: Piece, board: Board): seq<string>
    decreases reach + 1 - distance
  {
    if distance > reach then []
    else
      var p := Ray(column, row, step, distance);
      if !OnBoard(p) then []
      else if At(board, Label(p)).None? then [Label(p)] + Slide(column, row, step, distance + 1, reach, me, board)
      else if !Friendly(me, At(board, Label(p))) then [Label(p)]
      else []
  }

  /** The slides along every step of `steps`, in order. */
  function Slides(column: int, row: int, steps: seq<(int, int)>, reach: nat, me: Piece, board: Board): seq<string>
  {
    if |steps| == 0 then []
    else Slide(column, row, steps[0], 1, reach, me, board) + Slides(column, row, steps[1..], reach, me, board)
  }

  /** The index pair of a piece whose position is a well-formed label. */
  function Coords(me: Piece): (p: (int, int))
    requires IsLabel(me.position)
    ensures OnBoard(p) && Label(p) == me.position
  {
    SquareOfIndex(me.position);
    ToIndex(me.position).value
  }

  /** `get_legal_moves`, dispatched on the kind of piece. */
  function LegalMoves(me: Piece, board: Board): seq<string>
    requires IsLabel(me.position)
  {
    var (c, r) := Coords(me);
    match me.kind
    case Narwhal => Jumps(c, r, DiagonalJumps, me, board) + Jumps(c, r, Orthogonal, me, board)
    case Marmoset => Slides(c, r, Diagonal, MarmosetReach, me, board) + Jumps(c, r, Orthogonal, me, board)
    case Okapi => Jumps(c, r, Orthogonal, me, board) + Jumps(c, r, Diagonal, me, board)
    case Chinchilla => Slides(c, r, Orthogonal, ChinchillaReach, me, board) + Jumps(c, r, Diagonal, me, board)
  }

  // ---------------------------------------------------------------------------
  // The loops of the source.

  lemma AppendAssociates<T>(a: seq<T>, b: seq<T>, c: seq<T>)
    ensures (a + b) + c == a + (b + c)
  {
  }

  lemma JumpsUnfold(column: int, row: int, steps: seq<(int, int)>, i: int, me: Piece, board: Board)
    requires 0 <= i < |steps|
    ensures Jumps(column, row, steps[i..], me, board)
         == Jump(column, row, steps[i], me, board) + Jumps(column, row, steps[i + 1..], me, board)
  {
    assert steps[i..][1..] == steps[i + 1..];
  }

  lemma SlidesUnfold(column: int, row: int, steps: seq<(int, int)>, i: int, reach: nat, me: Piece, board: Board)
    requires 0 <= i < |steps|
    ensures Slides(column, row, steps[i..], reach, me, board)
         == Slide(column, row, steps[i], 1, reach, me, board) + Slides(column, row, steps[i + 1..], reach, me, board)
  {
    assert steps[i..][1..] == steps[i + 1..];
  }

  /** The loop over single-offset moves shared by all four kinds. */
  method JumpMoves(column: int, row: int, steps: seq<(int, int)>, me: Piece, board: Board) returns (moves: seq<string>)
    ensures moves == Jumps(column, row, steps, me, board)
  {
    moves := [];
    for i := 0 to |steps|
      invariant moves + Jumps(column, row, steps[i..], me, board) == Jumps(column, row, steps, me, board)
    {
      ghost var before := moves;
      var step := steps[i];
      ghost var here := Jump(column, row, step, me, board);
      var newColumn, newRow := column + step.0, row + step.1;
      if CorrectBounds(newColumn, newRow) {
        var destination := ToSquare(newColumn, newRow);
        if !Friendly(me, At(board, destination)) {
          assert here == [destination];
          moves := moves + [destination];
        } else {
          assert here == [];
        }
      } else {
        assert here == [];
      }
      ghost var rest := Jumps(column, row, steps[i + 1..], me, board);
      assert moves == before + here;
      JumpsUnfold(column, row, steps, i, me, board);
      AppendAssociates(before, here, rest);
    }
    assert steps[|steps|..] == [];
  }

  /** The nested loop over directions and distances of the two sliding kinds. */
  method SlideMoves(column: int, row: int, steps: seq<(int, int)>, reach: nat, me: Piece, board: Board) returns (moves: seq<string>)
    ensures moves == Slides(column, row, steps, reach, me, board)
  {
    moves := [];
    for i := 0 to |steps|
      invariant moves + Slides(column, row, steps[i..], reach, me, board) == Slides(column, row, steps, reach, me, board)
    {
      var step := steps[i];
      ghost var before := moves;
      ghost var here := Slide(column, row, step, 1, reach, me, board);
      for distance := 1 to reach + 1
        invariant before + here == moves + Slide(column, row, step, distance, reach, me, board)
      {
        ghost var ahead := Slide(column, row, step, distance + 1, reach, me, board);
        var newColumn, newRow := column + step.0 * distance, row + step.1 * distance;
        if !CorrectBounds(newColumn, newRow) {
          assert moves == before + here;
          break;
        }
        var destination := ToSquare(newColumn, newRow);
        var occupant := At(board, destination);
        if occupant.None? {
          AppendAssociates(moves, [destination], ahead);
          moves := moves + [destination];
          continue;
        }
        if !Friendly(me, occupant) {
          moves := moves + [destination];
        }
        assert moves == before + here;
        break;
      }
      assert moves == before + here;
      ghost var rest := Slides(column, row, steps[i + 1..], reach, me, board);
      SlidesUnfold(column, row, steps, i, reach, me, board);
      AppendAssociates(before, here, rest);
    }
    assert steps[|steps|..] == [];
  }

  /** `get_legal_moves` of each kind: primary moves first, then the one-square secondary moves. */
  method LegalMoveList(me: Piece, board: Board) returns (moves: seq<string>)
    requires IsLabel(me.position)
    ensures moves == LegalMoves(me, board)
  {
    var p := ToIndex(me.position);
    var (c, r) := p.value;
    var primary, secondary;
    match me.kind {
      case Narwhal =>
        primary := JumpMoves(c, r, DiagonalJumps, me, board);
        secondary := JumpMoves(c, r, Orthogonal, me, board);
      case Marmoset =>
        primary := SlideMoves(c, r, Diagonal, MarmosetReach, me, board);
        secondary := JumpMoves(c, r, Orthogonal, me, board);
      case Okapi =>
        primary := JumpMoves(c, r, Orthogonal, me, board);
        secondary := JumpMoves(c, r, Diagonal, me, board);
      case Chinchilla =>
        primary := SlideMoves(c, r, Orthogonal, ChinchillaReach, me, board);
        secondary := JumpMoves(c, r, Diagonal, me, board);
    }
    moves := primary + secondary;
  }
}
