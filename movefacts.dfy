/**
 * A declarative account of where each kind may move, and the lemmas that the
 * generated move lists contain exactly those squares: on the board, never a
 * friendly square, slides cut off at the first occupied square, jumps blind to
 * the squares they pass over.
 */
module MoveFacts {
  import opened Coordinates
  import opened Pieces

  /** A jump by `step` from (column, row) lands on `square`, which is on the board and not friendly. */
  ghost predicate JumpHit(column: int, row: int, step: (int, int), me: Piece, board: Board, square: string)
  {
    OnBoard(Landing(column, row, step))
    && square == Label(Landing(column, row, step))
    && !Friendly(me, At(board, square))
  }

  /** Every square at distances from..distance-1 along `step` is on the board and empty. */
  ghost predicate ClearBefore(column: int, row: int, step: (int, int), from: int, distance: int, board: Board)
  {
    forall k :: from <= k < distance ==>
      OnBoard(Ray(column, row, step, k)) && At(board, Label(Ray(column, row, step, k))).None?
  }

  /**
   * A slide along `step`, starting at distance `from`, reaches `square` at
   * `distance`: within reach, every square before it empty, and the square
   * itself on the board and not friendly.
   */
  ghost predicate SlideHit(column: int, row: int, step: (int, int), from: int, distance: int, reach: int,
                           me: Piece, board: Board, square: string)
  {
    from <= distance <= reach
    && ClearBefore(column, row, step, from, distance, board)
    && OnBoard(Ray(column, row, step, distance))
    && square == Label(Ray(column, row, step, distance))
    && !Friendly(me, At(board, square))
  }

  ghost predicate JumpReach(column: int, row: int, steps: seq<(int, int)>, me: Piece, board: Board, square: string)
  {
    exists i :: 0 <= i < |steps| && JumpHit(column, row, steps[i], me, board, square)
  }

  ghost predicate SlideReach(column: int, row: int, steps: seq<(int, int)>, reach: int, me: Piece, board: Board, square: string)
  {
    exists i, d :: 0 <= i < |steps| && SlideHit(column, row, steps[i], 1, d, reach, me, board, square)
  }

  /** The movement table of the four kinds, stated declaratively. */
  ghost predicate Reaches(me: Piece, board: Board, square: string)
    requires IsLabel(me.position)
  {
    var (c, r) := Coords(me);
    match me.kind
    case Narwhal => JumpReach(c, r, DiagonalJumps, me, board, square) || JumpReach(c, r, Orthogonal, me, board, square)
    case Marmoset => SlideReach(c, r, Diagonal, MarmosetReach, me, board, square) || JumpReach(c, r, Orthogonal, me, board, square)
    case Okapi => JumpReach(c, r, Orthogonal, me, board, square) || JumpReach(c, r, Diagonal, me, board, square)
    case Chinchilla => SlideReach(c, r, Orthogonal, ChinchillaReach, me, board, square) || JumpReach(c, r, Diagonal, me, board, square)
  }

  // ---------------------------------------------------------------------------
  // Membership in the generated lists.

  /** The jumps along `steps` are exactly the landing squares of some step that pass the checks. */
  lemma {:induction false} JumpsMember(column: int, row: int, steps: seq<(int, int)>, me: Piece, board: Board, square: string)
    ensures square in Jumps(column, row, steps, me, board) <==> JumpReach(column, row, steps, me, board, square)
  {
    if |steps| > 0 {
      JumpsMember(column, row, steps[1..], me, board, square);
      if JumpReach(column, row, steps[1..], me, board, square) {
        var i :| 0 <= i < |steps[1..]| && JumpHit(column, row, steps[1..][i], me, board, square);
        assert JumpHit(column, row, steps[i + 1], me, board, square);
      }
      if JumpReach(column, row, steps, me, board, square) {
        var i :| 0 <= i < |steps| && JumpHit(column, row, steps[i], me, board, square);
        if i > 0 {
          assert JumpHit(column, row, steps[1..][i - 1], me, board, square);
        }
      }
    }
  }

  /** The slide from `from` contains exactly the squares some distance of it reaches. */
  lemma {:induction false} SlideMember(column: int, row: int, step: (int, int), from: nat, reach: nat,
                                       me: Piece, board: Board, square: string)
    ensures square in Slide(column, row, step, from, reach, me, board)
        <==> exists d :: SlideHit(column, row, step, from, d, reach, me, board, square)
    decreases reach + 1 - from
  {
    if from <= reach {
      var p := Ray(column, row, step, from);
      if OnBoard(p) {
        if At(board, Label(p)).None? {
          SlideMember(column, row, step, from + 1, reach, me, board, square);
          SlideHitAfterEmpty(column, row, step, from, reach, me, board, square, from + 1);
        } else if square == Label(p) && !Friendly(me, At(board, Label(p))) {
          assert SlideHit(column, row, step, from, from, reach, me, board, square);
        }
      }
    }
  }

  /** Past an empty square, a slide reaches that square and whatever the slide from the next distance reaches. */
  lemma SlideHitAfterEmpty(column: int, row: int, step: (int, int), from: nat, reach: nat,
                           me: Piece, board: Board, square: string, next: nat)
    requires from <= reach && next == from + 1
    requires OnBoard(Ray(column, row, step, from)) && At(board, Label(Ray(column, row, step, from))).None?
    ensures (exists d :: SlideHit(column, row, step, from, d, reach, me, board, square))
        <==> square == Label(Ray(column, row, step, from))
             || exists d :: SlideHit(column, row, step, next, d, reach, me, board, square)
  {
    if square == Label(Ray(column, row, step, from)) {
      assert SlideHit(column, row, step, from, from, reach, me, board, square);
    }
    if d :| SlideHit(column, row, step, next, d, reach, me, board, square) {
      assert SlideHit(column, row, step, from, d, reach, me, board, square);
    }
    if d :| SlideHit(column, row, step, from, d, reach, me, board, square) {
      if d > from {
        assert SlideHit(column, row, step, next, d, reach, me, board, square);
      }
    }
  }

  /** The slides along `steps` are exactly the squares some slide of theirs reaches. */
  lemma {:induction false} SlidesMember(column: int, row: int, steps: seq<(int, int)>, reach: nat,
                                        me: Piece, board: Board, square: string)
    ensures square in Slides(column, row, steps, reach, me, board) <==> SlideReach(column, row, steps, reach, me, board, square)
  {
    if |steps| > 0 {
      SlideMember(column, row, steps[0], 1, reach, me, board, square);
      SlidesMember(column, row, steps[1..], reach, me, board, square);
      if square in Slide(column, row, steps[0], 1, reach, me, board) {
        var d :| SlideHit(column, row, steps[0], 1, d, reach, me, board, square);
        assert 0 < |steps|;
      }
      if SlideReach(column, row, steps[1..], reach, me, board, square) {
        var i, d :| 0 <= i < |steps[1..]| && SlideHit(column, row, steps[1..][i], 1, d, reach, me, board, square);
        assert SlideHit(column, row, steps[i + 1], 1, d, reach, me, board, square);
      }
      if SlideReach(column, row, steps, reach, me, board, square) {
        var i, d :| 0 <= i < |steps| && SlideHit(column, row, steps[i], 1, d, reach, me, board, square);
        if i > 0 {
          assert SlideHit(column, row, steps[1..][i - 1], 1, d, reach, me, board, square);
        }
      }
    }
  }

  /** A Narwhal reaches the (2, 2) diagonal jumps and the one-square orthogonal steps. */
  lemma NarwhalMoves(me: Piece, board: Board, square: string)
    requires IsLabel(me.position) && me.kind == Narwhal
    ensures var (c, r) := Coords(me);
      square in LegalMoves(me, board)
      <==> JumpReach(c, r, DiagonalJumps, me, board, square) || JumpReach(c, r, Orthogonal, me, board, square)
  {
    var (c, r) := Coords(me);
    JumpsMember(c, r, DiagonalJumps, me, board, square);
    JumpsMember(c, r, Orthogonal, me, board, square);
  }

  /** A Marmoset reaches its diagonal slides of up to four squares and the one-square orthogonal steps. */
  lemma MarmosetMoves(me: Piece, board: Board, square: string)
    requires IsLabel(me.position) && me.kind == Marmoset
    ensures var (c, r) := Coords(me);
      square in LegalMoves(me, board)
      <==> SlideReach(c, r, Diagonal, 4, me, board, square) || JumpReach(c, r, Orthogonal, me, board, square)
  {
    var (c, r) := Coords(me);
    SlidesMember(c, r, Diagonal, MarmosetReach, me, board, square);
    JumpsMember(c, r, Orthogonal, me, board, square);
  }

  /** An Okapi reaches the one-square orthogonal and the one-square diagonal steps. */
  lemma OkapiMoves(me: Piece, board: Board, square: string)
    requires IsLabel(me.position) && me.kind == Okapi
    ensures var (c, r) := Coords(me);
      square in LegalMoves(me, board)
      <==> JumpReach(c, r, Orthogonal, me, board, square) || JumpReach(c, r, Diagonal, me, board, square)
  {
    var (c, r) := Coords(me);
    JumpsMember(c, r, Orthogonal, me, board, square);
    JumpsMember(c, r, Diagonal, me, board, square);
  }

  /** A Chinchilla reaches its orthogonal slides of up to three squares and the one-square diagonal steps. */
  lemma ChinchillaMoves(me: Piece, board: Board, square: string)
    requires IsLabel(me.position) && me.kind == Chinchilla
    ensures var (c, r) := Coords(me);
      square in LegalMoves(me, board)
      <==> SlideReach(c, r, Orthogonal, 3, me, board, square) || JumpReach(c, r, Diagonal, me, board, square)
  {
    var (c, r) := Coords(me);
    SlidesMember(c, r, Orthogonal, ChinchillaReach, me, board, square);
    JumpsMember(c, r, Diagonal, me, board, square);
  }

  /** The squares `get_legal_moves` returns are exactly those the movement table allows. */
  lemma LegalMovesExact(me: Piece, board: Board, square: string)
    requires IsLabel(me.position)
    ensures square in LegalMoves(me, board) <==> Reaches(me, board, square)
  {
    match me.kind {
      case Narwhal => NarwhalMoves(me, board, square);
      case Marmoset => MarmosetMoves(me, board, square);
      case Okapi => OkapiMoves(me, board, square);
      case Chinchilla => ChinchillaMoves(me, board, square);
    }
  }

  // ---------------------------------------------------------------------------
  // What the movement table guarantees.

  /** Every generated destination is a board label and never holds a piece of the mover's colour. */
  lemma LegalMovesSafe(me: Piece, board: Board, square: string)
    requires IsLabel(me.position)
    requires square in LegalMoves(me, board)
    ensures IsLabel(square) && square in Squares()
    ensures !Friendly(me, At(board, square))
  {
    var (c, r) := Coords(me);
    SquaresAreLabels(square);
    match me.kind {
      case Narwhal =>
        if square in Jumps(c, r, DiagonalJumps, me, board) { JumpsSafe(c, r, DiagonalJumps, me, board, square); }
        else { JumpsSafe(c, r, Orthogonal, me, board, square); }
      case Marmoset =>
        if square in Slides(c, r, Diagonal, MarmosetReach, me, board) { SlidesSafe(c, r, Diagonal, MarmosetReach, me, board, square); }
        else { JumpsSafe(c, r, Orthogonal, me, board, square); }
      case Okapi =>
        if square in Jumps(c, r, Orthogonal, me, board) { JumpsSafe(c, r, Orthogonal, me, board, square); }
        else { JumpsSafe(c, r, Diagonal, me, board, square); }
      case Chinchilla =>
        if square in Slides(c, r, Orthogonal, ChinchillaReach, me, board) { SlidesSafe(c, r, Orthogonal, ChinchillaReach, me, board, square); }
        else { JumpsSafe(c, r, Diagonal, me, board, square); }
    }
  }

  lemma JumpsSafe(column: int, row: int, steps: seq<(int, int)>, me: Piece, board: Board, square: string)
    requires square in Jumps(column, row, steps, me, board)
    ensures IsLabel(square) && !Friendly(me, At(board, square))
  {
    JumpsMember(column, row, steps, me, board, square);
  }

  lemma SlidesSafe(column: int, row: int, steps: seq<(int, int)>, reach: nat, me: Piece, board: Board, square: string)
    requires square in Slides(column, row, steps, reach, me, board)
    ensures IsLabel(square) && !Friendly(me, At(board, square))
  {
    SlidesMember(column, row, steps, reach, me, board, square);
  }

  /** A jump reaches a square only if the square lies at one of the jump offsets. */
  lemma JumpReachOffset(column: int, row: int, steps: seq<(int, int)>, me: Piece, board: Board, x: int, y: int)
    requires CorrectBounds(x, y)
    requires JumpReach(column, row, steps, me, board, ToSquare(x, y))
    ensures (x - column, y - row) in steps
  {
    var i :| 0 <= i < |steps| && JumpHit(column, row, steps[i], me, board, ToSquare(x, y));
    var p := Landing(column, row, steps[i]);
    ToSquareInjective(p.0, p.1, x, y);
  }

  /** Equal labels along a non-zero step come from equal distances. */
  lemma RayLabelInjective(column: int, row: int, step: (int, int), d: int, e: int)
    requires step != (0, 0)
    requires OnBoard(Ray(column, row, step, d)) && OnBoard(Ray(column, row, step, e))
    requires Label(Ray(column, row, step, d)) == Label(Ray(column, row, step, e))
    ensures d == e
  {
    var p, q := Ray(column, row, step, d), Ray(column, row, step, e);
    ToSquareInjective(p.0, p.1, q.0, q.1);
    if step.0 != 0 {
      assert step.0 * (d - e) == 0;
    } else {
      assert step.1 * (d - e) == 0;
    }
  }

  /** No square beyond the first occupied one along a direction is generated. */
  lemma SlideStopsAtFirstOccupied(column: int, row: int, step: (int, int), reach: nat, me: Piece, board: Board, k: int, j: int)
    requires step != (0, 0)
    requires 1 <= k < j
    requires OnBoard(Ray(column, row, step, k)) && At(board, Label(Ray(column, row, step, k))).Some?
    requires OnBoard(Ray(column, row, step, j))
    ensures Label(Ray(column, row, step, j)) !in Slide(column, row, step, 1, reach, me, board)
  {
    var square := Label(Ray(column, row, step, j));
    SlideMember(column, row, step, 1, reach, me, board, square);
    forall d | 1 <= d && OnBoard(Ray(column, row, step, d)) && Label(Ray(column, row, step, d)) == square
      ensures d == j
    {
      RayLabelInjective(column, row, step, d, j);
    }
  }

  /**
   * The first occupied square along a direction, when within reach, is
   * generated exactly when it holds an enemy piece.
   */
  lemma SlideTakesFirstOccupiedIffEnemy(column: int, row: int, step: (int, int), reach: nat, me: Piece, board: Board, k: int)
    requires step != (0, 0)
    requires 1 <= k <= reach
    requires ClearBefore(column, row, step, 1, k, board)
    requires OnBoard(Ray(column, row, step, k)) && At(board, Label(Ray(column, row, step, k))).Some?
    ensures Label(Ray(column, row, step, k)) in Slide(column, row, step, 1, reach, me, board)
        <==> !Friendly(me, At(board, Label(Ray(column, row, step, k))))
  {
    var square := Label(Ray(column, row, step, k));
    SlideMember(column, row, step, 1, reach, me, board, square);
    forall d | 1 <= d && OnBoard(Ray(column, row, step, d)) && Label(Ray(column, row, step, d)) == square
      ensures d == k
    {
      RayLabelInjective(column, row, step, d, k);
    }
    if !Friendly(me, At(board, square)) {
      assert SlideHit(column, row, step, 1, k, reach, me, board, square);
    }
  }

  /** A slide from distance `from` yields at most one square per remaining distance. */
  lemma {:induction false} SlideLength(column: int, row: int, step: (int, int), from: nat, reach: nat, me: Piece, board: Board)
    requires from <= reach + 1
    ensures |Slide(column, row, step, from, reach, me, board)| <= reach + 1 - from
    decreases reach + 1 - from
  {
    if from <= reach {
      SlideLength(column, row, step, from + 1, reach, me, board);
    }
  }

  lemma {:induction false} SlidesLength(column: int, row: int, steps: seq<(int, int)>, reach: nat, me: Piece, board: Board)
    ensures |Slides(column, row, steps, reach, me, board)| <= |steps| * reach
  {
    if |steps| > 0 {
      SlideLength(column, row, steps[0], 1, reach, me, board);
      SlidesLength(column, row, steps[1..], reach, me, board);
      assert |steps| * reach == reach + (|steps| - 1) * reach;
    }
  }

  lemma {:induction false} JumpsLength(column: int, row: int, steps: seq<(int, int)>, me: Piece, board: Board)
    ensures |Jumps(column, row, steps, me, board)| <= |steps|
  {
    if |steps| > 0 {
      JumpsLength(column, row, steps[1..], me, board);
    }
  }

  /**
   * The move list is short: four jumps or slides of at most the kind's reach
   * in each of four directions, and four one-square secondary moves.
   */
  lemma LegalMovesBound(me: Piece, board: Board)
    requires IsLabel(me.position)
    ensures |LegalMoves(me, board)| <= match me.kind
      case Narwhal => 8
      case Marmoset => 20
      case Okapi => 8
      case Chinchilla => 16
  {
    var (c, r) := Coords(me);
    JumpsLength(c, r, DiagonalJumps, me, board);
    JumpsLength(c, r, Orthogonal, me, board);
    JumpsLength(c, r, Diagonal, me, board);
    SlidesLength(c, r, Diagonal, MarmosetReach, me, board);
    SlidesLength(c, r, Orthogonal, ChinchillaReach, me, board);
  }

  /**
   * Jumps look only at their landing squares: two boards that agree there give
   * the same jumps, whatever lies in between.
   */
  lemma {:induction false} JumpsSeeOnlyLandings(column: int, row: int, steps: seq<(int, int)>, me: Piece, one: Board, other: Board)
    requires forall i :: 0 <= i < |steps| && OnBoard(Landing(column, row, steps[i])) ==>
      At(one, Label(Landing(column, row, steps[i]))) == At(other, Label(Landing(column, row, steps[i])))
    ensures Jumps(column, row, steps, me, one) == Jumps(column, row, steps, me, other)
  {
    if |steps| > 0 {
      JumpsSeeOnlyLandings(column, row, steps[1..], me, one, other);
    }
  }
}
