/**
 * The game: the board, the side to move and the outcome, the six-step move
 * validator and the move that applies a validated move.
 */
module Game {
  import opened Wrappers
  import opened Coordinates
  import opened Pieces
  import opened MoveFacts

  datatype GameState = Unfinished | TangerineWon | AmethystWon

  /** The state an `AnimalGame` holds, as a value. */
  datatype Snapshot = Snapshot(board: Board, turn: Color, state: GameState)

  /** The side that moves after `c`. */
  function Other(c: Color): (o: Color)
    ensures o != c
  {
    if c == Tangerine then Amethyst else Tangerine
  }

  /** The outcome when `c` captures the opposing Chinchilla. */
  function WonBy(c: Color): (s: GameState)
    ensures s != Unfinished
    ensures s == TangerineWon <==> c == Tangerine
  {
    if c == Tangerine then TangerineWon else AmethystWon
  }

  /** The board's keys are the 49 labels and each piece's position is its key. */
  ghost predicate WellFormed(board: Board)
  {
    board.Keys == Squares()
    && forall square :: square in board && board[square].Some? ==> board[square].value.position == square
  }

  /** The squares that hold a piece. */
  ghost function Occupied(board: Board): set<string>
  {
    set square | square in board && board[square].Some?
  }

  // ---------------------------------------------------------------------------
  // The starting layout.

  const HomeOrder: seq<Kind> := [Narwhal, Marmoset, Okapi, Chinchilla, Okapi, Marmoset, Narwhal]

  /** What the square (column, row) holds at the start: row 1 Tangerine, row 7 Amethyst, else empty. */
  function StartingCell(column: int, row: int): Option<Piece>
    requires CorrectBounds(column, row)
  {
    if row == 0 then Some(Piece(HomeOrder[column], Tangerine, ToSquare(column, row)))
    else if row == 6 then Some(Piece(HomeOrder[column], Amethyst, ToSquare(column, row)))
    else None
  }

  ghost predicate IsStartingBoard(board: Board)
  {
    board.Keys == Squares()
    && forall c, r :: CorrectBounds(c, r) ==> board[ToSquare(c, r)] == StartingCell(c, r)
  }

  // ---------------------------------------------------------------------------
  // The validator and the effect of a move, as functions of a snapshot.

  /**
   * `is_valid_move`: the game is unfinished, both labels are board keys, the
   * start square holds a piece of the side to move, the finish square is not
   * friendly, and it is one of the piece's legal moves.
   */
  predicate ValidMove(g: Snapshot, start: string, finish: string)
    requires WellFormed(g.board)
  {
    && g.state == Unfinished
    && start in g.board && finish in g.board
    && g.board[start].Some?
    && g.board[start].value.color == g.turn
    && !Friendly(g.board[start].value, g.board[finish])
    && (SquaresAreLabels(start);
        finish in LegalMoves(g.board[start].value, g.board))
  }

  /**
   * `make_move` after validation: the piece leaves `start` and lands on
   * `finish` with its position updated; a captured Chinchilla ends the game in
   * the mover's favour, and otherwise the turn passes.
   */
  function Apply(g: Snapshot, start: string, finish: string): Snapshot
    requires WellFormed(g.board) && ValidMove(g, start, finish)
  {
    var piece := g.board[start].value;
    var target := g.board[finish];
    var board := g.board[start := None][finish := Some(piece.(position := finish))];
    if target.Some? && target.value.kind == Chinchilla then
      Snapshot(board, g.turn, WonBy(piece.color))
    else
      Snapshot(board, Other(g.turn), g.state)
  }

  // ---------------------------------------------------------------------------
  // The game object.

  class AnimalGame {
    var board: Board
    var turn: Color
    var state: GameState

    ghost predicate Valid()
      reads this
    {
      WellFormed(board)
    }

    function View(): Snapshot
      reads this
    {
      Snapshot(board, turn, state)
    }

    /** A new game: the starting layout, Tangerine to move, unfinished. */
    constructor ()
      ensures Valid()
      ensures IsStartingBoard(board) && turn == Tangerine && state == Unfinished
    {
      board := map square | square in Squares() :: None;
      turn := Tangerine;
      state := Unfinished;
      new;
      assert Valid();
      StartingPositions();
    }

    /** Places both sides on their home rows, leaving every other square as it was. */
    method StartingPositions()
      requires Valid()
      modifies this`board
      ensures Valid()
      ensures board.Keys == Squares()
      ensures forall c, r :: CorrectBounds(c, r) ==>
        board[ToSquare(c, r)] == if r == 0 || r == 6 then StartingCell(c, r) else old(board)[ToSquare(c, r)]
    {
      for index := 0 to 7
        invariant board.Keys == Squares()
        invariant forall c, r :: CorrectBounds(c, r) ==>
          board[ToSquare(c, r)] == if r == 0 && c < index then StartingCell(c, r) else old(board)[ToSquare(c, r)]
      {
        var square := ToSquare(index, 0);
        board := board[square := Some(Piece(HomeOrder[index], Tangerine, square))];
        SquareOnlyAt(index, 0);
      }
      for index := 0 to 7
        invariant board.Keys == Squares()
        invariant forall c, r :: CorrectBounds(c, r) ==>
          board[ToSquare(c, r)] == if r == 0 || (r == 6 && c < index) then StartingCell(c, r) else old(board)[ToSquare(c, r)]
      {
        var square := ToSquare(index, 6);
        board := board[square := Some(Piece(HomeOrder[index], Amethyst, square))];
        SquareOnlyAt(index, 6);
      }
      HomeRowsKeepWellFormed(old(board), board);
    }

    /** `get_game_state`: once it is not Unfinished, no move is valid any more. */
    function GetGameState(): (s: GameState)
      reads this
      requires Valid()
      ensures s == state
      ensures s != Unfinished ==> forall start, finish :: !ValidMove(View(), start, finish)
    {
      state
    }

    /** The six checks of `is_valid_move`, in order, each rejecting at once. */
    method IsValidMove(start: string, finish: string) returns (ok: bool)
      requires Valid()
      ensures ok == ValidMove(View(), start, finish)
    {
      if state != Unfinished {
        return false;
      }
      if start !in board || finish !in board {
        return false;
      }
      var piece := board[start];
      if piece.None? {
        return false;
      }
      if piece.value.color != turn {
        return false;
      }
      var targetPiece := board[finish];
      if Friendly(piece.value, targetPiece) {
        return false;
      }
      SquaresAreLabels(start);
      var legalMoves := LegalMoveList(piece.value, board);
      return finish in legalMoves;
    }

    /** `make_move`: a rejected move changes nothing; an accepted one is `Apply`. */
    method MakeMove(start: string, finish: string) returns (ok: bool)
      requires Valid()
      modifies this
      ensures Valid()
      ensures ok == ValidMove(old(View()), start, finish)
      ensures ok ==> View() == Apply(old(View()), start, finish)
      ensures !ok ==> View() == old(View())
    {
      ok := IsValidMove(start, finish);
      if !ok {
        return;
      }
      ghost var before := View();
      var piece := board[start].value;
      var target := board[finish];
      board := board[start := None];
      board := board[finish := Some(piece.(position := finish))];
      if target.Some? && target.value.kind == Chinchilla {
        state := WonBy(piece.color);
      } else {
        turn := Other(turn);
      }
      ApplyKeepsWellFormed(before, start, finish);
      assert View() == Apply(before, start, finish);
    }
  }

  // ---------------------------------------------------------------------------
  // Lemmas.

  /** Filling the home rows with their starting pieces keeps every piece at its own key. */
  lemma HomeRowsKeepWellFormed(before: Board, after: Board)
    requires WellFormed(before) && after.Keys == Squares()
    requires forall c, r :: CorrectBounds(c, r) ==>
      after[ToSquare(c, r)] == if r == 0 || r == 6 then StartingCell(c, r) else before[ToSquare(c, r)]
    ensures WellFormed(after)
  {
    forall square | square in after && after[square].Some?
      ensures after[square].value.position == square
    {
      var c, r :| 0 <= c < 7 && 0 <= r < 7 && square == ToSquare(c, r);
    }
  }

  /** The label of (column, row) is the label of no other on-board pair. */
  lemma SquareOnlyAt(column: int, row: int)
    requires CorrectBounds(column, row)
    ensures forall c, r :: CorrectBounds(c, r) && ToSquare(c, r) == ToSquare(column, row) ==> c == column && r == row
  {
    forall c, r | CorrectBounds(c, r) && ToSquare(c, r) == ToSquare(column, row)
      ensures c == column && r == row
    {
      ToSquareInjective(c, r, column, row);
    }
  }

  lemma StartingBoardWellFormed(board: Board)
    requires IsStartingBoard(board)
    ensures WellFormed(board)
  {
    forall square | square in board && board[square].Some?
      ensures board[square].value.position == square
    {
      var c, r :| 0 <= c < 7 && 0 <= r < 7 && square == ToSquare(c, r);
    }
  }

  /** A valid move never starts and ends on the same square: the start square is friendly to its own piece. */
  lemma ValidMoveMoves(g: Snapshot, start: string, finish: string)
    requires WellFormed(g.board) && ValidMove(g, start, finish)
    ensures start != finish
  {
    var piece := g.board[start];
    assert Friendly(piece.value, piece);
  }

  /** After a move every piece's position is still its board key. */
  lemma ApplyKeepsWellFormed(g: Snapshot, start: string, finish: string)
    requires WellFormed(g.board) && ValidMove(g, start, finish)
    ensures WellFormed(Apply(g, start, finish).board)
  {
    ApplyFrame(g, start, finish);
  }

  /**
   * The frame of a move: the same 49 keys, the start square empty, the finish
   * square holding the moved piece with its position updated, every other
   * square unchanged.
   */
  lemma ApplyFrame(g: Snapshot, start: string, finish: string)
    requires WellFormed(g.board) && ValidMove(g, start, finish)
    ensures var after := Apply(g, start, finish).board;
      && after.Keys == g.board.Keys
      && after[start] == None
      && after[finish] == Some(g.board[start].value.(position := finish))
      && forall square :: square in g.board && square != start && square != finish ==> after[square] == g.board[square]
  {
    ValidMoveMoves(g, start, finish);
    var moved := g.board[start].value.(position := finish);
    assert Apply(g, start, finish).board == g.board[start := None][finish := Some(moved)];
    MoveFrame(g.board, start, finish, moved);
  }

  lemma MoveFrame(board: Board, start: string, finish: string, moved: Piece)
    requires start != finish && start in board && finish in board
    ensures var after := board[start := None][finish := Some(moved)];
      && after.Keys == board.Keys
      && after[start] == None
      && after[finish] == Some(moved)
      && forall square :: square in board && square != start && square != finish ==> after[square] == board[square]
  {
  }

  /**
   * Capturing a Chinchilla wins the game for the side to move and keeps the
   * turn; any other move passes the turn and leaves the game unfinished.
   */
  lemma ApplyOutcome(g: Snapshot, start: string, finish: string)
    requires WellFormed(g.board) && ValidMove(g, start, finish)
    ensures var after := Apply(g, start, finish);
      if g.board[finish].Some? && g.board[finish].value.kind == Chinchilla
      then after.state == WonBy(g.turn) && after.turn == g.turn
      else after.state == Unfinished && after.turn == Other(g.turn)
  {
  }

  /** After a move that captures no Chinchilla, no piece of the mover's colour may move. */
  lemma MoverWaits(g: Snapshot, start: string, finish: string)
    requires WellFormed(g.board) && ValidMove(g, start, finish)
    requires !(g.board[finish].Some? && g.board[finish].value.kind == Chinchilla)
    ensures WellFormed(Apply(g, start, finish).board)
    ensures Apply(g, start, finish).turn == Other(g.turn)
    ensures var after := Apply(g, start, finish);
      forall s, f :: s in after.board && after.board[s].Some? && after.board[s].value.color == g.turn ==> !ValidMove(after, s, f)
  {
    ApplyKeepsWellFormed(g, start, finish);
    ApplyOutcome(g, start, finish);
  }

  /** A move takes away one piece when it captures and none otherwise. */
  lemma ApplyPieceCount(g: Snapshot, start: string, finish: string)
    requires WellFormed(g.board) && ValidMove(g, start, finish)
    ensures |Occupied(Apply(g, start, finish).board)|
         == |Occupied(g.board)| - (if g.board[finish].Some? then 1 else 0)
  {
    ApplyFrame(g, start, finish);
    ValidMoveMoves(g, start, finish);
    var board := Apply(g, start, finish).board;
    OccupiedAfterMove(g.board, board, start, finish);
  }

  lemma OccupiedAfterMove(before: Board, after: Board, start: string, finish: string)
    requires start != finish && start in before && finish in before && before[start].Some?
    requires after.Keys == before.Keys && after[start].None? && after[finish].Some?
    requires forall square :: square in before && square != start && square != finish ==> after[square] == before[square]
    ensures |Occupied(after)| == |Occupied(before)| - (if before[finish].Some? then 1 else 0)
  {
    if before[finish].Some? {
      assert Occupied(after) == Occupied(before) - {start};
    } else {
      assert Occupied(after) == (Occupied(before) - {start}) + {finish};
    }
  }

  /** A captured Chinchilla leaves a finished game in which no move is valid. */
  lemma CaptureEndsGame(g: Snapshot, start: string, finish: string)
    requires WellFormed(g.board) && ValidMove(g, start, finish)
    requires g.board[finish].Some? && g.board[finish].value.kind == Chinchilla
    ensures WellFormed(Apply(g, start, finish).board)
    ensures forall s, f :: !ValidMove(Apply(g, start, finish), s, f)
  {
    ApplyKeepsWellFormed(g, start, finish);
  }

  /**
   * The validator against the movement table: a move is valid iff the game is
   * unfinished, the start square holds a piece of the side to move and the
   * table lets it reach the finish square. The key check on the finish square
   * and the friendly-square check add nothing to the last step.
   */
  lemma ValidMoveExact(g: Snapshot, start: string, finish: string)
    requires WellFormed(g.board)
    ensures ValidMove(g, start, finish)
        <==> && g.state == Unfinished
             && start in g.board && g.board[start].Some?
             && g.board[start].value.color == g.turn
             && (SquaresAreLabels(start); Reaches(g.board[start].value, g.board, finish))
  {
    if start in g.board && g.board[start].Some? {
      var piece := g.board[start].value;
      SquaresAreLabels(start);
      LegalMovesExact(piece, g.board, finish);
      if finish in LegalMoves(piece, g.board) {
        LegalMovesSafe(piece, g.board, finish);
      }
    }
  }

  lemma {:induction false} DistinctCard<T>(s: seq<T>)
    requires forall i, j :: 0 <= i < j < |s| ==> s[i] != s[j]
    ensures |set x | x in s| == |s|
  {
    if |s| > 0 {
      DistinctCard(s[1..]);
      assert (set x | x in s) == {s[0]} + (set x | x in s[1..]);
    }
  }

  /** The index `7 * c + r` splits back into `c` and `r`. */
  lemma SplitIndex(c: int, r: int, i: int)
    requires 0 <= c < 7 && 0 <= r < 7 && i == 7 * c + r
    ensures 0 <= i < 49 && i / 7 == c && i % 7 == r
  {
  }

  /** The board has exactly 49 squares. */
  lemma SquaresCount()
    ensures |Squares()| == 49
  {
    var all := seq(49, i requires 0 <= i < 49 => ToSquare(i / 7, i % 7));
    forall i, j | 0 <= i < j < 49
      ensures all[i] != all[j]
    {
      if all[i] == all[j] {
        ToSquareInjective(i / 7, i % 7, j / 7, j % 7);
      }
    }
    DistinctCard(all);
    forall square | square in Squares()
      ensures square in all
    {
      var c, r :| 0 <= c < 7 && 0 <= r < 7 && square == ToSquare(c, r);
      var i := 7 * c + r;
      SplitIndex(c, r, i);
      assert all[i] == square;
    }
    assert (set x | x in all) == Squares();
  }

  /** The starting layout fixes the whole board: 49 keys, Chinchillas on d1 and d7. */
  lemma StartingBoardShape(board: Board)
    requires IsStartingBoard(board)
    ensures |board| == 49
    ensures "d1" in board && board["d1"] == Some(Piece(Chinchilla, Tangerine, "d1"))
    ensures "d7" in board && board["d7"] == Some(Piece(Chinchilla, Amethyst, "d7"))
  {
    SquaresCount();
    assert board.Keys == Squares();
    assert ToSquare(3, 0) == "d1" && ToSquare(3, 6) == "d7";
  }

  /** Two boards in the starting layout are the same board. */
  lemma StartingBoardUnique(one: Board, other: Board)
    requires IsStartingBoard(one) && IsStartingBoard(other)
    ensures one == other
  {
    forall square | square in one
      ensures one[square] == other[square]
    {
      var c, r :| 0 <= c < 7 && 0 <= r < 7 && square == ToSquare(c, r);
    }
  }
}
