/** Concrete openings on the starting board. */
module Scenarios {
  import opened Wrappers
  import opened Coordinates
  import opened Pieces
  import opened MoveFacts
  import opened Game

  /** The Marmoset's diagonal slide from b1 passes the empty c2 and d3 and reaches e4. */
  lemma MarmosetReachesE4(me: Piece, board: Board)
    requires me.kind == Marmoset && me.position == "b1"
    requires At(board, "c2").None? && At(board, "d3").None? && !Friendly(me, At(board, "e4"))
    ensures IsLabel(me.position) && "e4" in LegalMoves(me, board)
  {
    assert ToSquare(1, 0) == "b1" && ToSquare(2, 1) == "c2" && ToSquare(3, 2) == "d3" && ToSquare(4, 3) == "e4";
    var p := Coords(me);
    ToSquareInjective(p.0, p.1, 1, 0);
    var diagonal := Diagonal[0];
    assert diagonal == (1, 1);
    assert Ray(1, 0, diagonal, 1) == (2, 1) && Ray(1, 0, diagonal, 2) == (3, 2) && Ray(1, 0, diagonal, 3) == (4, 3);
    forall k | 1 <= k < 3
      ensures OnBoard(Ray(1, 0, diagonal, k)) && At(board, Label(Ray(1, 0, diagonal, k))).None?
    {
      assert k == 1 || k == 2;
    }
    assert ClearBefore(1, 0, diagonal, 1, 3, board);
    assert OnBoard(Ray(1, 0, diagonal, 3));
    assert "e4" == Label(Ray(1, 0, diagonal, 3));
    assert !Friendly(me, At(board, "e4"));
    assert SlideHit(1, 0, diagonal, 1, 3, MarmosetReach, me, board, "e4");
    MarmosetMoves(me, board, "e4");
  }

  /** A Tangerine Marmoset on b1 may slide to e4 whenever c2 and d3 are empty and e4 is not Tangerine. */
  lemma MarmosetSlidesOverEmpty(board: Board)
    requires WellFormed(board)
    requires At(board, "b1") == Some(Piece(Marmoset, Tangerine, "b1"))
    requires At(board, "c2").None? && At(board, "d3").None?
    requires !(At(board, "e4").Some? && At(board, "e4").value.color == Tangerine)
    ensures ValidMove(Snapshot(board, Tangerine, Unfinished), "b1", "e4")
  {
    var me := board["b1"].value;
    SquaresAreLabels("e4");
    assert "e4" in board;
    assert !Friendly(me, board["e4"]);
    MarmosetReachesE4(me, board);
  }

  /** From the start, the Marmoset on b1 may slide three squares to e4 over the empty c2 and d3. */
  lemma MarmosetOpensToE4(board: Board)
    requires IsStartingBoard(board)
    ensures WellFormed(board) && ValidMove(Snapshot(board, Tangerine, Unfinished), "b1", "e4")
  {
    StartingBoardWellFormed(board);
    assert ToSquare(1, 0) == "b1" && ToSquare(2, 1) == "c2" && ToSquare(3, 2) == "d3" && ToSquare(4, 3) == "e4";
    MarmosetSlidesOverEmpty(board);
  }

  /** After that opening Amethyst is to move, so no Tangerine piece may move. */
  lemma TangerineWaitsAfterOpening(board: Board)
    requires IsStartingBoard(board)
    ensures WellFormed(board) && ValidMove(Snapshot(board, Tangerine, Unfinished), "b1", "e4")
    ensures var after := Apply(Snapshot(board, Tangerine, Unfinished), "b1", "e4");
      && after.turn == Amethyst && after.state == Unfinished
      && WellFormed(after.board)
      && forall finish :: !ValidMove(after, "c1", finish)
  {
    assert ToSquare(2, 0) == "c1" && ToSquare(4, 3) == "e4";
    assert board["c1"].Some? && board["c1"].value.color == Tangerine && board["e4"].None?;
    assert "e4" != "b1" && "c1" != "b1" && "c1" != "e4";
    MarmosetOpensToE4(board);
    var g := Snapshot(board, Tangerine, Unfinished);
    ApplyFrame(g, "b1", "e4");
    MoverWaits(g, "b1", "e4");
  }

  /** An Okapi of either colour on c1 never has c3 among its moves, whatever the board holds. */
  lemma OkapiMissesC3(me: Piece, board: Board)
    requires me.kind == Okapi && me.position == "c1"
    ensures IsLabel(me.position) && "c3" !in LegalMoves(me, board)
  {
    assert ToSquare(2, 0) == "c1" && ToSquare(2, 2) == "c3";
    var p := Coords(me);
    ToSquareInjective(p.0, p.1, 2, 0);
    assert (0, 2) !in Orthogonal && (0, 2) !in Diagonal;
    if JumpReach(2, 0, Orthogonal, me, board, "c3") {
      JumpReachOffset(2, 0, Orthogonal, me, board, 2, 2);
    }
    if JumpReach(2, 0, Diagonal, me, board, "c3") {
      JumpReachOffset(2, 0, Diagonal, me, board, 2, 2);
    }
    OkapiMoves(me, board, "c3");
  }

  /** From the start, the Okapi on c1 may not move to c3. */
  lemma OkapiCannotReachTwoAway(board: Board)
    requires IsStartingBoard(board)
    ensures WellFormed(board) && !ValidMove(Snapshot(board, Tangerine, Unfinished), "c1", "c3")
  {
    StartingBoardWellFormed(board);
    assert ToSquare(2, 0) == "c1";
    OkapiMissesC3(board["c1"].value, board);
  }

  /** The Chinchilla's upward slide from d1 passes the empty d2 and reaches d3. */
  lemma ChinchillaReachesD3(me: Piece, board: Board)
    requires me.kind == Chinchilla && me.position == "d1"
    requires At(board, "d2").None? && !Friendly(me, At(board, "d3"))
    ensures IsLabel(me.position) && "d3" in LegalMoves(me, board)
  {
    assert ToSquare(3, 0) == "d1" && ToSquare(3, 1) == "d2" && ToSquare(3, 2) == "d3";
    var p := Coords(me);
    ToSquareInjective(p.0, p.1, 3, 0);
    var up := Orthogonal[1];
    assert up == (0, 1);
    assert Ray(3, 0, up, 1) == (3, 1) && Ray(3, 0, up, 2) == (3, 2);
    forall k | 1 <= k < 2
      ensures OnBoard(Ray(3, 0, up, k)) && At(board, Label(Ray(3, 0, up, k))).None?
    {
      assert k == 1;
    }
    assert ClearBefore(3, 0, up, 1, 2, board);
    assert OnBoard(Ray(3, 0, up, 2));
    assert "d3" == Label(Ray(3, 0, up, 2));
    assert SlideHit(3, 0, up, 1, 2, ChinchillaReach, me, board, "d3");
    ChinchillaMoves(me, board, "d3");
  }

  /** A Tangerine Chinchilla on d1 may slide to d3 whenever d2 is empty and d3 is not Tangerine. */
  lemma ChinchillaSlidesOverEmpty(board: Board)
    requires WellFormed(board)
    requires At(board, "d1") == Some(Piece(Chinchilla, Tangerine, "d1"))
    requires At(board, "d2").None?
    requires !(At(board, "d3").Some? && At(board, "d3").value.color == Tangerine)
    ensures ValidMove(Snapshot(board, Tangerine, Unfinished), "d1", "d3")
  {
    var me := board["d1"].value;
    SquaresAreLabels("d3");
    assert "d3" in board;
    assert !Friendly(me, board["d3"]);
    ChinchillaReachesD3(me, board);
  }

  /** The piece on d1 is the Chinchilla, and its orthogonal slide does reach d3. */
  lemma ChinchillaSlidesTwo(board: Board)
    requires IsStartingBoard(board)
    ensures WellFormed(board) && ValidMove(Snapshot(board, Tangerine, Unfinished), "d1", "d3")
  {
    StartingBoardWellFormed(board);
    assert ToSquare(3, 0) == "d1" && ToSquare(3, 1) == "d2" && ToSquare(3, 2) == "d3";
    ChinchillaSlidesOverEmpty(board);
  }

  /**
   * A Tangerine Narwhal on a1 may jump to c3 exactly when c3 does not hold a
   * Tangerine piece, whatever stands on b2.
   */
  lemma NarwhalJumpToC3(board: Board)
    requires WellFormed(board)
    requires At(board, "a1") == Some(Piece(Narwhal, Tangerine, "a1"))
    ensures ValidMove(Snapshot(board, Tangerine, Unfinished), "a1", "c3")
        <==> !(At(board, "c3").Some? && At(board, "c3").value.color == Tangerine)
  {
    assert ToSquare(0, 0) == "a1" && ToSquare(2, 2) == "c3";
    var me := board["a1"].value;
    var p := Coords(me);
    ToSquareInjective(p.0, p.1, 0, 0);
    NarwhalMoves(me, board, "c3");
    SquaresAreLabels("c3");
    if !Friendly(me, At(board, "c3")) {
      assert DiagonalJumps[0] == (2, 2);
      assert JumpHit(0, 0, DiagonalJumps[0], me, board, "c3");
    }
  }
}
