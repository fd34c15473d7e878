# Animal game rules engine in Dafny

This project models the rules engine of a two-player game on a 7×7 board.
The two sides are Tangerine and Amethyst. Each side has seven pieces of four
kinds: Narwhal, Marmoset, Okapi and Chinchilla. The model covers:

- square labels such as `"b1"` and their (column, row) index pairs;
- move generation for the four kinds;
- the six-step move validator;
- the move itself, with capture, the win on a captured Chinchilla, and the
  change of turn;
- the fixed starting layout.

Modules:

- `Wrappers` (`wrappers.dfy`): the `Option` type. `None` marks an empty
  square.
- `Coordinates` (`coordinates.dfy`): `correct_bounds`, `to_index`,
  `to_square`, and their round-trip lemmas.
- `Pieces` (`pieces.dfy`): colours, kinds, pieces and the board, which is a
  `map` from labels to `Option<Piece>`. `At` reads a square the way
  `dict.get` does, with a missing key read as an empty square. Move generation is written out twice:
  - as recursive functions (`Jumps`, `Slide`, `Slides`, `LegalMoves`);
  - as the source's loops, with `break` and `continue` (`JumpMoves`,
    `SlideMoves`, `LegalMoveList`). Each loop method is proved equal to its
    function.
- `MoveFacts` (`movefacts.dfy`): a declarative statement of the movement
  table.
  - A jump lands on a square that is on the board and not friendly.
  - A slide reaches distance `d` when every square before `d` is empty.
  - The lemmas prove that the generated lists hold exactly the squares the
    table allows. They also prove the safety, slide-stop and size properties
    that follow.
- `Game` (`game.dfy`):
  - the game state machine as a class `AnimalGame` with mutable `board`,
    `turn` and `state`;
  - the validator and the effect of a move as functions of a value
    `Snapshot`;
  - lemmas about moves and about the starting layout.
- `Scenarios` (`scenarios.dfy`): concrete moves on the starting board.

The class methods are proved against the functions. `IsValidMove` returns
exactly `ValidMove(View(), …)`. `MakeMove` leaves the game unchanged when it
rejects a move and produces `Apply(old(View()), …)` when it accepts one. Two
`MakeMove` calls with the same rejected pair therefore leave the board, the
turn and the state as they were.

Two facts about the code that the model follows:

- In the home order of `starting_positions`, `d1` holds the Tangerine
  Chinchilla and `c1` the Tangerine Okapi. The Chinchilla's slide to `d3` is
  valid (`Scenarios.ChinchillaSlidesTwo`), and the Okapi's move from `c1` to
  `c3` is rejected (`Scenarios.OkapiCannotReachTwoAway`).
- `is_valid_move` checks that both labels have length 2 and that both are
  board keys. The model keeps only the key test: every key is a
  two-character label, so the key test implies the length test.

## Model

| member | source | states |
|---|---|---|
| `Coordinates.BoundsAreLabelIndices` | AnimalGame.py:14-18 | `correct_bounds(c, r)` holds exactly when (c, r) is the index pair of some well-formed label |
| `Coordinates.IndexOf` | AnimalGame.py:24-25 | `str.index`: the first position of the character, or None (the ValueError) exactly when the character is absent |
| `Coordinates.ToIndex` | AnimalGame.py:20-26 | defined exactly when the first two characters are a column letter and a row digit; the pair is in bounds and indexes those two characters |
| `Coordinates.ToSquare` | AnimalGame.py:28-32 | an on-board pair gives a two-character label over the column and row alphabets |
| `Coordinates.IndexOfSquare` | AnimalGame.py:20-32 | `to_index(to_square(c, r)) == (c, r)` for every in-bounds pair |
| `Coordinates.SquareOfIndex` | AnimalGame.py:20-32 | `to_square(to_index(s)) == s` for every well-formed label |
| `Coordinates.ToSquareInjective` | AnimalGame.py:28-32 | distinct on-board pairs have distinct labels |
| `Coordinates.SquaresAreLabels` | AnimalGame.py:234 | the 49 board keys are exactly the well-formed labels |
| `Pieces.Friendly` | AnimalGame.py:57-61 | an empty square is never friendly; a friendly occupant has the mover's colour |
| `Pieces.JumpMoves` | AnimalGame.py:78-97 | the loop over fixed offsets returns exactly the `Jumps` list, in order |
| `Pieces.SlideMoves` | AnimalGame.py:114-131 | the nested direction/distance loop with `break` and `continue` returns exactly the `Slides` list, in order |
| `Pieces.LegalMoveList` | AnimalGame.py:70-226 | each kind's `get_legal_moves` returns exactly `LegalMoves`: primary moves, then secondary moves |
| `MoveFacts.JumpsMember` | AnimalGame.py:79-86 | a square is among the jumps iff some offset lands on it on the board and it is not friendly |
| `MoveFacts.SlideMember` | AnimalGame.py:117-131 | a square is on one slide iff it lies at a distance within reach, every earlier square on that line is empty, and it is not friendly |
| `MoveFacts.SlidesMember` | AnimalGame.py:116-131 | a square is among the slides iff some direction's slide reaches it |
| `MoveFacts.NarwhalMoves` | AnimalGame.py:64-99 | a Narwhal's moves are exactly its (±2, ±2) jumps and one-square orthogonal steps |
| `MoveFacts.MarmosetMoves` | AnimalGame.py:101-144 | a Marmoset's moves are exactly its diagonal slides of up to 4 squares and one-square orthogonal steps |
| `MoveFacts.OkapiMoves` | AnimalGame.py:146-181 | an Okapi's moves are exactly its one-square orthogonal and one-square diagonal steps |
| `MoveFacts.ChinchillaMoves` | AnimalGame.py:183-226 | a Chinchilla's moves are exactly its orthogonal slides of up to 3 squares and one-square diagonal steps |
| `MoveFacts.LegalMovesExact` | AnimalGame.py:70-226 | the generated list contains a square iff the declarative movement table (`Reaches`) allows it |
| `MoveFacts.LegalMovesSafe` | AnimalGame.py:82-86 | every generated destination is a board label and never holds a piece of the mover's colour |
| `MoveFacts.JumpsSafe` | AnimalGame.py:93-97 | every jump destination is a label and not friendly |
| `MoveFacts.SlidesSafe` | AnimalGame.py:120-131 | every slide destination is a label and not friendly |
| `MoveFacts.JumpReachOffset` | AnimalGame.py:78-86 | a jump reaches only squares at one of its listed offsets |
| `MoveFacts.SlideStopsAtFirstOccupied` | AnimalGame.py:125-131 | no square beyond the first occupied square of a direction is generated |
| `MoveFacts.SlideTakesFirstOccupiedIffEnemy` | AnimalGame.py:125-131 | the first occupied square within reach is generated iff it holds an enemy piece |
| `MoveFacts.SlideLength` | AnimalGame.py:117 | a slide yields at most one square per distance, so at most `reach` squares |
| `MoveFacts.SlidesLength` | AnimalGame.py:116-117 | the slides of n directions yield at most n × reach squares |
| `MoveFacts.JumpsLength` | AnimalGame.py:79-86 | the jumps yield at most one square per offset |
| `MoveFacts.LegalMovesBound` | AnimalGame.py:70-226 | at most 8 (Narwhal, Okapi), 20 (Marmoset) and 16 (Chinchilla) moves |
| `MoveFacts.JumpsSeeOnlyLandings` | AnimalGame.py:78-86 | two boards that agree on the landing squares give the same jumps, whatever lies in between |
| `Game.Other` | AnimalGame.py:278 | the turn flips to the other colour |
| `Game.WonBy` | AnimalGame.py:274 | the winning state of the capturing colour is a finished state, `TANGERINE_WON` exactly for Tangerine |
| `Game.AnimalGame.constructor` | AnimalGame.py:230-237 | a new game has the starting layout, Tangerine to move and state Unfinished, and each piece's position is its key |
| `Game.AnimalGame.StartingPositions` | AnimalGame.py:239-248 | rows 1 and 7 receive the home order for their side; every other square keeps its content; a well-formed game stays well formed |
| `Game.HomeRowsKeepWellFormed` | AnimalGame.py:239-248 | filling the home rows of a well-formed board with their starting pieces keeps every piece at its own key |
| `Game.AnimalGame.GetGameState` | AnimalGame.py:250-254 | returns the state; once it is not Unfinished no move is valid |
| `Game.AnimalGame.IsValidMove` | AnimalGame.py:281-309 | the six checks in order: unfinished, both labels are keys, start occupied, the piece's colour is the turn, finish not friendly, finish among the legal moves; no state changes |
| `Game.AnimalGame.MakeMove` | AnimalGame.py:256-279 | returns whether the move is valid; if not, board, turn and state are unchanged; if so, the new state is `Apply` of the old one |
| `Game.ValidMoveMoves` | AnimalGame.py:302-305 | a valid move never ends on its own start square |
| `Game.ApplyKeepsWellFormed` | AnimalGame.py:264-270 | after a move the keys are still the 49 labels and each piece's position still equals its key |
| `Game.ApplyFrame` | AnimalGame.py:264-270 | the start square becomes empty, the finish square holds the moved piece with its new position, every other square is unchanged |
| `Game.ApplyOutcome` | AnimalGame.py:272-279 | capturing a Chinchilla sets the mover's won state and keeps the turn; any other move flips the turn and keeps Unfinished |
| `Game.MoverWaits` | AnimalGame.py:278-300 | after a move that captures no Chinchilla the turn passes to the other colour, and no piece of the mover's colour may move |
| `Game.ApplyPieceCount` | AnimalGame.py:264-270 | the number of pieces drops by one on a capture and is unchanged otherwise |
| `Game.CaptureEndsGame` | AnimalGame.py:272-287 | after a Chinchilla is captured, no later move is valid |
| `Game.ValidMoveExact` | AnimalGame.py:281-309 | a move is valid iff the game is unfinished and the start square holds a piece of the side to move that the movement table lets reach the finish; the key check on the finish square and the friendly check are implied |
| `Game.SquaresCount` | AnimalGame.py:234 | the board has exactly 49 squares |
| `Game.StartingBoardShape` | AnimalGame.py:234-248 | the starting board has 49 keys and the Chinchillas on d1 and d7 |
| `Game.StartingBoardUnique` | AnimalGame.py:230-248 | the starting layout determines the board completely, so the constructor's `IsStartingBoard` postcondition fixes every square of a new game |
| `Game.StartingBoardWellFormed` | AnimalGame.py:239-248 | every piece of the starting board sits at its own position |
| `Scenarios.MarmosetReachesE4` | AnimalGame.py:114-131 | a Marmoset of either colour on b1 has e4 among its moves when c2 and d3 are empty and e4 is not friendly |
| `Scenarios.MarmosetSlidesOverEmpty` | AnimalGame.py:281-309 | on any well-formed board, the Tangerine Marmoset on b1 may move to e4 when c2 and d3 are empty and e4 holds no Tangerine piece |
| `Scenarios.MarmosetOpensToE4` | AnimalGame.py:114-131 | from the start, the Marmoset on b1 may slide over c2 and d3 to e4 |
| `Scenarios.TangerineWaitsAfterOpening` | AnimalGame.py:298-300 | after b1–e4 Amethyst is to move and the Tangerine Okapi on c1 may not move |
| `Scenarios.OkapiMissesC3` | AnimalGame.py:159-179 | on every board, c3 is not among the moves of an Okapi of either colour on c1 |
| `Scenarios.OkapiCannotReachTwoAway` | AnimalGame.py:159-179 | from the start, the Okapi on c1 may not move to c3 |
| `Scenarios.ChinchillaReachesD3` | AnimalGame.py:197-213 | a Chinchilla of either colour on d1 has d3 among its moves when d2 is empty and d3 is not friendly |
| `Scenarios.ChinchillaSlidesOverEmpty` | AnimalGame.py:281-309 | on any well-formed board, the Tangerine Chinchilla on d1 may move to d3 when d2 is empty and d3 holds no Tangerine piece |
| `Scenarios.ChinchillaSlidesTwo` | AnimalGame.py:197-213 | from the start, the Chinchilla on d1 may slide to d3 |
| `Scenarios.NarwhalJumpToC3` | AnimalGame.py:77-86 | a Tangerine Narwhal on a1 may jump to c3 iff c3 holds no Tangerine piece, whatever stands on b2 |

## Left out

- Dynamic typing is not modelled. For example, `len()` on a non-string raises
  TypeError in the source. Labels here are always strings.
- `Piece.get_legal_moves` of the abstract base class is not modelled. It
  raises NotImplementedError. The kinds form a closed datatype, so every piece
  has a generator.
- `get_color` and `get_position` are not separate members. They are the
  `color` and `position` fields of the `Piece` datatype.
- Piece objects are values, so the model has no aliasing between the board
  dict and a piece's own `position`. The code keeps that `position` equal to
  the key; the `WellFormed` invariant states this, and `MakeMove` updates the
  moved piece's position.
- `Coordinates.ToSquare`: does not model Python's negative-index wrap-around
  (for example `columns[-1]` is `"g"`) or the IndexError for indices of 7 and
  over. It requires an in-bounds pair, which every caller checks first.
- `Pieces.LegalMoves` requires the piece's position to be a well-formed
  label. The source's `to_index` raises only on a position shorter than two
  characters or with a character outside the alphabets. A longer position
  such as `"b1z"` is read as `"b1"`. The model does not cover such positions.
  Every position on a well-formed board is a label, because `WellFormed` ties
  each position to its key.
- The generated move lists keep the source's order and duplicates. The
  properties are stated on membership only, which is all the validator uses.
- The model has no I/O, concurrency or floating point, because the source has
  none.
