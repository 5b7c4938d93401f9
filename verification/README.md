# Eight queens: a Dafny model of the board, checker and solver

This project models the core of `eight-queens-rs`, a Rust crate for the
eight queens puzzle, and proves properties of the model. Dafny verifies it.

- **Positions** are `(x, y)` pairs, i.e. (column, row), on a board of size
  `(width, height)`.
- **Attack geometry** (`queen.dfy`): a queen contests the squares of its
  column, its row and its two diagonals, clipped to the board. This covers
  the six direction helpers and `get_queen_moves`, plus the sorted,
  de-duplicated union over all queens (`get_contested_spaces`).
- **Dense board** (`board.dfy`): a class with `width`, `height` and a
  `squares` array indexed by `row * width + col`. `AddQueen` writes one
  square in place. The queen positions are read back from the array.
- **Building a board** (`board_from_pos_iter.dfy`): start from the default
  8 by 8 board and add a queen per listed position.
- **Uncontested squares** (`board_uncontested_spaces.dfy`): the squares of
  the board that no queen contests.
- **Coordinate transforms** (`board_reflect.dfy`, `board_rotate.dfy`):
  the three reflections, their set-level versions over queen positions,
  and a 90-degree rotation of one coordinate.
- **Text rendering** (`board_to_string.dfy`): a bordered character grid,
  top row first.
- **Checker** (`checker_board_has_conflict.dfy`, `check_result.dfy`,
  `checker.dfy`):
  - the conflict test counts moves: the sum of the move-set sizes is
    compared with the size of their union;
  - the `CheckResult` record has a derived lexicographic order;
  - `check_board` builds that record.
- **Solver** (`solution_state*.dfy`, `solver.dfy`):
  - the solver's per-board record (`SolutionState`);
  - its conflict and solved tests;
  - the successors of a board: one fresh board per uncontested square, each
    a copy with one more queen.

A board's queen positions are a Rust `HashSet`. The model lists them as a
sequence without repeats, in the order of the squares vector. Every
property proved about them depends only on which positions are listed, and
order-independence lemmas say so where it matters.

The model follows the code wherever the code disagrees with its tests or
its doc comments. The disagreements are proved as lemmas.
- The counting rule reports a conflict for every board with two or more
  queens, so the checker never reports a board solved. The tests expect
  otherwise.
- The solver's conflict test is `true` exactly when every queen stands on an
  uncontested square, so on a real board it is always `false`. Its doc
  comment promises a test for queens that could move onto one another's
  square.
- The expected order in the sorting test is descending, but the derived
  order sorts ascending.
- Two of the rotation test's expectations are not what the rotation
  computes.

## Model

| member | source | states |
|---|---|---|
| Position.SortDedup | src/queen/mod.rs:38-39 | `sort()` then `dedup()`: the result is strictly ascending (sorted, no repeats) and holds exactly the input's positions |
| Queen.VertMoves | src/queen/mod.rs:45-47 | one square per row of the board; `VertMember` characterises its squares |
| Queen.HorizMoves | src/queen/mod.rs:51-53 | one square per column of the board; `HorizMember` characterises its squares |
| Queen.NwMoves | src/queen/mod.rs:57-62 | empty iff the queen's row is off the board, and otherwise it starts on the queen's square; `NwMember` characterises its squares |
| Queen.NeMoves | src/queen/mod.rs:66-71 | empty iff the queen is off the board, and otherwise it starts on the queen's square; `NeMember` characterises its squares |
| Queen.SwMoves | src/queen/mod.rs:75-80 | never empty, and it starts on the queen's square; `SwMember` characterises its squares |
| Queen.SeMoves | src/queen/mod.rs:84-89 | empty iff the queen's column is off the board, and otherwise it starts on the queen's square; `SeMember` characterises its squares |
| Queen.VertMember | src/queen/mod.rs:45-47 | a square is a vertical move iff it is in the queen's column and below the height |
| Queen.HorizMember | src/queen/mod.rs:51-53 | a square is a horizontal move iff it is in the queen's row and left of the width |
| Queen.NwMember | src/queen/mod.rs:57-62 | the up-left moves are the squares on the queen's anti-diagonal, at or left of it, below the height; `dims.1 - pos.1` must not underflow |
| Queen.NeMember | src/queen/mod.rs:66-71 | the up-right moves are the squares on the queen's diagonal, at or right of it, inside the board; both subtractions must not underflow |
| Queen.SwMember | src/queen/mod.rs:75-80 | the down-left moves are the squares on the queen's diagonal at or left of it; the `min` keeps both subtractions non-negative |
| Queen.SeMember | src/queen/mod.rs:84-89 | the down-right moves are the squares on the queen's anti-diagonal, at or right of it, left of the width |
| Queen.QueenMoves | src/queen/mod.rs:26-41 | the moves are strictly ascending, and a square is a move iff it is in one of the six direction lists |
| Queen.QueenMovesSpec | src/queen/mod.rs:26-89 | for a queen on the board: a square is a move iff it is on the board and shares the queen's column, row, `x - y` or `x + y` |
| Queen.QueenMovesInBounds | src/queen/mod.rs:57-89 | every move of a queen on the board is on the board |
| Queen.OwnSquareContested | src/queen/mod.rs:26-47 | a queen's own square is among its moves |
| Queen.QueenMoveSets | src/queen/mod.rs:17-22 | one move list per queen, in order, each that queen's moves |
| Queen.Flatten | src/queen/mod.rs:7-10 | a square is in the flattened list iff it is in one of the lists |
| Queen.ContestedSpaces | src/queen/mod.rs:6-14 | the contested squares are strictly ascending, and a square is contested iff it is a move of some queen |
| Queen.ContestedMonotone | src/queen/mod.rs:6-14 | adding a queen keeps every contested square contested and contests all the new queen's moves |
| Queen.ContestedSpacesSpec | src/queen/mod.rs:6-89 | for queens on the board: a square is contested iff it is on the board and shares a line with some queen |
| QueenTests.QueenMovesFrom22 | src/queen/mod.rs:119-152 | on 8 by 8, the moves from (2, 2) are exactly the 26 listed squares, in order |
| QueenTests.QueenMovesFrom77 | src/queen/mod.rs:166-195 | on 8 by 8, the moves from (7, 7) are exactly the 22 listed squares, in order |
| QueenTests.ContestedByTwo | src/queen/mod.rs:6-22 | for two queens, a square is contested iff it is a move of either |
| QueenTests.ContestedFromBottomCorners | src/queen/mod.rs:209-257 | queens at (0, 0) and (7, 0) contest exactly the 34 listed squares, in order |
| Boards.IndexPos | src/board/mod.rs:49-51 | the position of index `i` has column below the width, and `row * width + col` gives `i` back |
| Boards.CountQueens | src/board/mod.rs:39-41 | the count is the number of indices holding `Queen`, at most the vector's length |
| Boards.QueenListing | src/board/board_queens.rs:14-19 | the positions list one entry per `Queen` square, without repeats, and `p` is listed iff some `Queen` index maps to `p` |
| Boards.AddQueenCount | src/board/board_queens.rs:8-11 | writing `Queen` at `i` raises the count by 1 if that square was `Empty`, otherwise leaves it |
| Boards.AddQueenPositions | src/board/board_queens.rs:8-19 | writing `Queen` at `i` adds exactly the position of `i` to the queen positions |
| Boards.AddQueenIdempotent | src/board/board_queens.rs:10 | writing `Queen` twice on one square equals writing it once |
| Boards.Board.New | src/board/mod.rs:15-26 | the default board is 8 by 8 with `width * height` squares, all `Empty`, and no queens |
| Boards.Board.Clone | src/solver/mod.rs:18 | a clone is a fresh array with the same size and the same squares |
| Boards.Board.QueenCount | src/board/mod.rs:39-41 | the number of `Queen` squares, at most the number of squares |
| Boards.Board.QueenCountIsPositions | src/board/mod.rs:39-41 | the queen count equals the number of queen positions |
| Boards.Board.GetPosIndex | src/board/mod.rs:45-47 | inside the board the index is below `width * height`; for a column inside the width, the index leads back to (col, row), so different squares get different indices |
| Boards.Board.QueenPositions | src/board/board_queens.rs:14-19 | positions without repeats; `p` is listed iff it is on the board and its square holds `Queen` |
| Boards.Board.AddQueen | src/board/board_queens.rs:8-11 | the square at `row * width + col` becomes `Queen` and every other square is unchanged; the count rises by one iff the square was `Empty`; the positions gain that square; the index must lie inside the vector |
| Boards.Board.GetUpwardMoves | src/board/board_queens.rs:28-30 | the squares of the column from the queen's row up to the top, `height - y` of them |
| Boards.GetPosIndexCorners | src/board/mod.rs:66-78 | on the default board the corners have indices 0, 7, 56 and 63 |
| Boards.UpwardMovesFromOrigin | src/board/board_queens.rs:54-62 | from (0, 0) the upward moves are the whole first column |
| Boards.UpwardMovesFromTopRow | src/board/board_queens.rs:64-71 | from (0, 7) the upward moves are only (0, 7) |
| BoardFromPosIter.PlacedSquares | src/board/board_from_pos_iter.rs:7-13 | the squares built from a list of positions: 64 of them, `Queen` exactly at the listed positions' indices |
| BoardFromPosIter.FromIter | src/board/board_from_pos_iter.rs:7-13 | the loop of `AddQueen` calls on a fresh default board yields an 8 by 8 board whose squares are `PlacedSquares` of the input |
| BoardFromPosIter.PlacedStep | src/board/board_from_pos_iter.rs:9-11 | one more position writes one more `Queen` on its index |
| BoardFromPosIter.PlacedSquaresOrderFree | src/board/board_from_pos_iter.rs:9-11 | input order and repeats do not change the board |
| BoardFromPosIter.PlacedQueenPositions | src/board/board_from_pos_iter.rs:7-13 | for positions on the 8 by 8 board, the queen positions of the result are exactly the input positions |
| BoardFromPosIter.NoPositionsNoQueens | src/board/board_from_pos_iter.rs:24-32 | no input positions give a board without queens |
| BoardFromPosIter.QueensAtOriginAndAbove | src/board/board_from_pos_iter.rs:35-39 | input (0, 0), (0, 1) gives exactly those two queens |
| BoardFromPosIter.QueensOnCorners | src/board/board_queens.rs:41-51 | queens added on the four corners are exactly the four corners |
| BoardUncontestedSpaces.Grid | src/board/board_uncontested_spaces.rs:8-10 | all squares of the board |
| BoardUncontestedSpaces.UncontestedSpaces | src/board/board_uncontested_spaces.rs:8-10 | every uncontested square is on the board, and no queen's square is uncontested |
| BoardUncontestedSpaces.UncontestedSpacesSpec | src/board/board_uncontested_spaces.rs:20-31 | a square is uncontested iff it is on the board and shares no line with any queen |
| BoardUncontestedSpaces.UncontestedWithQueensInCorners | src/board/board_uncontested_spaces.rs:34-50 | with queens on the four corners of 8 by 8, the uncontested squares are exactly the 24 listed |
| BoardReflect.HorizontalReflection | src/board/board_reflect.rs:27-31 | (x, y) goes to (width - 1 - x, y), which needs `x < width`; it stays on the board |
| BoardReflect.VerticalReflection | src/board/board_reflect.rs:33-37 | (x, y) goes to (x, height - 1 - y), which needs `y < height`; it stays on the board |
| BoardReflect.InverseReflection | src/board/board_reflect.rs:39-44 | (x, y) goes to (width - 1 - x, height - 1 - y), on the board |
| BoardReflect.InverseIsBothReflections | src/board/board_reflect.rs:27-44 | the inverse is the horizontal reflection after the vertical one, and the other way round |
| BoardReflect.ReflectionsAreInvolutions | src/board/board_reflect.rs:27-44 | each reflection applied twice gives the position back |
| BoardReflect.ReflectPosInjective | src/board/board_reflect.rs:27-44 | different squares on the board have different images |
| BoardReflect.Reflection | src/board/board_reflect.rs:4-23 | the reflected queens are on the board, a square is reflected iff its image is a queen, and there are as many as there were queens |
| BoardReflect.ReflectionInvolution | src/board/board_reflect.rs:4-23 | reflecting the reflected queens gives the queens back |
| BoardReflect.ReflectFromTopLeft | src/board/board_reflect.rs:58-64 | on 8 by 8, (0, 7) reflects to (7, 7), (0, 0) and (7, 0) |
| BoardReflect.ReflectFrom26 | src/board/board_reflect.rs:65-70 | on 8 by 8, (2, 6) reflects to (5, 6), (2, 1) and (5, 1) |
| BoardRotate.Rotate90Clockwise | src/board/board_rotate.rs:24-30 | the new x is the old y and the new y is `height - 1 - x`, which needs `x < height`; on a square board it stays on the board |
| BoardRotate.HalfTurnIsInverse | src/board/board_rotate.rs:24-30 | on a square board two quarter turns are the inverse reflection |
| BoardRotate.FullTurn | src/board/board_rotate.rs:24-30 | on a square board four quarter turns give the position back |
| BoardRotate.RotateCorners | src/board/board_rotate.rs:43-54 | on 8 by 8, (0, 7) goes to (7, 7) and (7, 7) to (7, 0) |
| BoardRotate.RotateOtherCases | src/board/board_rotate.rs:47-58 | (2, 6) goes to (6, 5), not the expected (5, 6); (5, 6) goes to (6, 2), not the expected (5, 1) |
| BoardToString.InitializeCharMatrix | src/board/board_to_string.rs:18-25 | `height` rows of `width` cells; a cell is `'Q'` iff its square holds a queen, else `' '` |
| BoardToString.FormHorizontalBorder | src/board/board_to_string.rs:49-53 | `width + 2` dashes |
| BoardToString.AddBorders | src/board/board_to_string.rs:34-47 | a border, the rows from last to first each between `'|'`, then a border |
| BoardToString.Join | src/board/board_to_string.rs:13 | the joined text starts with the first line; `SplitJoin` shows that splitting at newlines undoes it |
| BoardToString.SplitJoin | src/board/board_to_string.rs:13 | lines without newlines, joined by `'\n'`, split back into the same lines |
| BoardToString.RenderedLines | src/board/board_to_string.rs:9-53 | `height + 2` lines; dashes first and last; line `k` is `'|'`, the cells of row `height - k`, `'|'` |
| BoardToString.ToString | src/board/board_to_string.rs:9-14 | the text is the rendered lines joined by newlines, and splitting it at newlines gives those lines back |
| BoardToStringTests.EmptyBoardRendering | src/board/board_to_string.rs:62-78 | the empty 8 by 8 board renders as the expected ten lines |
| BoardToStringTests.FourQueenRendering | src/board/board_to_string.rs:80-100 | the board with queens at (0, 0), (0, 7), (6, 0), (6, 6) renders as the expected ten lines |
| BoardToStringTests.FourQueensPlaced | src/board/board_to_string.rs:82-85 | that board, built from its positions, holds exactly those four queens |
| CheckResults.AsU8 | src/checker/mod.rs:13 | `as u8` keeps values below 256 and otherwise wraps modulo 256 |
| CheckResults.Compare | src/checker/check_result.rs:2-8 | two results compare equal iff they are equal |
| CheckResults.CompareIsLexicographic | src/checker/check_result.rs:2-8 | the order compares `has_conflict`, `is_solved`, `num_queens`, `num_free_spaces` in turn, `false` before `true` |
| CheckResults.CompareAntisymmetric | src/checker/check_result.rs:2 | swapping the operands flips the ordering |
| CheckResults.CompareTransitive | src/checker/check_result.rs:2 | less-than is transitive |
| CheckResults.CompareTotal | src/checker/check_result.rs:2 | any two results are less, equal or greater |
| CheckResults.ConflictSortsLast | src/checker/check_result.rs:2-4 | a result with a conflict is greater than any without |
| CheckResults.SolvedAboveEmptyBoard | src/checker/check_result.rs:17-22 | the solved result is greater than the empty board's |
| CheckResults.TwoQueensAboveEmptyBoard | src/checker/check_result.rs:24-29 | the two-queen result is greater than the empty board's |
| CheckResults.ExpectedOrderDescends | src/checker/check_result.rs:42-48 | the test's expected list is strictly descending, so an ascending sort cannot produce it |
| CheckerBoardHasConflict.SumLengths | src/checker/board_has_conflict.rs:14 | the sum is at least each list's length |
| CheckerBoardHasConflict.TotalMoves | src/checker/board_has_conflict.rs:10-14 | the total is at least each queen's number of moves |
| CheckerBoardHasConflict.BoardHasConflict | src/checker/board_has_conflict.rs:6-20 | the rule as written: the total number of moves differs from the number of distinct contested squares; `ConflictIffOverlap` and `TwoQueensAlwaysConflict` characterise it |
| CheckerBoardHasConflict.SumCoversUnion | src/checker/board_has_conflict.rs:14-18 | for lists without repeats, the sum of lengths is at least the size of the union, with equality iff no two lists share an element |
| CheckerBoardHasConflict.TotalCoversContested | src/checker/board_has_conflict.rs:10-18 | the total number of moves is at least the number of contested squares, with equality iff no square is a move of two queens |
| CheckerBoardHasConflict.ConflictIffOverlap | src/checker/board_has_conflict.rs:14-18 | the counting rule finds a conflict iff some square is a move of two different queens |
| CheckerBoardHasConflict.FewQueensNoConflict | src/checker/board_has_conflict.rs:27-32 | zero or one queen is never a conflict |
| CheckerBoardHasConflict.QueenOnContestedSquare | src/checker/board_has_conflict.rs:45-49 | a queen standing on another queen's move is a conflict |
| CheckerBoardHasConflict.TwoQueensAlwaysConflict | src/checker/board_has_conflict.rs:8-18 | every board with two or more queens is a conflict for the counting rule |
| CheckerBoardHasConflict.QueensAttack | src/checker/board_has_conflict.rs:62-124 | the rule the tests expect: two different queens share a column, a row or a diagonal, so it needs at least two queens |
| CheckerBoardHasConflict.QueensAttackSpec | src/checker/board_has_conflict.rs:62-124 | two queens share a line iff one stands on a move of the other |
| CheckerBoardHasConflict.QueensAttackOrderFree | src/checker/board_has_conflict.rs:9 | whether queens attack depends only on where they stand |
| CheckerBoardHasConflict.AttackIsConflict | src/checker/board_has_conflict.rs:14-18 | attacking queens are a conflict for the counting rule too |
| Checker.CheckBoard | src/checker/mod.rs:12-21 | for queen positions each listed once: `num_queens` is the queen count cast to `u8`; `has_conflict` iff a square is a move of two queens; `is_solved` iff the count is 8 and there is no conflict |
| Checker.SolvedHasNoConflict | src/checker/mod.rs:15 | a solved verdict has no conflict |
| Checker.NeverSolved | src/checker/mod.rs:15 | no board is ever reported solved |
| Checker.EmptyBoardVerdict | src/checker/mod.rs:29-35 | no queens: no conflict, not solved, count 0 |
| Checker.CheckBoardIntended | src/checker/mod.rs:116-133 | the intended verdict: a conflict iff some queen stands on another's move; solved iff eight queens and no conflict |
| Checker.IntendedConflictCounted | src/checker/mod.rs:14 | every intended conflict is also a conflict for the counting rule |
| CheckerTests.PlacedQueens | src/board/board_from_pos_iter.rs:7-13 | the queens of a board built from positions are exactly those positions, all on the board |
| CheckerTests.PlacedPairConflicts | src/checker/board_has_conflict.rs:8-18 | a board built from two different positions is a conflict |
| CheckerTests.DefaultBoardVerdict | src/checker/mod.rs:29-35 | the default board has no conflict and is not solved |
| CheckerTests.AdjacentQueensVerdict | src/checker/mod.rs:48-54 | queens at (0, 0) and (1, 0): conflict, not solved |
| CheckerTests.InvalidEightQueensVerdict | src/checker/mod.rs:86-103 | eight queens with two in column 5 attack each other: conflict, not solved |
| CheckerTests.SafePairFlagged | src/checker/board_has_conflict.rs:62-67 | queens at (0, 0) and (7, 2) do not attack each other, yet the counting rule reports a conflict |
| CheckerTests.SolutionFlagged | src/checker/board_has_conflict.rs:108-124 | a real solution has no attacking pair, yet the counting rule reports a conflict and the checker does not call it solved |
| CheckerTests.SafePairIntended | src/checker/mod.rs:67-73 | under the intended rule, (0, 0) and (7, 2): no conflict, not solved |
| CheckerTests.InvalidEightQueensIntended | src/checker/mod.rs:86-103 | under the intended rule, the column-5 board: conflict, not solved |
| CheckerTests.SolutionAcceptedAsIntended | src/checker/mod.rs:116-133 | under the intended rule, the solution: no conflict, solved |
| SolutionStateBoardHasConflict.FoldUncontested | src/solver/solution_state/board_has_conflict.rs:10-13 | the `&&` fold: it is only true if its start value is |
| SolutionStateBoardHasConflict.HasContestedQueens | src/solver/solution_state/board_has_conflict.rs:5-14 | the test as written: `false` without queens, otherwise the fold from `true` |
| SolutionStateBoardHasConflict.FoldUncontestedSpec | src/solver/solution_state/board_has_conflict.rs:10-13 | the `&&` fold is true iff the start value is and every queen is uncontested |
| SolutionStateBoardHasConflict.HasContestedQueensSpec | src/solver/solution_state/board_has_conflict.rs:5-14 | true iff there are queens and every one of them is uncontested |
| SolutionStateBoardHasConflict.HasContestedQueensOrderFree | src/solver/solution_state/board_has_conflict.rs:10-13 | the answer does not depend on visiting order |
| SolutionStateBoardHasConflict.HasContestedQueensFewer | src/solver/solution_state/board_has_conflict.rs:10-13 | dropping queens while keeping one keeps a true answer true |
| SolutionStateBoardHasConflict.NeverContestedOnBoard | src/solver/solution_state/board_has_conflict.rs:5-14 | given the board's own uncontested squares, the answer is always false |
| SolutionStateBoardHasConflict.HasContestedQueensIntended | src/solver/solution_state/board_has_conflict.rs:3-4 | the test the doc comment describes: true iff some queen stands on a square another queen contests |
| SolutionStateBoardHasConflict.ColumnFiveContestedMissed | src/checker/mod.rs:86-99 | on the eight-queen board with two queens in column 5, the intended test is true and the test as written is false |
| SolutionStateBoardIsSolved.CheckIsSolved | src/solver/solution_state/board_is_solved.rs:4-17 | solved only with exactly eight queens; more than eight is excluded as the panic; for eight, no queen's moves hold another queen |
| SolutionStateBoardIsSolved.FewerThanEightNotSolved | src/solver/solution_state/board_is_solved.rs:6-7 | fewer than eight queens is not solved |
| SolutionStateBoardIsSolved.CheckIsSolvedSpec | src/solver/solution_state/board_is_solved.rs:4-17 | solved iff eight queens, no two attacking each other |
| SolutionStateBoardIsSolved.CheckIsSolvedOrderFree | src/solver/solution_state/board_is_solved.rs:5 | the answer depends only on where the queens stand |
| SolutionStateBoardIsSolved.SolutionNoAttack | src/checker/mod.rs:116-129 | no two queens of the checker tests' eight-queen solution share a column, a row or a diagonal |
| SolutionStateBoardIsSolved.SolutionIsSolved | src/checker/mod.rs:116-129 | the eight-queen solution of the checker's tests is solved |
| SolutionStateBoardIsSolved.TwoInColumnFiveNotSolved | src/checker/mod.rs:86-99 | the checker tests' eight-queen board with two queens in column 5 is not solved |
| SolutionStates.From | src/solver/solution_state/mod.rs:20-40 | `num_queens` is the queen count; `uncontested` is the board's uncontested squares; a conflict excludes solved; without one, solved iff eight non-attacking queens |
| SolutionStates.FromSpec | src/solver/solution_state/mod.rs:20-40 | the record never reports a conflict, and is solved iff eight non-attacking queens |
| SolutionStates.EmptyBoardState | src/solver/solution_state/mod.rs:47-53 | the empty board: no conflict, not solved, no queens, every square uncontested |
| Solvers.UncontestedSquareEmpty | src/solver/mod.rs:27-32 | an uncontested square holds no queen |
| Solvers.Solver.New | src/solver/mod.rs:16-21 | a fresh copy of the board, with the record of that board |
| Solvers.Solver.Successor | src/solver/mod.rs:29-34 | a fresh solver whose board is this board with a queen on the square, and whose record is its board's |
| Solvers.Solver.SuccessorsFor | src/solver/mod.rs:27-35 | one fresh, valid successor per given square, each square listed once |
| Solvers.Solver.GetNextMoves | src/solver/mod.rs:26-36 | exactly one fresh successor per uncontested square; successor `k` is the board plus a queen on square `k`, with its own record; the parent board is unchanged |
| Solvers.Solver.SuccessorAddsOneQueen | src/solver/mod.rs:29-32 | a successor has one queen more: the old ones and the new square |
| Solvers.UncontestedOneMore | src/solver/mod.rs:27-31 | with one more queen at `p`, a square is uncontested iff it was uncontested before and is off `p`'s lines |
| Solvers.Solver.SuccessorRecord | src/solver/mod.rs:29-34 | a successor's record counts one queen more, and its uncontested squares are the parent's minus those on the new queen's lines |
| Solvers.Solver.SuccessorsDiffer | src/solver/mod.rs:29-32 | different uncontested squares give different successor boards |

## Findings

| source | as written | input that shows it | evidently intended | confidence | as-written member | corrected member |
|---|---|---|---|---|---|---|
| src/checker/board_has_conflict.rs:14-18 | a conflict when the sum of the move-set sizes differs from the size of their union; any two queens share the square (x1, y2), so every board with two or more queens conflicts | queens at (0, 0) and (7, 2), or the solution (2, 0), (4, 1), (1, 2), (7, 3), (0, 4), (6, 5), (3, 6), (5, 7) | a conflict iff one queen stands on a square another contests, as the tests at src/checker/board_has_conflict.rs:62-124 and src/checker/mod.rs:67-133 expect | not executed | CheckerTests.SolutionFlagged | Checker.CheckBoardIntended |
| src/solver/solution_state/board_has_conflict.rs:8-13 | `has_contested_queens` folds `uncontested.contains(p)` with `&&` from `true`, so it is true only when every queen is uncontested; every queen contests its own square, so on a real board it is always false | the eight queens (2, 0), (4, 1), (1, 2), (7, 3), (0, 4), (6, 5), (5, 6), (5, 7), two of them in column 5 | true iff some queen could move onto another queen's square, as the doc comment at lines 3-4 says | not executed | SolutionStateBoardHasConflict.NeverContestedOnBoard | SolutionStateBoardHasConflict.HasContestedQueensIntended |

`CheckerTests.SafePairFlagged` and `CheckerBoardHasConflict.TwoQueensAlwaysConflict`
also show the as-written behaviour. The intended rule is
`CheckerBoardHasConflict.QueensAttack`, characterised by `QueensAttackSpec`.
`CheckerTests.SolutionAcceptedAsIntended` and
`CheckerTests.SafePairIntended` prove the intended verdicts. `Checker.CheckBoard`
itself keeps the counting rule as written.

For the second row, `SolutionStateBoardHasConflict.ColumnFiveContestedMissed`
shows the two tests differ on the column-5 board. `SolutionStates.From`
itself keeps the test as written, so `SolutionStates.FromSpec` proves that
it never reports a conflict.

## Left out

- `get_index_pos` (src/board/mod.rs:49-51) is unimplemented. `Boards.IndexPos` gives it the inverse of `get_pos_index` that `get_queen_positions` needs.
- Unimplemented bodies are not modelled: the `Queens::get_queen_moves` method, the `Rotation` trait methods, `get_solutions`, `_get_equivalent_states`, and the two unimplemented tests at src/solver/solution_state/mod.rs:55-63 (the verdicts their names describe are proved on the checker tests' boards by `SolutionStateBoardIsSolved.SolutionIsSolved` and `SolutionStateBoardIsSolved.TwoInColumnFiveNotSolved`).
- `check_is_solved` for exactly eight queens is unimplemented and would panic. `SolutionStateBoardIsSolved.CheckIsSolved` uses the rule its comment describes: no queen's moves contain another queen.
- `get_uncontested_spaces` is unimplemented. It is defined as the squares of the board that are not contested, which its test confirms.
- More than eight queens makes `check_is_solved` panic. `SolutionStates.From` and `Solvers.Solver.New` therefore require at most eight queens.
- `Solvers.Solver.GetNextMoves` requires room for one more queen whenever a square is uncontested. Otherwise a successor with nine queens would reach that panic.
- `check_board` never sets `num_free_spaces`, so the source does not compile as written. `Checker.CheckBoard` takes that field as a parameter.
- `Board` derives no `Clone`, but the solver clones it. `Boards.Board.Clone` is a copy constructor.
- `add_queen` does not check the column. A column outside the width writes a square of another row, as in the source. `AddQueen` requires only that the index lie inside the vector.
- The order of a `HashSet` is unspecified. Queen positions are listed in index order, and no property depends on that order.
- `Solvers.Solver.GetNextMoves` returns a ghost list `placed` with the square each successor was made for. Successor `k` is proved to be the board with a queen on `placed[k]`, in an order the model leaves open.
- The sparse board of src/board/board_from_dims.rs, src/position/coord_iter.rs, get_queen_states.rs and queen_state.rs are not part of this model. They build a different `Board` variant or wrap unimplemented code.
- Benchmarks and the random shuffle in the sorting test are not modelled.
- `u32` arithmetic is modelled on unbounded naturals. Overflow for boards wider than about 65 000 squares is not modelled. The `as u8` casts are modelled exactly by `CheckResults.AsU8`.
- `form_row_strings` only turns each row of characters into a string. In the model a row of characters is already a string.
- `width()` and `height()` are the class's `width` and `height` constants.
- Reflections of a board are modelled on the set of its queen positions.
- `FromIter` always starts from the default 8 by 8 board, as the source does.
- The descending sort expectation (src/checker/check_result.rs:32-54) is not proved; `ExpectedOrderDescends` shows why it cannot hold.
- The rotation test cases (2, 6) and (5, 6) (src/board/board_rotate.rs:47-58) are not proved; `RotateOtherCases` shows what the rotation computes instead.
- The tests expecting no conflict for a safe pair or a solution (src/checker/board_has_conflict.rs:62-67 and 108-124, src/checker/mod.rs:67-73 and 116-133) are not proved for the code as written; see Findings.
