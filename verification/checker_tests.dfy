/**
  * The boards the checker's tests build (src/checker/board_has_conflict.rs
  * and src/checker/mod.rs), each collected from a list of positions into the
  * default 8 by 8 board.
  */
module CheckerTests {
  // The lemmas below take a test's list of positions as a parameter fixed by
  // `requires ps == [...]` rather than writing the list inline: the
  // verifier then treats the list as one term and unfolds it only where a
  // proof asks, which keeps these concrete proofs within their resource limit.

  import opened Position
  import opened Queen
  import opened Boards
  import opened BoardFromPosIter
  import opened CheckResults
  import opened CheckerBoardHasConflict
  import opened Checker

  predicate OnDefaultBoard(ps: seq<PosCoords>)
  {
    forall k :: 0 <= k < |ps| ==> InBounds(ps[k], (8, 8))
  }

  /** The queen positions of the board collected from `ps`. */
  function PlacedQueens(ps: seq<PosCoords>): (r: seq<PosCoords>)
    requires OnDefaultBoard(ps)
    ensures Distinct(r) && ToSet(r) == ToSet(ps)
    ensures AllInBounds(r, (8, 8))
  {
    PlacedQueenPositions(ps);
    var r := QueenListing(PlacedSquares(ps), 8);
    assert AllInBounds(r, (8, 8)) by {
      forall i | 0 <= i < |r| ensures InBounds(r[i], (8, 8)) {
        assert r[i] in ToSet(ps);
      }
    }
    r
  }

  /** A board collected from two different positions has a conflict by the counting rule. */
  lemma PlacedPairConflicts(ps: seq<PosCoords>, i: nat, j: nat)
    requires OnDefaultBoard(ps)
    requires i < |ps| && j < |ps| && ps[i] != ps[j]
    ensures BoardHasConflict(PlacedQueens(ps), (8, 8))
  {
    var r := PlacedQueens(ps);
    assert ps[i] in ToSet(r) && ps[j] in ToSet(r);
    assert |r| >= 2;
    TwoQueensAlwaysConflict(r, (8, 8));
  }

  lemma DefaultBoardVerdict(numFreeSpaces: u8)
    ensures PlacedQueens([]) == []
    ensures !BoardHasConflict(PlacedQueens([]), (8, 8))
    ensures !CheckBoard(PlacedQueens([]), (8, 8), numFreeSpaces).isSolved
  {
    NoPositionsNoQueens();
    EmptyBoardVerdict((8, 8), numFreeSpaces);
  }

  lemma AdjacentQueensVerdict(ps: seq<PosCoords>, numFreeSpaces: u8)
    requires ps == [(0, 0), (1, 0)]
    ensures OnDefaultBoard(ps)
    ensures BoardHasConflict(PlacedQueens(ps), (8, 8))
    ensures CheckBoard(PlacedQueens(ps), (8, 8), numFreeSpaces).hasConflict
    ensures !CheckBoard(PlacedQueens(ps), (8, 8), numFreeSpaces).isSolved
  {
    PlacedPairConflicts(ps, 0, 1);
    ConflictIffOverlap(PlacedQueens(ps), (8, 8));
    NeverSolved(PlacedQueens(ps), (8, 8), numFreeSpaces);
  }

  /** Eight queens with two of them in column 5. */
  lemma InvalidEightQueensVerdict(ps: seq<PosCoords>, numFreeSpaces: u8)
    requires ps == [(2, 0), (4, 1), (1, 2), (7, 3), (0, 4), (6, 5), (5, 6), (5, 7)]
    ensures OnDefaultBoard(ps)
    ensures QueensAttack(PlacedQueens(ps))
    ensures BoardHasConflict(PlacedQueens(ps), (8, 8))
    ensures CheckBoard(PlacedQueens(ps), (8, 8), numFreeSpaces).hasConflict
    ensures !CheckBoard(PlacedQueens(ps), (8, 8), numFreeSpaces).isSolved
  {
    assert ps[6] != ps[7] && SharesLine(ps[6], ps[7]);
    QueensAttackOrderFree(ps, PlacedQueens(ps));
    PlacedPairConflicts(ps, 6, 7);
    ConflictIffOverlap(PlacedQueens(ps), (8, 8));
    NeverSolved(PlacedQueens(ps), (8, 8), numFreeSpaces);
  }

  /**
    * Queens at (0, 0) and (7, 2) do not attack each other, yet the counting
    * rule reports a conflict: both contest the square (0, 2).
    */
  lemma SafePairFlagged(ps: seq<PosCoords>)
    requires ps == [(0, 0), (7, 2)]
    ensures OnDefaultBoard(ps)
    ensures !QueensAttack(PlacedQueens(ps))
    ensures BoardHasConflict(PlacedQueens(ps), (8, 8))
  {
    assert !QueensAttack(ps);
    QueensAttackOrderFree(ps, PlacedQueens(ps));
    PlacedPairConflicts(ps, 0, 1);
  }

  /**
    * A solution of the eight queens puzzle: no two queens attack each other,
    * yet the counting rule reports a conflict and the checker does not call
    * the board solved.
    */
  lemma SolutionFlagged(ps: seq<PosCoords>, numFreeSpaces: u8)
    requires ps == [(2, 0), (4, 1), (1, 2), (7, 3), (0, 4), (6, 5), (3, 6), (5, 7)]
    ensures OnDefaultBoard(ps)
    ensures !QueensAttack(PlacedQueens(ps))
    ensures BoardHasConflict(PlacedQueens(ps), (8, 8))
    ensures !CheckBoard(PlacedQueens(ps), (8, 8), numFreeSpaces).isSolved
  {
    assert !QueensAttack(ps);
    QueensAttackOrderFree(ps, PlacedQueens(ps));
    PlacedPairConflicts(ps, 0, 1);
    NeverSolved(PlacedQueens(ps), (8, 8), numFreeSpaces);
  }

  // The same boards under the intended rule.

  /** Positions listed once each give that many queens. */
  lemma PlacedCount(ps: seq<PosCoords>)
    requires OnDefaultBoard(ps) && Distinct(ps)
    ensures |PlacedQueens(ps)| == |ps|
  {
    DistinctCard(ps);
    DistinctCard(PlacedQueens(ps));
  }

  lemma SafePairIntended(ps: seq<PosCoords>, numFreeSpaces: u8)
    requires ps == [(0, 0), (7, 2)]
    ensures OnDefaultBoard(ps)
    ensures !CheckBoardIntended(PlacedQueens(ps), (8, 8), numFreeSpaces).hasConflict
    ensures !CheckBoardIntended(PlacedQueens(ps), (8, 8), numFreeSpaces).isSolved
  {
    assert !QueensAttack(ps);
    QueensAttackOrderFree(ps, PlacedQueens(ps));
    PlacedCount(ps);
  }

  lemma InvalidEightQueensIntended(ps: seq<PosCoords>, numFreeSpaces: u8)
    requires ps == [(2, 0), (4, 1), (1, 2), (7, 3), (0, 4), (6, 5), (5, 6), (5, 7)]
    ensures OnDefaultBoard(ps)
    ensures CheckBoardIntended(PlacedQueens(ps), (8, 8), numFreeSpaces).hasConflict
    ensures !CheckBoardIntended(PlacedQueens(ps), (8, 8), numFreeSpaces).isSolved
  {
    assert ps[6] != ps[7] && SharesLine(ps[6], ps[7]);
    QueensAttackOrderFree(ps, PlacedQueens(ps));
  }

  /** The solution's board: eight queens, no two of which attack each other. */
  lemma SolutionPlaced(ps: seq<PosCoords>)
    requires ps == [(2, 0), (4, 1), (1, 2), (7, 3), (0, 4), (6, 5), (3, 6), (5, 7)]
    ensures OnDefaultBoard(ps)
    ensures !QueensAttack(PlacedQueens(ps)) && |PlacedQueens(ps)| == 8
  {
    assert !QueensAttack(ps);
    QueensAttackOrderFree(ps, PlacedQueens(ps));
    SolutionDistinct(ps);
    PlacedCount(ps);
  }

  lemma SolutionDistinct(ps: seq<PosCoords>)
    requires ps == [(2, 0), (4, 1), (1, 2), (7, 3), (0, 4), (6, 5), (3, 6), (5, 7)]
    ensures Distinct(ps)
  {
    assert forall i :: 0 <= i < |ps| ==> ps[i].1 == i;
    OnePerRowDistinct(ps);
  }

  lemma SolutionAcceptedAsIntended(ps: seq<PosCoords>, numFreeSpaces: u8)
    requires ps == [(2, 0), (4, 1), (1, 2), (7, 3), (0, 4), (6, 5), (3, 6), (5, 7)]
    ensures OnDefaultBoard(ps)
    ensures !CheckBoardIntended(PlacedQueens(ps), (8, 8), numFreeSpaces).hasConflict
    ensures CheckBoardIntended(PlacedQueens(ps), (8, 8), numFreeSpaces).isSolved
  {
    SolutionPlaced(ps);
  }
}
