/**
  * The solver's "solved" test (src/solver/solution_state/board_is_solved.rs).
  * Fewer than eight queens is not solved, and more than eight is a panic, so
  * callers must not pass more. For exactly eight the source leaves the body
  * unimplemented; its comment says to look in each queen's moves for another
  * queen, and that is the rule modelled here.
  */
module SolutionStateBoardIsSolved {
  import opened Position
  import opened Queen
  import opened CheckerBoardHasConflict

  /** Only a board of exactly eight queens can be solved. */
  function CheckIsSolved(queens: seq<PosCoords>, dims: Dims): (r: bool)
    requires AllInBounds(queens, dims) && |queens| <= 8
    ensures r ==> |queens| == 8
  {
    if |queens| < 8 then false
    else
      forall i, j :: 0 <= i < |queens| && 0 <= j < |queens| && i != j ==> queens[j] !in QueenMoves(queens[i], dims)
  }

  /** Fewer than eight queens, an empty board included, is never solved. */
  lemma FewerThanEightNotSolved(queens: seq<PosCoords>, dims: Dims)
    requires AllInBounds(queens, dims) && |queens| < 8
    ensures !CheckIsSolved(queens, dims)
  {
  }

  /** Solved means eight queens, no two of which attack each other. */
  lemma CheckIsSolvedSpec(queens: seq<PosCoords>, dims: Dims)
    requires AllInBounds(queens, dims) && |queens| <= 8 && Distinct(queens)
    ensures CheckIsSolved(queens, dims) <==> |queens| == 8 && !QueensAttack(queens)
  {
    QueensAttackSpec(queens, dims);
  }

  /** The answer depends only on where the queens stand. */
  lemma CheckIsSolvedOrderFree(queens: seq<PosCoords>, others: seq<PosCoords>, dims: Dims)
    requires AllInBounds(queens, dims) && |queens| <= 8 && Distinct(queens)
    requires AllInBounds(others, dims) && |others| <= 8 && Distinct(others)
    requires ToSet(queens) == ToSet(others)
    ensures CheckIsSolved(queens, dims) == CheckIsSolved(others, dims)
  {
    DistinctCard(queens);
    DistinctCard(others);
    CheckIsSolvedSpec(queens, dims);
    CheckIsSolvedSpec(others, dims);
    QueensAttackOrderFree(queens, others);
  }

  // Two boards of the source's tests, as lists of (column, row) positions.
  // The lemmas below take a test's list of positions as a parameter fixed by
  // `requires queens == [...]` rather than writing the list inline: the
  // verifier then treats the list as one term and unfolds it only where a
  // proof asks, which keeps these concrete proofs within their resource limit.

  lemma SolutionNoAttack(queens: seq<PosCoords>)
    requires queens == [(2, 0), (4, 1), (1, 2), (7, 3), (0, 4), (6, 5), (3, 6), (5, 7)]
    ensures !QueensAttack(queens)
  {
  }

  lemma SolutionIsSolved(queens: seq<PosCoords>)
    requires queens == [(2, 0), (4, 1), (1, 2), (7, 3), (0, 4), (6, 5), (3, 6), (5, 7)]
    ensures AllInBounds(queens, (8, 8))
    ensures CheckIsSolved(queens, (8, 8))
  {
    OnePerRowDistinct(queens);
    SolutionNoAttack(queens);
    CheckIsSolvedSpec(queens, (8, 8));
  }

  lemma TwoInColumnFiveNotSolved(queens: seq<PosCoords>)
    requires queens == [(2, 0), (4, 1), (1, 2), (7, 3), (0, 4), (6, 5), (5, 6), (5, 7)]
    ensures AllInBounds(queens, (8, 8))
    ensures !CheckIsSolved(queens, (8, 8))
  {
    assert queens[6] != queens[7] && SharesLine(queens[6], queens[7]);
    CheckIsSolvedSpec(queens, (8, 8));
  }
}
