/**
  * The checker's entry point (src/checker/mod.rs): the verdict on a board is
  * its number of queens, cast to `u8`, whether the counting rule finds a
  * conflict, and "solved" when there are eight queens and no conflict.
  */
module Checker {
  import opened Position
  import opened Queen
  import opened CheckResults
  import opened CheckerBoardHasConflict

  /**
    * The verdict on a board with queens at `queens`, each listed once as in
    * the set of queen positions. The source never sets the number of free
    * squares, so it is taken as given.
    */
  function CheckBoard(queens: seq<PosCoords>, dims: Dims, numFreeSpaces: u8): (r: CheckResult)
    requires AllInBounds(queens, dims) && Distinct(queens)
    ensures r.numQueens == AsU8(|queens|) && r.numFreeSpaces == numFreeSpaces
    ensures r.hasConflict <==> MovesOverlap(queens, dims)
    ensures r.isSolved <==> r.numQueens == 8 && !MovesOverlap(queens, dims)
  {
    ConflictIffOverlap(queens, dims);
    var numQueens := AsU8(|queens|);
    var hasConflict := BoardHasConflict(queens, dims);
    CheckResult(hasConflict, numQueens == 8 && !hasConflict, numQueens, numFreeSpaces)
  }

  /** A solved verdict never reports a conflict. */
  lemma SolvedHasNoConflict(queens: seq<PosCoords>, dims: Dims, numFreeSpaces: u8)
    requires AllInBounds(queens, dims) && Distinct(queens)
    ensures CheckBoard(queens, dims, numFreeSpaces).isSolved ==> !CheckBoard(queens, dims, numFreeSpaces).hasConflict
  {
  }

  /**
    * No board is ever reported solved: eight queens (or any number of them
    * leaving eight after the cast) are at least two, and two queens always
    * conflict by the counting rule.
    */
  lemma NeverSolved(queens: seq<PosCoords>, dims: Dims, numFreeSpaces: u8)
    requires AllInBounds(queens, dims) && Distinct(queens)
    ensures !CheckBoard(queens, dims, numFreeSpaces).isSolved
  {
    if |queens| >= 2 {
      TwoQueensAlwaysConflict(queens, dims);
    } else {
      assert AsU8(|queens|) as int == |queens|;
    }
  }

  /** A board without queens is neither conflicted nor solved. */
  lemma EmptyBoardVerdict(dims: Dims, numFreeSpaces: u8)
    ensures !CheckBoard([], dims, numFreeSpaces).hasConflict
    ensures !CheckBoard([], dims, numFreeSpaces).isSolved
    ensures CheckBoard([], dims, numFreeSpaces).numQueens == 0
  {
    FewQueensNoConflict([], dims);
  }

  /**
    * The verdict the source's tests expect: a conflict is two queens that
    * could move onto one another's square, and "solved" is eight queens
    * without one.
    */
  function CheckBoardIntended(queens: seq<PosCoords>, dims: Dims, numFreeSpaces: u8): (r: CheckResult)
    requires AllInBounds(queens, dims) && Distinct(queens)
    ensures AllNoUnderflow(queens, dims)
    ensures r.numQueens == AsU8(|queens|) && r.numFreeSpaces == numFreeSpaces
    ensures r.hasConflict <==>
            exists i, j :: 0 <= i < |queens| && 0 <= j < |queens| && queens[i] != queens[j] &&
                           queens[i] in QueenMoves(queens[j], dims)
    ensures r.isSolved <==> r.numQueens == 8 && !r.hasConflict
  {
    QueensAttackSpec(queens, dims);
    var numQueens := AsU8(|queens|);
    var hasConflict := QueensAttack(queens);
    CheckResult(hasConflict, numQueens == 8 && !hasConflict, numQueens, numFreeSpaces)
  }

  /** Every conflict of the intended rule is one of the counting rule as well. */
  lemma IntendedConflictCounted(queens: seq<PosCoords>, dims: Dims, numFreeSpaces: u8)
    requires AllInBounds(queens, dims) && Distinct(queens)
    ensures CheckBoardIntended(queens, dims, numFreeSpaces).hasConflict ==> CheckBoard(queens, dims, numFreeSpaces).hasConflict
  {
    if QueensAttack(queens) {
      AttackIsConflict(queens, dims);
      ConflictIffOverlap(queens, dims);
    }
  }
}
