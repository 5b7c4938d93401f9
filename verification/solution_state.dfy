/**
  * The solver's record of a board (src/solver/solution_state/mod.rs): its
  * number of queens, its uncontested squares, the conflict test on those, and
  * "solved" from the solved test when there is no conflict.
  */
module SolutionStates {
  import opened Position
  import opened Queen
  import opened CheckResults
  import opened CheckerBoardHasConflict
  import opened BoardUncontestedSpaces
  import opened SolutionStateBoardHasConflict
  import opened SolutionStateBoardIsSolved

  datatype SolutionState = SolutionState(isSolved: bool, hasConflict: bool, numQueens: u8, uncontested: set<PosCoords>)

  /**
    * The record of a board whose queens stand at `queens`, each listed once.
    * The solved test is reached on every board and panics beyond eight
    * queens, hence the bound.
    */
  function From(queens: seq<PosCoords>, dims: Dims): (r: SolutionState)
    requires AllInBounds(queens, dims) && Distinct(queens) && |queens| <= 8
    ensures r.numQueens as int == |queens|
    ensures r.uncontested == UncontestedSpaces(queens, dims)
    ensures r.hasConflict ==> !r.isSolved
    ensures !r.hasConflict ==> (r.isSolved <==> |queens| == 8 && !QueensAttack(queens))
  {
    CheckIsSolvedSpec(queens, dims);
    var numQueens := AsU8(|queens|);
    var uncontested := UncontestedSpaces(queens, dims);
    if HasContestedQueens(queens, uncontested) then
      SolutionState(false, true, numQueens, uncontested)
    else
      SolutionState(CheckIsSolved(queens, dims), false, numQueens, uncontested)
  }

  /**
    * The record never reports a conflict, and it reports "solved" exactly for
    * eight queens no two of which attack each other.
    */
  lemma FromSpec(queens: seq<PosCoords>, dims: Dims)
    requires AllInBounds(queens, dims) && Distinct(queens) && |queens| <= 8
    ensures !From(queens, dims).hasConflict
    ensures From(queens, dims).isSolved <==> |queens| == 8 && !QueensAttack(queens)
  {
    NeverContestedOnBoard(queens, dims);
  }

  /** The empty board has no conflict and is not solved; every square is uncontested. */
  lemma EmptyBoardState(dims: Dims)
    ensures !From([], dims).hasConflict && !From([], dims).isSolved
    ensures From([], dims).numQueens == 0
    ensures forall q :: q in From([], dims).uncontested <==> InBounds(q, dims)
  {
    FromSpec([], dims);
    forall q ensures q in From([], dims).uncontested <==> InBounds(q, dims) {
      UncontestedSpacesSpec([], dims, q);
    }
  }
}
