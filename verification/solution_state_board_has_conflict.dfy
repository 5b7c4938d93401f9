/**
  * The solver's conflict test (src/solver/solution_state/board_has_conflict.rs),
  * over the queen positions and the uncontested squares it is handed. With no
  * queens it answers `false`; otherwise it folds `&&` over "this queen stands
  * on an uncontested square", starting from `true`. Despite its name it is
  * therefore true when every queen is uncontested, and since a queen always
  * contests its own square it is false on every board.
  */
module SolutionStateBoardHasConflict {
  import opened Position
  import opened Queen
  import opened BoardUncontestedSpaces
  import opened CheckerBoardHasConflict

  /** The fold: `acc`, then `&&` with each queen's membership in turn. */
  function FoldUncontested(queens: seq<PosCoords>, uncontested: set<PosCoords>, acc: bool): (r: bool)
    ensures r ==> acc
  {
    if |queens| == 0 then acc
    else FoldUncontested(queens[1..], uncontested, acc && queens[0] in uncontested)
  }

  /** The test as written: `false` without queens, else the fold from `true`. */
  function HasContestedQueens(queens: seq<PosCoords>, uncontested: set<PosCoords>): (r: bool)
    ensures r ==> |queens| > 0
  {
    if |queens| == 0 then false
    else FoldUncontested(queens, uncontested, true)
  }

  /** The fold holds exactly when the start value does and every queen is uncontested. */
  lemma {:induction false} FoldUncontestedSpec(queens: seq<PosCoords>, uncontested: set<PosCoords>, acc: bool)
    ensures FoldUncontested(queens, uncontested, acc) <==>
            acc && forall i :: 0 <= i < |queens| ==> queens[i] in uncontested
  {
    if |queens| > 0 {
      FoldUncontestedSpec(queens[1..], uncontested, acc && queens[0] in uncontested);
      assert forall i :: 1 <= i < |queens| ==> queens[1..][i - 1] == queens[i];
    }
  }

  /** True exactly when there are queens and every one of them stands on an uncontested square. */
  lemma HasContestedQueensSpec(queens: seq<PosCoords>, uncontested: set<PosCoords>)
    ensures HasContestedQueens(queens, uncontested) <==>
            |queens| > 0 && ToSet(queens) <= uncontested
  {
    FoldUncontestedSpec(queens, uncontested, true);
    if ToSet(queens) <= uncontested {
      assert forall i :: 0 <= i < |queens| ==> queens[i] in ToSet(queens);
    }
  }

  /** Being a conjunction, the fold does not depend on the order in which the queens are visited. */
  lemma HasContestedQueensOrderFree(queens: seq<PosCoords>, others: seq<PosCoords>, uncontested: set<PosCoords>)
    requires ToSet(queens) == ToSet(others)
    ensures HasContestedQueens(queens, uncontested) == HasContestedQueens(others, uncontested)
  {
    HasContestedQueensSpec(queens, uncontested);
    HasContestedQueensSpec(others, uncontested);
    if |queens| > 0 {
      assert queens[0] in ToSet(others);
    }
    if |others| > 0 {
      assert others[0] in ToSet(queens);
    }
  }

  /** Keeping some of the queens, at least one, keeps a true answer true. */
  lemma HasContestedQueensFewer(queens: seq<PosCoords>, fewer: seq<PosCoords>, uncontested: set<PosCoords>)
    requires HasContestedQueens(queens, uncontested)
    requires |fewer| > 0 && ToSet(fewer) <= ToSet(queens)
    ensures HasContestedQueens(fewer, uncontested)
  {
    HasContestedQueensSpec(queens, uncontested);
    HasContestedQueensSpec(fewer, uncontested);
  }

  /**
    * Handed the board's own uncontested squares, the test is false: every
    * queen contests its own square.
    */
  lemma NeverContestedOnBoard(queens: seq<PosCoords>, dims: Dims)
    requires AllInBounds(queens, dims)
    ensures AllNoUnderflow(queens, dims)
    ensures !HasContestedQueens(queens, UncontestedSpaces(queens, dims))
  {
    HasContestedQueensSpec(queens, UncontestedSpaces(queens, dims));
    if |queens| > 0 {
      assert queens[0] in ToSet(queens);
    }
  }

  // The test its doc comment describes: some queen could move onto another
  // queen's square.

  /** A queen stands on a square another queen contests. */
  function HasContestedQueensIntended(queens: seq<PosCoords>, dims: Dims): (r: bool)
    requires AllInBounds(queens, dims)
    ensures AllNoUnderflow(queens, dims)
    ensures r <==> exists i, j :: 0 <= i < |queens| && 0 <= j < |queens| && queens[i] != queens[j] &&
                                 queens[i] in QueenMoves(queens[j], dims)
  {
    QueensAttackSpec(queens, dims);
    QueensAttack(queens)
  }

  /**
    * The eight-queen board with two queens in column 5: the intended test
    * finds the contested pair, the test as written does not. The board is a
    * parameter fixed by `requires` so that the verifier treats it as one term.
    */
  lemma ColumnFiveContestedMissed(queens: seq<PosCoords>)
    requires queens == [(2, 0), (4, 1), (1, 2), (7, 3), (0, 4), (6, 5), (5, 6), (5, 7)]
    ensures AllInBounds(queens, (8, 8))
    ensures HasContestedQueensIntended(queens, (8, 8))
    ensures !HasContestedQueens(queens, UncontestedSpaces(queens, (8, 8)))
  {
    assert queens[6] != queens[7] && SharesLine(queens[6], queens[7]);
    NeverContestedOnBoard(queens, (8, 8));
  }
}
