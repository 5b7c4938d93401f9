/**
  * The checker's conflict rule (src/checker/board_has_conflict.rs): a board
  * has a conflict when the sizes of the queens' move sets add up to more than
  * the number of distinct contested squares. That happens exactly when two
  * queens contest a common square, and any two queens on the board contest
  * the square in the first one's column and the second one's row, so the rule
  * flags every board with two or more queens.
  */
module CheckerBoardHasConflict {
  import opened Position
  import opened Queen

  /** The lengths of the lists, added up. */
  function SumLengths(lists: seq<seq<PosCoords>>): (r: nat)
    ensures forall i :: 0 <= i < |lists| ==> |lists[i]| <= r
  {
    if |lists| == 0 then 0
    else
      assert forall i :: 1 <= i < |lists| ==> lists[1..][i - 1] == lists[i];
      |lists[0]| + SumLengths(lists[1..])
  }

  /** The sizes of the queens' move sets, added up. */
  function TotalMoves(queens: seq<PosCoords>, dims: Dims): (r: nat)
    requires AllNoUnderflow(queens, dims)
    ensures forall i :: 0 <= i < |queens| ==> |QueenMoves(queens[i], dims)| <= r
  {
    SumLengths(QueenMoveSets(queens, dims))
  }

  /** The rule as written: the total differs from the number of distinct contested squares. */
  function BoardHasConflict(queens: seq<PosCoords>, dims: Dims): bool
    requires AllNoUnderflow(queens, dims)
  {
    TotalMoves(queens, dims) != |ContestedSpaces(queens, dims)|
  }

  /** Two of the lists share an element. */
  ghost predicate ListsOverlap(lists: seq<seq<PosCoords>>)
  {
    exists i, j, p :: 0 <= i < j < |lists| && p in lists[i] && p in lists[j]
  }

  /** Two of the queens contest a common square. */
  ghost predicate MovesOverlap(queens: seq<PosCoords>, dims: Dims)
    requires AllNoUnderflow(queens, dims)
  {
    exists i, j, p :: 0 <= i < j < |queens| && p in QueenMoves(queens[i], dims) && p in QueenMoves(queens[j], dims)
  }

  /** Lists overlap when the first meets one of the others, or two of the others overlap. */
  lemma OverlapCons(lists: seq<seq<PosCoords>>)
    requires |lists| > 0
    ensures ListsOverlap(lists) <==>
            ListsOverlap(lists[1..]) || ToSet(lists[0]) * ToSet(Flatten(lists[1..])) != {}
  {
    var rest := lists[1..];
    if ListsOverlap(lists) {
      var i, j, p :| 0 <= i < j < |lists| && p in lists[i] && p in lists[j];
      assert lists[j] == rest[j - 1];
      if i == 0 {
        assert p in ToSet(lists[0]) * ToSet(Flatten(rest));
      } else {
        assert lists[i] == rest[i - 1];
      }
    }
    if ListsOverlap(rest) {
      var i, j, p :| 0 <= i < j < |rest| && p in rest[i] && p in rest[j];
      assert p in lists[i + 1] && p in lists[j + 1];
    }
    if ToSet(lists[0]) * ToSet(Flatten(rest)) != {} {
      var p :| p in ToSet(lists[0]) * ToSet(Flatten(rest));
      var j :| 0 <= j < |rest| && p in rest[j];
      assert p in lists[0] && p in lists[j + 1];
    }
  }

  /**
    * For lists without repeats, the lengths add up to at least the number of
    * distinct elements, and to exactly that number when no two lists share
    * an element.
    */
  lemma {:induction false} SumCoversUnion(lists: seq<seq<PosCoords>>)
    requires forall i :: 0 <= i < |lists| ==> Distinct(lists[i])
    ensures SumLengths(lists) >= |ToSet(Flatten(lists))|
    ensures SumLengths(lists) == |ToSet(Flatten(lists))| <==> !ListsOverlap(lists)
  {
    if |lists| > 0 {
      var rest := lists[1..];
      assert forall i :: 0 <= i < |rest| ==> rest[i] == lists[i + 1];
      SumCoversUnion(rest);
      OverlapCons(lists);
      DistinctCard(lists[0]);
      var a, b := ToSet(lists[0]), ToSet(Flatten(rest));
      assert ToSet(Flatten(lists)) == a + b;
      assert |a + b| + |a * b| == |a| + |b|;
    }
  }

  /**
    * The total never falls below the number of distinct contested squares,
    * and equals it exactly when no two queens contest a common square.
    */
  lemma TotalCoversContested(queens: seq<PosCoords>, dims: Dims)
    requires AllNoUnderflow(queens, dims)
    ensures TotalMoves(queens, dims) >= |ContestedSpaces(queens, dims)|
    ensures TotalMoves(queens, dims) == |ContestedSpaces(queens, dims)| <==> !MovesOverlap(queens, dims)
  {
    var lists := QueenMoveSets(queens, dims);
    forall i | 0 <= i < |lists| ensures Distinct(lists[i]) {
      AscendingIsDistinct(lists[i]);
    }
    SumCoversUnion(lists);
    var c := ContestedSpaces(queens, dims);
    AscendingIsDistinct(c);
    DistinctCard(c);
    assert ToSet(c) == ToSet(Flatten(lists));
    assert ListsOverlap(lists) <==> MovesOverlap(queens, dims);
  }

  /** The rule flags a board exactly when two queens contest a common square. */
  lemma ConflictIffOverlap(queens: seq<PosCoords>, dims: Dims)
    requires AllNoUnderflow(queens, dims)
    ensures BoardHasConflict(queens, dims) <==> MovesOverlap(queens, dims)
  {
    TotalCoversContested(queens, dims);
  }

  /** No queen, or a single one, gives no conflict. */
  lemma FewQueensNoConflict(queens: seq<PosCoords>, dims: Dims)
    requires AllNoUnderflow(queens, dims) && |queens| <= 1
    ensures !BoardHasConflict(queens, dims)
  {
    ConflictIffOverlap(queens, dims);
  }

  /** A queen standing on a square another queen contests gives a conflict. */
  lemma QueenOnContestedSquare(queens: seq<PosCoords>, dims: Dims, i: nat, j: nat)
    requires AllInBounds(queens, dims)
    requires i < |queens| && j < |queens| && i != j
    requires queens[i] in QueenMoves(queens[j], dims)
    ensures AllNoUnderflow(queens, dims)
    ensures BoardHasConflict(queens, dims)
  {
    OwnSquareContested(queens[i], dims);
    ConflictIffOverlap(queens, dims);
    if i < j {
      assert queens[i] in QueenMoves(queens[i], dims) && queens[i] in QueenMoves(queens[j], dims);
    } else {
      assert queens[i] in QueenMoves(queens[j], dims) && queens[i] in QueenMoves(queens[i], dims);
    }
  }

  /**
    * Any two queens on the board both contest the square in the first one's
    * column and the second one's row, so every board with two or more queens
    * has a conflict by this rule.
    */
  lemma TwoQueensAlwaysConflict(queens: seq<PosCoords>, dims: Dims)
    requires AllInBounds(queens, dims) && |queens| >= 2
    ensures AllNoUnderflow(queens, dims)
    ensures BoardHasConflict(queens, dims)
  {
    var a, b := queens[0], queens[1];
    var p := (a.0, b.1);
    QueenMovesSpec(a, dims, p);
    QueenMovesSpec(b, dims, p);
    ConflictIffOverlap(queens, dims);
    assert p in QueenMoves(queens[0], dims) && p in QueenMoves(queens[1], dims);
  }

  // The rule the source's tests expect: a conflict is two queens that could
  // move onto one another's square.

  /** Two different queens share a column, a row or a diagonal. */
  predicate QueensAttack(queens: seq<PosCoords>)
    ensures QueensAttack(queens) ==> |queens| >= 2
  {
    exists i, j :: 0 <= i < |queens| && 0 <= j < |queens| && queens[i] != queens[j] && SharesLine(queens[i], queens[j])
  }

  /**
    * On the board, two queens attack each other exactly when one stands on a
    * square the other contests.
    */
  lemma QueensAttackSpec(queens: seq<PosCoords>, dims: Dims)
    requires AllInBounds(queens, dims)
    ensures AllNoUnderflow(queens, dims)
    ensures QueensAttack(queens) <==>
            exists i, j :: 0 <= i < |queens| && 0 <= j < |queens| && queens[i] != queens[j] &&
                           queens[i] in QueenMoves(queens[j], dims)
  {
    forall i, j | 0 <= i < |queens| && 0 <= j < |queens|
      ensures queens[i] in QueenMoves(queens[j], dims) <==> SharesLine(queens[i], queens[j])
    {
      QueenMovesSpec(queens[j], dims, queens[i]);
    }
  }

  /** Whether queens attack one another depends only on where they stand. */
  lemma QueensAttackOrderFree(queens: seq<PosCoords>, others: seq<PosCoords>)
    requires ToSet(queens) == ToSet(others)
    ensures QueensAttack(queens) <==> QueensAttack(others)
  {
    if QueensAttack(queens) {
      var i, j :| 0 <= i < |queens| && 0 <= j < |queens| && queens[i] != queens[j] && SharesLine(queens[i], queens[j]);
      assert queens[i] in ToSet(others) && queens[j] in ToSet(others);
      var k :| 0 <= k < |others| && others[k] == queens[i];
      var l :| 0 <= l < |others| && others[l] == queens[j];
    }
    if QueensAttack(others) {
      var i, j :| 0 <= i < |others| && 0 <= j < |others| && others[i] != others[j] && SharesLine(others[i], others[j]);
      assert others[i] in ToSet(queens) && others[j] in ToSet(queens);
      var k :| 0 <= k < |queens| && queens[k] == others[i];
      var l :| 0 <= l < |queens| && queens[l] == others[j];
    }
  }

  /** Every pair of attacking queens is a conflict for the counting rule too. */
  lemma AttackIsConflict(queens: seq<PosCoords>, dims: Dims)
    requires AllInBounds(queens, dims) && QueensAttack(queens)
    ensures AllNoUnderflow(queens, dims)
    ensures BoardHasConflict(queens, dims)
  {
    var i, j :| 0 <= i < |queens| && 0 <= j < |queens| && queens[i] != queens[j] && SharesLine(queens[i], queens[j]);
    QueenMovesSpec(queens[j], dims, queens[i]);
    QueenOnContestedSquare(queens, dims, i, j);
  }
}
