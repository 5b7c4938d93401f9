/**
  * The squares no queen contests (src/board/board_uncontested_spaces.rs).
  * The source leaves the body unimplemented; its test fixes the result as
  * the squares of the board outside the contested squares.
  */
module BoardUncontestedSpaces {
  import opened Position
  import opened Queen

  /** Every square of the board. */
  function Grid(dims: Dims): (r: set<PosCoords>)
    ensures forall q :: q in r <==> InBounds(q, dims)
  {
    var r := set x: nat, y: nat | x < dims.0 && y < dims.1 :: (x, y);
    assert forall q :: InBounds(q, dims) ==> q in r by {
      forall q | InBounds(q, dims) ensures q in r {
        var (x, y) := q;
        assert (x, y) in r;
      }
    }
    r
  }

  /**
    * The uncontested squares of a board with the given queens: squares of
    * the board outside every queen's contested squares, and so never a
    * queen's own square.
    */
  function UncontestedSpaces(queens: seq<PosCoords>, dims: Dims): (r: set<PosCoords>)
    requires AllNoUnderflow(queens, dims)
    ensures forall q :: q in r ==> InBounds(q, dims)
    ensures forall i :: 0 <= i < |queens| && InBounds(queens[i], dims) ==> queens[i] !in r
  {
    var r := set q | q in Grid(dims) && q !in ContestedSpaces(queens, dims);
    assert forall i :: 0 <= i < |queens| && InBounds(queens[i], dims) ==> queens[i] !in r by {
      forall i | 0 <= i < |queens| && InBounds(queens[i], dims) ensures queens[i] !in r {
        OwnSquareContested(queens[i], dims);
      }
    }
    r
  }

  /** No queen shares a column, a row or a diagonal with `q`. */
  predicate Unattacked(queens: seq<PosCoords>, q: PosCoords)
  {
    forall i :: 0 <= i < |queens| ==> !SharesLine(queens[i], q)
  }

  /**
    * With every queen on the board, a square is uncontested exactly when it
    * lies on the board and shares no column, row or diagonal with any queen.
    */
  lemma UncontestedSpacesSpec(queens: seq<PosCoords>, dims: Dims, q: PosCoords)
    requires AllInBounds(queens, dims)
    ensures AllNoUnderflow(queens, dims)
    ensures q in UncontestedSpaces(queens, dims) <==> InBounds(q, dims) && Unattacked(queens, q)
  {
    ContestedSpacesSpec(queens, dims, q);
  }

  // The case the source's own test checks: queens on the four corners of an 8 by 8 board.
  // The lemmas below take a test's list of positions as a parameter fixed by
  // `requires corners == [...]` rather than writing the list inline: the
  // verifier then treats the list as one term and unfolds it only where a
  // proof asks, which keeps these concrete proofs within their resource limit.

  const UncontestedByCorners: seq<PosCoords> := [
    (2, 6), (3, 6), (4, 6), (5, 6),
    (1, 5), (3, 5), (4, 5), (6, 5),
    (1, 4), (2, 4), (5, 4), (6, 4),
    (1, 3), (2, 3), (5, 3), (6, 3),
    (1, 2), (3, 2), (4, 2), (6, 2),
    (2, 1), (3, 1), (4, 1), (5, 1)]

  /** Inside the board and off both edges' lines and both long diagonals. */
  predicate OffCornerLines(q: PosCoords)
  {
    InBounds(q, (8, 8)) && q.0 != 0 && q.0 != 7 && q.1 != 0 && q.1 != 7 && q.0 != q.1 && q.0 + q.1 != 7
  }

  lemma UncontestedByCornersListed(q: PosCoords)
    ensures q in UncontestedByCorners ==> OffCornerLines(q)
    ensures OffCornerLines(q) ==> q in UncontestedByCorners
  {
    var s := UncontestedByCorners;
    forall i | 0 <= i < |s| ensures OffCornerLines(s[i]) {
    }
  }

  /** Within the board, sharing no line with any corner is being off the corner lines. */
  lemma OffCornerLinesArithmetic(q: PosCoords)
    ensures (InBounds(q, (8, 8)) && !SharesLine((0, 0), q) && !SharesLine((0, 7), q) &&
             !SharesLine((7, 0), q) && !SharesLine((7, 7), q)) <==> OffCornerLines(q)
  {
  }

  lemma SharesNoCorner(corners: seq<PosCoords>, q: PosCoords)
    requires corners == [(0, 0), (0, 7), (7, 0), (7, 7)]
    ensures AllInBounds(corners, (8, 8))
    ensures Unattacked(corners, q) <==>
            !SharesLine((0, 0), q) && !SharesLine((0, 7), q) && !SharesLine((7, 0), q) && !SharesLine((7, 7), q)
  {
    assert corners[0] == (0, 0) && corners[1] == (0, 7) && corners[2] == (7, 0) && corners[3] == (7, 7);
  }

  lemma UncontestedByCornersAt(corners: seq<PosCoords>, q: PosCoords)
    requires corners == [(0, 0), (0, 7), (7, 0), (7, 7)]
    ensures AllNoUnderflow(corners, (8, 8))
    ensures q in UncontestedSpaces(corners, (8, 8)) <==> OffCornerLines(q)
  {
    SharesNoCorner(corners, q);
    UncontestedSpacesSpec(corners, (8, 8), q);
    OffCornerLinesArithmetic(q);
  }

  /** Queens on the four corners leave exactly the 24 listed squares uncontested. */
  lemma UncontestedWithQueensInCorners(corners: seq<PosCoords>)
    requires corners == [(0, 0), (0, 7), (7, 0), (7, 7)]
    ensures AllNoUnderflow(corners, (8, 8))
    ensures UncontestedSpaces(corners, (8, 8)) == ToSet(UncontestedByCorners)
  {
    UncontestedByCornersAt(corners, (0, 0));
    forall q ensures q in UncontestedSpaces(corners, (8, 8)) <==> q in UncontestedByCorners {
      UncontestedByCornersAt(corners, q);
      UncontestedByCornersListed(q);
    }
  }
}
