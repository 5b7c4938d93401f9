/**
  * The cases the tests in `src/queen/mod.rs` check, on an 8x8 board, proved
  * against the general model of a queen's moves.
  */
module QueenTests {
  import opened Position
  import opened Queen

  const MovesFrom22: seq<PosCoords> := [
    (0, 0), (0, 2), (0, 4), (1, 1), (1, 2), (1, 3), (2, 0), (2, 1), (2, 2), (2, 3),
    (2, 4), (2, 5), (2, 6), (2, 7), (3, 1), (3, 2), (3, 3), (4, 0), (4, 2), (4, 4),
    (5, 2), (5, 5), (6, 2), (6, 6), (7, 2), (7, 7)]

  const MovesFrom77: seq<PosCoords> := [
    (0, 0), (0, 7), (1, 1), (1, 7), (2, 2), (2, 7), (3, 3), (3, 7), (4, 4), (4, 7),
    (5, 5), (5, 7), (6, 6), (6, 7), (7, 0), (7, 1), (7, 2), (7, 3), (7, 4), (7, 5),
    (7, 6), (7, 7)]

  const ContestedBottomCorners: seq<PosCoords> := [
    (0, 0), (0, 1), (0, 2), (0, 3), (0, 4), (0, 5), (0, 6), (0, 7),
    (1, 0), (1, 1), (1, 6),
    (2, 0), (2, 2), (2, 5),
    (3, 0), (3, 3), (3, 4),
    (4, 0), (4, 3), (4, 4),
    (5, 0), (5, 2), (5, 5),
    (6, 0), (6, 1), (6, 6),
    (7, 0), (7, 1), (7, 2), (7, 3), (7, 4), (7, 5), (7, 6), (7, 7)]

  // The lemmas below take a test's list of positions as a parameter fixed by
  // `requires corners == [...]` rather than writing the list inline: the
  // verifier then treats the list as one term and unfolds it only where a
  // proof asks, which keeps these concrete proofs within their resource limit.

  // Each listed square is contested, and each contested square is listed;
  // the two directions are kept apart because together they are costly.

  lemma MovesFrom22Listed(q: PosCoords)
    ensures q in MovesFrom22 ==> InBounds(q, (8, 8)) && SharesLine((2, 2), q)
    ensures InBounds(q, (8, 8)) && SharesLine((2, 2), q) ==> q in MovesFrom22
  {
    var s := MovesFrom22;
    forall i | 0 <= i < |s| ensures InBounds(s[i], (8, 8)) && SharesLine((2, 2), s[i]) {
    }
  }

  lemma QueenMovesFrom22()
    ensures QueenMoves((2, 2), (8, 8)) == MovesFrom22
  {
    var m := QueenMoves((2, 2), (8, 8));
    AscendingFromNeighbours(MovesFrom22);
    forall q ensures q in m <==> q in MovesFrom22 {
      QueenMovesSpec((2, 2), (8, 8), q);
      MovesFrom22Listed(q);
    }
    assert ToSet(m) == ToSet(MovesFrom22);
    AscendingUnique(m, MovesFrom22);
  }

  lemma MovesFrom77Listed(q: PosCoords)
    ensures q in MovesFrom77 ==> InBounds(q, (8, 8)) && SharesLine((7, 7), q)
    ensures InBounds(q, (8, 8)) && SharesLine((7, 7), q) ==> q in MovesFrom77
  {
    var s := MovesFrom77;
    forall i | 0 <= i < |s| ensures InBounds(s[i], (8, 8)) && SharesLine((7, 7), s[i]) {
    }
  }

  lemma QueenMovesFrom77()
    ensures QueenMoves((7, 7), (8, 8)) == MovesFrom77
  {
    var m := QueenMoves((7, 7), (8, 8));
    AscendingFromNeighbours(MovesFrom77);
    forall q ensures q in m <==> q in MovesFrom77 {
      QueenMovesSpec((7, 7), (8, 8), q);
      MovesFrom77Listed(q);
    }
    assert ToSet(m) == ToSet(MovesFrom77);
    AscendingUnique(m, MovesFrom77);
  }

  /** What two queens contest is what either of them contests. */
  lemma ContestedByTwo(a: PosCoords, b: PosCoords, dims: Dims, q: PosCoords)
    requires NoUnderflow(a, dims) && NoUnderflow(b, dims)
    ensures AllNoUnderflow([a, b], dims)
    ensures q in ContestedSpaces([a, b], dims) <==> q in QueenMoves(a, dims) || q in QueenMoves(b, dims)
  {
    var queens := [a, b];
    assert queens[0] == a && queens[1] == b;
  }

  predicate OnBottomCornerLines(q: PosCoords)
  {
    InBounds(q, (8, 8)) && (q.0 == 0 || q.0 == 7 || q.1 == 0 || q.0 == q.1 || q.0 + q.1 == 7)
  }

  lemma ContestedBottomCornersListed(q: PosCoords)
    ensures q in ContestedBottomCorners ==> OnBottomCornerLines(q)
    ensures OnBottomCornerLines(q) ==> q in ContestedBottomCorners
  {
    var s := ContestedBottomCorners;
    forall i | 0 <= i < |s| ensures OnBottomCornerLines(s[i]) {
    }
  }

  lemma QueenMovesFrom00(q: PosCoords)
    ensures q in QueenMoves((0, 0), (8, 8)) <==> InBounds(q, (8, 8)) && (q.0 == 0 || q.1 == 0 || q.0 == q.1)
  {
    QueenMovesSpec((0, 0), (8, 8), q);
  }

  lemma QueenMovesFrom70(q: PosCoords)
    ensures q in QueenMoves((7, 0), (8, 8)) <==> InBounds(q, (8, 8)) && (q.0 == 7 || q.1 == 0 || q.0 + q.1 == 7)
  {
    QueenMovesSpec((7, 0), (8, 8), q);
  }

  lemma ContestedFromBottomCornersAt(corners: seq<PosCoords>, q: PosCoords)
    requires corners == [(0, 0), (7, 0)]
    ensures q in ContestedSpaces(corners, (8, 8)) <==> OnBottomCornerLines(q)
  {
    ContestedByTwo((0, 0), (7, 0), (8, 8), q);
    QueenMovesFrom00(q);
    QueenMovesFrom70(q);
  }

  lemma ContestedFromBottomCornersSet(corners: seq<PosCoords>)
    requires corners == [(0, 0), (7, 0)]
    ensures ToSet(ContestedSpaces(corners, (8, 8))) == ToSet(ContestedBottomCorners)
  {
    var c := ContestedSpaces(corners, (8, 8));
    forall q ensures q in c <==> q in ContestedBottomCorners {
      ContestedFromBottomCornersAt(corners, q);
      ContestedBottomCornersListed(q);
    }
  }

  /** The listing is the only strictly ascending list of its squares. */
  lemma BottomCornersOrder(c: seq<PosCoords>)
    requires StrictlyAscending(c)
    requires ToSet(c) == ToSet(ContestedBottomCorners)
    ensures c == ContestedBottomCorners
  {
    EqualsListed(c, ContestedBottomCorners);
  }

  /** Queens on the two bottom corners contest exactly the 34 listed squares, in that order. */
  lemma ContestedFromBottomCorners(corners: seq<PosCoords>)
    requires corners == [(0, 0), (7, 0)]
    ensures ContestedSpaces(corners, (8, 8)) == ContestedBottomCorners
  {
    ContestedFromBottomCornersSet(corners);
    BottomCornersOrder(ContestedSpaces(corners, (8, 8)));
  }
}
