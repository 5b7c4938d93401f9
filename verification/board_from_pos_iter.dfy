/**
  * Building a board from a sequence of (column, row) positions
  * (src/board/board_from_pos_iter.rs): start from the default 8 by 8 board
  * and add a queen for each position in turn.
  */
module BoardFromPosIter {
  import opened Position
  import opened Boards

  /**
    * Every position has an index inside the default board's 64 squares;
    * a position beyond that makes `add_queen` index out of range.
    */
  predicate Placeable(positions: seq<PosCoords>)
  {
    forall k :: 0 <= k < |positions| ==> positions[k].1 * 8 + positions[k].0 < 64
  }

  /**
    * The squares of the default board after `add_queen` for each position in
    * turn: a square holds a queen exactly when some position has its index.
    */
  function PlacedSquares(positions: seq<PosCoords>): (r: seq<Square>)
    requires Placeable(positions)
    ensures |r| == 64
    ensures forall i :: 0 <= i < 64 ==>
              (r[i] == Queen <==> exists k :: 0 <= k < |positions| && positions[k].1 * 8 + positions[k].0 == i)
  {
    if |positions| == 0 then seq(64, _ => Empty)
    else
      var init := positions[..|positions| - 1];
      var p := positions[|positions| - 1];
      assert forall k :: 0 <= k < |init| ==> init[k] == positions[k];
      PlacedSquares(init)[p.1 * 8 + p.0 := Queen]
  }

  method FromIter(positions: seq<PosCoords>) returns (board: Board)
    requires Placeable(positions)
    ensures fresh(board) && fresh(board.squares)
    ensures board.Valid() && board.width == 8 && board.height == 8
    ensures board.squares[..] == PlacedSquares(positions)
  {
    board := new Board.New();
    assert board.squares[..] == PlacedSquares([]);
    for k := 0 to |positions|
      invariant Placeable(positions[..k])
      invariant board.squares[..] == PlacedSquares(positions[..k])
    {
      var (col, row) := positions[k];
      PlacedStep(positions, k);
      board.AddQueen(row, col);
    }
    assert positions[..|positions|] == positions;
  }

  /** One more turn of the loop writes one more queen. */
  lemma PlacedStep(positions: seq<PosCoords>, k: nat)
    requires Placeable(positions) && k < |positions|
    ensures Placeable(positions[..k]) && Placeable(positions[..k + 1])
    ensures PlacedSquares(positions[..k + 1]) ==
            PlacedSquares(positions[..k])[positions[k].1 * 8 + positions[k].0 := Queen]
  {
    assert positions[..k + 1][..k] == positions[..k];
  }

  /** Neither the order of the positions nor repeats among them change the board. */
  lemma PlacedSquaresOrderFree(ps: seq<PosCoords>, qs: seq<PosCoords>)
    requires Placeable(ps) && Placeable(qs)
    requires ToSet(ps) == ToSet(qs)
    ensures PlacedSquares(ps) == PlacedSquares(qs)
  {
    var a, b := PlacedSquares(ps), PlacedSquares(qs);
    forall i | 0 <= i < 64 ensures a[i] == b[i] {
      if a[i] == Queen {
        var k :| 0 <= k < |ps| && ps[k].1 * 8 + ps[k].0 == i;
        assert ps[k] in ToSet(qs);
      }
      if b[i] == Queen {
        var k :| 0 <= k < |qs| && qs[k].1 * 8 + qs[k].0 == i;
        assert qs[k] in ToSet(ps);
      }
    }
  }

  /** The queen positions of a board built from in-bounds positions are those positions. */
  lemma PlacedQueenPositions(ps: seq<PosCoords>)
    requires forall k :: 0 <= k < |ps| ==> InBounds(ps[k], (8, 8))
    ensures Placeable(ps)
    ensures ToSet(QueenListing(PlacedSquares(ps), 8)) == ToSet(ps)
  {
    assert Placeable(ps) by {
      forall k | 0 <= k < |ps| ensures ps[k].1 * 8 + ps[k].0 < 64 {
        IndexInBounds(8, 8, ps[k].1, ps[k].0);
      }
    }
    forall p ensures p in QueenListing(PlacedSquares(ps), 8) <==> p in ps {
      if p in QueenListing(PlacedSquares(ps), 8) {
        PlacedQueenListed(ps, p);
      }
      if p in ps {
        PlacedQueenFound(ps, p);
      }
    }
  }

  lemma {:induction false} PlacedQueenListed(ps: seq<PosCoords>, p: PosCoords)
    requires Placeable(ps)
    requires forall k :: 0 <= k < |ps| ==> ps[k].0 < 8
    requires p in QueenListing(PlacedSquares(ps), 8)
    ensures p in ps
  {
    var s := PlacedSquares(ps);
    var i :| 0 <= i < |s| && s[i] == Queen && IndexPos(i, 8) == p;
    var k :| 0 <= k < |ps| && ps[k].1 * 8 + ps[k].0 == i;
    DivModOfIndex(8, ps[k].1, ps[k].0);
    assert ps[k] == p;
  }

  lemma {:induction false} PlacedQueenFound(ps: seq<PosCoords>, p: PosCoords)
    requires Placeable(ps)
    requires p in ps && p.0 < 8
    ensures p in QueenListing(PlacedSquares(ps), 8)
  {
    var s := PlacedSquares(ps);
    var i := p.1 * 8 + p.0;
    DivModOfIndex(8, p.1, p.0);
    assert s[i] == Queen && IndexPos(i, 8) == p;
  }

  // The cases the source's own tests check.

  lemma NoPositionsNoQueens()
    ensures QueenListing(PlacedSquares([]), 8) == []
  {
    assert forall i :: 0 <= i < 64 ==> PlacedSquares([])[i] == Empty;
  }

  lemma QueensAtOriginAndAbove()
    ensures ToSet(QueenListing(PlacedSquares([(0, 0), (0, 1)]), 8)) == {(0, 0), (0, 1)}
  {
    PlacedQueenPositions([(0, 0), (0, 1)]);
  }

  /** Queens added on the four corners are found on the four corners. */
  lemma QueensOnCorners()
    ensures ToSet(QueenListing(PlacedSquares([(0, 0), (0, 7), (7, 0), (7, 7)]), 8)) ==
            {(0, 0), (0, 7), (7, 0), (7, 7)}
  {
    PlacedQueenPositions([(0, 0), (0, 7), (7, 0), (7, 7)]);
  }
}
