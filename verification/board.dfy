/**
  * The dense board of src/board/mod.rs and src/board/board_queens.rs: a
  * `width` by `height` grid stored row by row in one vector of squares, the
  * square at row `row` and column `col` sitting at index `row * width + col`.
  * Only `add_queen` changes a board, by writing one square in place.
  */
module Boards {
  import opened Position

  // Index arithmetic.

  /** Division by a positive width gives back the row and column of `row * width + col`. */
  lemma {:induction false} DivModOfIndex(width: nat, row: nat, col: nat)
    requires col < width
    ensures (row * width + col) / width == row
    ensures (row * width + col) % width == col
  {
    var i := row * width + col;
    var q, m := i / width, i % width;
    if q < row {
      EarlierRowSmallerIndex(q, row, width, m, col);
      assert false;
    } else if q > row {
      EarlierRowSmallerIndex(row, q, width, col, m);
      assert false;
    }
  }

  /** Every square of an earlier row has a smaller index. */
  lemma EarlierRowSmallerIndex(a: nat, b: nat, width: nat, x: nat, y: nat)
    requires a < b && x < width
    ensures a * width + x < b * width + y
  {
    MulMonotone(a + 1, b, width);
  }

  lemma MulMonotone(a: nat, b: nat, width: nat)
    requires a <= b
    ensures a * width <= b * width
  {
  }

  /** An index below `width * height` stands for a row below `height`. */
  lemma RowInBounds(i: nat, width: nat, height: nat)
    requires width > 0 && i < width * height
    ensures i / width < height
  {
    if i / width >= height {
      MulMonotone(height, i / width, width);
      assert false;
    }
  }

  /** A square in bounds has an index below `width * height`. */
  lemma IndexInBounds(width: nat, height: nat, row: nat, col: nat)
    requires row < height && col < width
    ensures row * width + col < width * height
  {
    MulMonotone(row + 1, height, width);
  }

  /**
    * The square an index stands for: the evident inverse of `get_pos_index`,
    * whose own body in the source is left unimplemented.
    */
  function IndexPos(i: nat, width: nat): (p: PosCoords)
    requires width > 0
    ensures p.0 < width
    ensures p.1 * width + p.0 == i
  {
    (i % width, i / width)
  }

  // Counting and listing the queens of a vector of squares.

  function QueenIndices(s: seq<Square>): set<nat>
  {
    set i: nat | i < |s| && s[i] == Queen
  }

  /** The number of `Queen` squares, as `filter(..).count()` finds it. */
  function CountQueens(s: seq<Square>): (r: nat)
    ensures r == |QueenIndices(s)|
    ensures r <= |s|
  {
    if |s| == 0 then 0
    else
      var init := s[..|s| - 1];
      var n := CountQueens(init);
      assert QueenIndices(init) == QueenIndices(s) - {|s| - 1};
      if s[|s| - 1] == Queen then
        assert QueenIndices(s) == QueenIndices(init) + {|s| - 1};
        n + 1
      else
        assert QueenIndices(s) == QueenIndices(init);
        n
  }

  /**
    * The positions of the queens, in the order in which the squares are
    * enumerated; the source collects them into a hash set.
    */
  function QueenListing(s: seq<Square>, width: nat): (r: seq<PosCoords>)
    requires width > 0
    ensures |r| == CountQueens(s)
    ensures Distinct(r)
    ensures forall p :: p in r <==> exists i :: 0 <= i < |s| && s[i] == Queen && IndexPos(i, width) == p
  {
    if |s| == 0 then []
    else
      var init := s[..|s| - 1];
      var rest := QueenListing(init, width);
      assert forall i :: 0 <= i < |init| ==> init[i] == s[i];
      if s[|s| - 1] == Queen then
        var p := IndexPos(|s| - 1, width);
        assert p !in rest;
        rest + [p]
      else
        rest
  }

  /** Writing a queen adds one to the count exactly when the square was empty. */
  lemma AddQueenCount(s: seq<Square>, i: nat)
    requires i < |s|
    ensures CountQueens(s[i := Queen]) == CountQueens(s) + (if s[i] == Empty then 1 else 0)
  {
    if s[i] == Empty {
      assert QueenIndices(s[i := Queen]) == QueenIndices(s) + {i};
    } else {
      assert QueenIndices(s[i := Queen]) == QueenIndices(s);
    }
  }

  /** Writing a queen adds exactly the square the index stands for to the positions. */
  lemma AddQueenPositions(s: seq<Square>, i: nat, width: nat)
    requires i < |s| && width > 0
    ensures ToSet(QueenListing(s[i := Queen], width)) == ToSet(QueenListing(s, width)) + {IndexPos(i, width)}
  {
    var t := s[i := Queen];
    forall p ensures p in QueenListing(t, width) <==> p in QueenListing(s, width) || p == IndexPos(i, width) {
      if p in QueenListing(s, width) {
        var j :| 0 <= j < |s| && s[j] == Queen && IndexPos(j, width) == p;
        assert t[j] == Queen;
      }
      if p == IndexPos(i, width) {
        assert t[i] == Queen;
      }
    }
  }

  /** Writing the same queen twice leaves the squares as writing it once. */
  lemma AddQueenIdempotent(s: seq<Square>, i: nat)
    requires i < |s|
    ensures s[i := Queen][i := Queen] == s[i := Queen]
  {
  }

  class Board {
    const width: nat
    const height: nat
    const squares: array<Square>

    /** One square per position of a non-empty grid. */
    predicate Valid()
    {
      width > 0 && height > 0 && squares.Length == width * height
    }

    function Dims(): Dims
    {
      (width, height)
    }

    /** The default board: 8 by 8, every square empty. */
    constructor New()
      ensures Valid() && width == 8 && height == 8
      ensures fresh(squares)
      ensures forall i :: 0 <= i < squares.Length ==> squares[i] == Empty
      ensures QueenCount() == 0
    {
      width, height := 8, 8;
      squares := new Square[8 * 8](_ => Empty);
      new;
      assert QueenIndices(squares[..]) == {};
    }

    /** A fresh copy of `other`, as the solver's `clone()` makes it. */
    constructor Clone(other: Board)
      requires other.Valid()
      ensures Valid() && width == other.width && height == other.height
      ensures fresh(squares)
      ensures squares[..] == other.squares[..]
    {
      width, height := other.width, other.height;
      squares := new Square[other.squares.Length](i reads other.squares =>
                   if 0 <= i < other.squares.Length then other.squares[i] else Empty);
    }

    /** The number of `Queen` squares. */
    function QueenCount(): (r: nat)
      requires Valid()
      reads squares
      ensures r <= squares.Length
    {
      CountQueens(squares[..])
    }

    /** The count is the number of queen positions. */
    lemma QueenCountIsPositions()
      requires Valid()
      ensures QueenCount() == |QueenPositions()|
    {
    }

    /**
      * The index of the square at row `row` and column `col`. Inside the
      * board it is a valid index, and it leads back to that square.
      */
    function GetPosIndex(row: nat, col: nat): (r: nat)
      requires Valid()
      ensures row < height && col < width ==> r < squares.Length
      ensures col < width ==> IndexPos(r, width) == (col, row)
    {
      assert row < height && col < width ==> row * width + col < squares.Length by {
        if row < height && col < width {
          IndexInBounds(width, height, row, col);
        }
      }
      assert col < width ==> IndexPos(row * width + col, width) == (col, row) by {
        if col < width {
          DivModOfIndex(width, row, col);
        }
      }
      row * width + col
    }

    /**
      * The positions of the queens: exactly the squares inside the board
      * whose entry in the vector holds a queen, each listed once.
      */
    function QueenPositions(): (r: seq<PosCoords>)
      requires Valid()
      reads squares
      ensures Distinct(r)
      ensures forall p :: p in r <==> InBounds(p, Dims()) && squares[GetPosIndex(p.1, p.0)] == Queen
    {
      var r := QueenListing(squares[..], width);
      assert forall p :: p in r <==> InBounds(p, Dims()) && squares[GetPosIndex(p.1, p.0)] == Queen by {
        forall p ensures p in r <==> InBounds(p, Dims()) && squares[GetPosIndex(p.1, p.0)] == Queen {
          if p in r {
            var i :| 0 <= i < squares.Length && squares[i] == Queen && IndexPos(i, width) == p;
            RowInBounds(i, width, height);
          }
          if InBounds(p, Dims()) && squares[GetPosIndex(p.1, p.0)] == Queen {
            var i := GetPosIndex(p.1, p.0);
            assert squares[..][i] == Queen && IndexPos(i, width) == p;
          }
        }
      }
      r
    }

    /** Writes a queen on the square at row `row` and column `col`; the column is not checked. */
    method AddQueen(row: nat, col: nat)
      requires Valid()
      requires GetPosIndex(row, col) < squares.Length
      modifies squares
      ensures squares[..] == old(squares[..])[GetPosIndex(row, col) := Queen]
      ensures QueenCount() == old(QueenCount()) + (if old(squares[GetPosIndex(row, col)]) == Empty then 1 else 0)
      ensures ToSet(QueenPositions()) == ToSet(old(QueenPositions())) + {IndexPos(GetPosIndex(row, col), width)}
    {
      var i := GetPosIndex(row, col);
      AddQueenCount(squares[..], i);
      AddQueenPositions(squares[..], i, width);
      squares[i] := Queen;
    }

    /** The squares of column `pos.0` from row `pos.1` up to the top edge. */
    function GetUpwardMoves(pos: PosCoords): (r: set<PosCoords>)
      ensures forall q :: q in r <==> q.0 == pos.0 && pos.1 <= q.1 < height
      ensures |r| == if pos.1 <= height then height - pos.1 else 0
    {
      ColumnCard(pos.0, pos.1, height);
      set y: nat | pos.1 <= y < height :: (pos.0, y)
    }
  }

  /** The segment of column `x` between rows `lo` and `hi` has `hi - lo` squares. */
  lemma {:induction false} ColumnCard(x: nat, lo: nat, hi: nat)
    ensures |set y: nat | lo <= y < hi :: (x, y)| == if lo <= hi then hi - lo else 0
  {
    if lo < hi {
      ColumnCard(x, lo, hi - 1);
      assert (set y: nat | lo <= y < hi :: (x, y)) == (set y: nat | lo <= y < hi - 1 :: (x, y)) + {(x, hi - 1)};
    } else {
      assert (set y: nat | lo <= y < hi :: (x, y)) == {};
    }
  }

  // The cases the source's own tests check on the default board.

  lemma GetPosIndexCorners(b: Board)
    requires b.Valid() && b.width == 8 && b.height == 8
    ensures b.GetPosIndex(0, 0) == 0 && b.GetPosIndex(0, 7) == 7
    ensures b.GetPosIndex(7, 0) == 56 && b.GetPosIndex(7, 7) == 63
  {
  }

  lemma UpwardMovesFromOrigin(b: Board)
    requires b.height == 8
    ensures b.GetUpwardMoves((0, 0)) == {(0, 0), (0, 1), (0, 2), (0, 3), (0, 4), (0, 5), (0, 6), (0, 7)}
  {
    var r := b.GetUpwardMoves((0, 0));
    forall q | q in r ensures q in {(0, 0), (0, 1), (0, 2), (0, 3), (0, 4), (0, 5), (0, 6), (0, 7)} {
      assert q.0 == 0 && q.1 < 8;
    }
  }

  lemma UpwardMovesFromTopRow(b: Board)
    requires b.height == 8
    ensures b.GetUpwardMoves((0, 7)) == {(0, 7)}
  {
  }
}
