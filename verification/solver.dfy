/**
  * The solver (src/solver/mod.rs): a board together with its solution
  * record, and the successors of a board, one per uncontested square, each
  * a copy of the board with a queen added on that square.
  */
module Solvers {
  import opened Position
  import opened Queen
  import opened Boards
  import opened BoardUncontestedSpaces
  import opened SolutionStates

  /** Every queen of a valid board stands on the board. */
  lemma PositionsOnBoard(b: Board)
    requires b.Valid()
    ensures AllInBounds(b.QueenPositions(), b.Dims())
  {
    var r := b.QueenPositions();
    assert forall i :: 0 <= i < |r| ==> r[i] in r;
  }

  /** The uncontested squares of a board. */
  function BoardUncontested(b: Board): (r: set<PosCoords>)
    requires b.Valid()
    reads b.squares
    ensures forall p :: p in r ==> InBounds(p, b.Dims())
  {
    PositionsOnBoard(b);
    UncontestedSpaces(b.QueenPositions(), b.Dims())
  }

  /** The uncontested squares of a board are those of its listing of queens. */
  lemma BoardUncontestedListing(b: Board)
    requires b.Valid()
    ensures AllInBounds(b.QueenPositions(), b.Dims())
    ensures BoardUncontested(b) == UncontestedSpaces(b.QueenPositions(), b.Dims())
  {
    PositionsOnBoard(b);
  }

  /** An uncontested square holds no queen: every queen contests its own square. */
  lemma UncontestedSquareEmpty(b: Board, p: PosCoords)
    requires b.Valid() && p in BoardUncontested(b)
    ensures b.GetPosIndex(p.1, p.0) < b.squares.Length
    ensures b.squares[b.GetPosIndex(p.1, p.0)] == Empty
  {
    PositionsOnBoard(b);
  }

  /** Writing a queen on two different empty squares gives two different vectors. */
  lemma WritesDiffer(squares: seq<Square>, i: nat, j: nat)
    requires i < |squares| && j < |squares| && i != j
    requires squares[i] == Empty && squares[j] == Empty
    ensures squares[i := Queen] != squares[j := Queen]
  {
    assert squares[j := Queen][i] == Empty;
  }

  /** A listing of one more queen blocks a square exactly when the shorter listing or the new queen does. */
  lemma OneMoreQueenBlocks(more: seq<PosCoords>, fewer: seq<PosCoords>, p: PosCoords, q: PosCoords)
    requires ToSet(more) == ToSet(fewer) + {p}
    ensures Unattacked(more, q) <==> Unattacked(fewer, q) && !SharesLine(p, q)
  {
    if Unattacked(more, q) {
      forall i | 0 <= i < |fewer| ensures !SharesLine(fewer[i], q) {
        assert fewer[i] in ToSet(more);
      }
      assert p in ToSet(more);
    }
    if Unattacked(fewer, q) && !SharesLine(p, q) {
      forall i | 0 <= i < |more| ensures !SharesLine(more[i], q) {
        assert more[i] in ToSet(fewer) + {p};
      }
    }
  }

  /**
    * One queen more at `p` leaves uncontested the squares off its lines that
    * were uncontested: `after` and `before` are the uncontested squares with
    * and without it.
    */
  lemma UncontestedOneMore(more: seq<PosCoords>, fewer: seq<PosCoords>, dims: Dims, p: PosCoords,
                           after: set<PosCoords>, before: set<PosCoords>, q: PosCoords)
    requires AllInBounds(more, dims) && AllInBounds(fewer, dims)
    requires ToSet(more) == ToSet(fewer) + {p}
    requires after == UncontestedSpaces(more, dims) && before == UncontestedSpaces(fewer, dims)
    ensures q in after <==> q in before && !SharesLine(p, q)
  {
    UncontestedSpacesSpec(more, dims, q);
    UncontestedSpacesSpec(fewer, dims, q);
    OneMoreQueenBlocks(more, fewer, p, q);
  }

  /**
    * `state` is the record of the board whose vector of squares is `squares`
    * and whose size is `dims`.
    */
  ghost predicate RecordOf(squares: seq<Square>, dims: Dims, state: SolutionState)
  {
    dims.0 > 0 && |squares| == dims.0 * dims.1 &&
    AllInBounds(QueenListing(squares, dims.0), dims) && |QueenListing(squares, dims.0)| <= 8 &&
    state == From(QueenListing(squares, dims.0), dims)
  }

  /** Listing `p` before a listing of the other squares lists them all. */
  lemma ListFirst(p: PosCoords, rest: seq<PosCoords>, all: set<PosCoords>)
    requires p in all && Distinct(rest) && ToSet(rest) == all - {p}
    ensures Distinct([p] + rest) && ToSet([p] + rest) == all
  {
    assert ToSet([p] + rest) == {p} + ToSet(rest);
    forall i | 0 < i < |[p] + rest| ensures ([p] + rest)[i] != p {
      assert ([p] + rest)[i] in ToSet(rest);
    }
  }

  class Solver {
    const currBoard: Board
    const solnState: SolutionState

    /** The solver for a copy of `b`, with the record of `b`. */
    constructor New(b: Board)
      requires b.Valid() && b.QueenCount() <= 8
      ensures fresh(currBoard) && fresh(currBoard.squares)
      ensures currBoard.Valid() && currBoard.width == b.width && currBoard.height == b.height
      ensures currBoard.squares[..] == b.squares[..]
      ensures AllInBounds(b.QueenPositions(), b.Dims())
      ensures solnState == From(b.QueenPositions(), b.Dims())
      ensures Valid()
    {
      PositionsOnBoard(b);
      b.QueenCountIsPositions();
      currBoard := new Board.Clone(b);
      solnState := From(b.QueenPositions(), b.Dims());
    }

    /** The record is the record of the solver's board. */
    ghost predicate Valid()
      reads currBoard.squares
    {
      currBoard.Valid() && RecordOf(currBoard.squares[..], currBoard.Dims(), solnState)
    }

    /**
      * `s` is the successor for square `p` of the board: its board has this
      * board's size and is this solver's board with a queen written on `p`.
      */
    ghost predicate IsSuccessor(s: Solver, p: PosCoords)
      requires currBoard.Valid()
      reads currBoard.squares, s.currBoard.squares
    {
      InBounds(p, currBoard.Dims()) && s.currBoard.Valid() &&
      s.currBoard.width == currBoard.width && s.currBoard.height == currBoard.height &&
      s.currBoard.squares[..] == currBoard.squares[..][currBoard.GetPosIndex(p.1, p.0) := Queen]
    }

    /** The successor for square `p`: a copy of the board with a queen added on `p`. */
    method Successor(p: PosCoords) returns (s: Solver)
      requires currBoard.Valid() && InBounds(p, currBoard.Dims()) && currBoard.QueenCount() < 8
      ensures fresh(s) && fresh(s.currBoard.squares) && s.Valid()
      ensures IsSuccessor(s, p)
    {
      var (col, row) := p;
      var child := new Board.Clone(currBoard);
      child.AddQueen(row, col);
      s := new Solver.New(child);
    }

    /** One successor per square of `squares`, visited in no particular order. */
    method SuccessorsFor(squares: set<PosCoords>) returns (next: seq<Solver>, ghost placed: seq<PosCoords>)
      requires currBoard.Valid()
      requires forall p :: p in squares ==> InBounds(p, currBoard.Dims())
      requires currBoard.QueenCount() < 8 || squares == {}
      ensures |next| == |placed| == |squares|
      ensures Distinct(placed) && ToSet(placed) == squares
      ensures forall s :: s in next ==> fresh(s) && fresh(s.currBoard.squares) && s.Valid()
      ensures forall k :: 0 <= k < |next| ==> IsSuccessor(next[k], placed[k])
      decreases |squares|
    {
      if squares == {} {
        return [], [];
      }
      var p :| p in squares;
      var s := Successor(p);
      var rest, restPlaced := SuccessorsFor(squares - {p});
      ListFirst(p, restPlaced, squares);
      SuccessorsCons(s, p, rest, restPlaced);
      next, placed := [s] + rest, [p] + restPlaced;
      DistinctCard(placed);
    }

    /** Putting one successor in front of a list of successors. */
    lemma SuccessorsCons(s: Solver, p: PosCoords, rest: seq<Solver>, restPlaced: seq<PosCoords>)
      requires currBoard.Valid() && |rest| == |restPlaced|
      requires IsSuccessor(s, p)
      requires forall k :: 0 <= k < |rest| ==> IsSuccessor(rest[k], restPlaced[k])
      ensures forall k :: 0 <= k < |rest| + 1 ==> IsSuccessor(([s] + rest)[k], ([p] + restPlaced)[k])
    {
      forall k | 0 < k < |rest| + 1
        ensures IsSuccessor(([s] + rest)[k], ([p] + restPlaced)[k])
      {
        assert ([s] + rest)[k] == rest[k - 1] && ([p] + restPlaced)[k] == restPlaced[k - 1];
      }
    }

    /**
      * One new solver per uncontested square, in no particular order (the
      * source walks a hash set): the square it was made for is listed in
      * `placed`. The board must have room for one more queen whenever a
      * square is free, since the record of a board with nine queens panics.
      */
    method GetNextMoves() returns (next: seq<Solver>, ghost placed: seq<PosCoords>)
      requires currBoard.Valid()
      requires currBoard.QueenCount() < 8 || BoardUncontested(currBoard) == {}
      ensures |next| == |placed| == |BoardUncontested(currBoard)|
      ensures Distinct(placed) && ToSet(placed) == BoardUncontested(currBoard)
      ensures forall s :: s in next ==> fresh(s) && fresh(s.currBoard.squares) && s.Valid()
      ensures forall k :: 0 <= k < |next| ==> IsSuccessor(next[k], placed[k])
      ensures currBoard.squares[..] == old(currBoard.squares[..])
    {
      next, placed := SuccessorsFor(BoardUncontested(currBoard));
    }

    /** The record's uncontested squares are those of the board's queens. */
    lemma RecordUncontested()
      requires Valid()
      ensures AllInBounds(currBoard.QueenPositions(), currBoard.Dims())
      ensures solnState.uncontested == UncontestedSpaces(currBoard.QueenPositions(), currBoard.Dims())
    {
      PositionsOnBoard(currBoard);
    }

    /**
      * A successor holds one queen more than this solver's board: the
      * queens it had and one on the chosen square.
      */
    lemma SuccessorAddsOneQueen(s: Solver, p: PosCoords)
      requires currBoard.Valid() && p in BoardUncontested(currBoard) && IsSuccessor(s, p)
      ensures s.currBoard.QueenCount() == currBoard.QueenCount() + 1
      ensures ToSet(s.currBoard.QueenPositions()) == ToSet(currBoard.QueenPositions()) + {p}
    {
      UncontestedSquareEmpty(currBoard, p);
      var i := currBoard.GetPosIndex(p.1, p.0);
      AddQueenCount(currBoard.squares[..], i);
      AddQueenPositions(currBoard.squares[..], i, currBoard.width);
    }

    /**
      * The record of a successor counts one queen more, and its uncontested
      * squares are this board's uncontested squares off the lines through
      * the new queen.
      */
    lemma SuccessorRecord(s: Solver, p: PosCoords, q: PosCoords)
      requires currBoard.Valid() && p in BoardUncontested(currBoard) && IsSuccessor(s, p) && s.Valid()
      ensures s.solnState.numQueens as int == currBoard.QueenCount() + 1
      ensures q in s.solnState.uncontested <==> q in BoardUncontested(currBoard) && !SharesLine(p, q)
    {
      SuccessorAddsOneQueen(s, p);
      s.currBoard.QueenCountIsPositions();
      currBoard.QueenCountIsPositions();
      BoardUncontestedListing(currBoard);
      s.RecordUncontested();
      var dims := s.currBoard.Dims();
      assert currBoard.Dims() == dims;
      var more, fewer := s.currBoard.QueenPositions(), currBoard.QueenPositions();
      UncontestedOneMore(more, fewer, dims, p, s.solnState.uncontested, BoardUncontested(currBoard), q);
    }

    /** Different uncontested squares give different successor boards. */
    lemma SuccessorsDiffer(s: Solver, p: PosCoords, t: Solver, q: PosCoords)
      requires currBoard.Valid() && p in BoardUncontested(currBoard) && q in BoardUncontested(currBoard)
      requires IsSuccessor(s, p) && IsSuccessor(t, q) && p != q
      ensures s.currBoard.squares[..] != t.currBoard.squares[..]
    {
      UncontestedSquareEmpty(currBoard, p);
      UncontestedSquareEmpty(currBoard, q);
      var i := currBoard.GetPosIndex(p.1, p.0);
      var j := currBoard.GetPosIndex(q.1, q.0);
      assert IndexPos(i, currBoard.width) == p && IndexPos(j, currBoard.width) == q;
      WritesDiffer(currBoard.squares[..], i, j);
    }
  }
}
