/**
  * The squares a queen contests: its column, its row and both diagonals,
  * clipped to the board (src/queen/mod.rs). Every diagonal length is a `min`
  * of edge distances taken before any unsigned subtraction, so the only
  * demand on a position is that it does not lie beyond the far edges.
  */
module Queen {
  import opened Position

  function Min(a: nat, b: nat): nat
  {
    if a <= b then a else b
  }

  /** The subtractions `dims.0 - pos.0` and `dims.1 - pos.1` do not underflow. */
  predicate NoUnderflow(pos: PosCoords, dims: Dims)
  {
    pos.0 <= dims.0 && pos.1 <= dims.1
  }

  predicate AllNoUnderflow(queens: seq<PosCoords>, dims: Dims)
  {
    forall i :: 0 <= i < |queens| ==> NoUnderflow(queens[i], dims)
  }

  predicate AllInBounds(queens: seq<PosCoords>, dims: Dims)
  {
    forall i :: 0 <= i < |queens| ==> InBounds(queens[i], dims)
  }

  /** Two squares on one column, row or diagonal. */
  predicate SharesLine(p: PosCoords, q: PosCoords)
  {
    p.0 == q.0 || p.1 == q.1 || p.0 - p.1 == q.0 - q.1 || p.0 + p.1 == q.0 + q.1
  }

  // The six direction helpers. Each is the map of a range `0..n`; each
  // diagonal starts on the queen's own square.

  /** The queen's column, bottom to top. */
  function VertMoves(pos: PosCoords, dims: Dims): (r: seq<PosCoords>)
    ensures |r| == dims.1
  {
    seq(dims.1, y requires 0 <= y => (pos.0, y as nat))
  }

  /** The queen's row, left to right. */
  function HorizMoves(pos: PosCoords, dims: Dims): (r: seq<PosCoords>)
    ensures |r| == dims.0
  {
    seq(dims.0, x requires 0 <= x => (x as nat, pos.1))
  }

  /** Up and to the left. */
  function NwMoves(pos: PosCoords, dims: Dims): (r: seq<PosCoords>)
    requires pos.1 <= dims.1
    ensures |r| > 0 <==> pos.1 < dims.1
    ensures |r| > 0 ==> r[0] == pos
  {
    var disToEdge := Min(pos.0 + 1, dims.1 - pos.1);
    seq(disToEdge, delta requires 0 <= delta < disToEdge => (pos.0 - delta, pos.1 + delta))
  }

  /** Up and to the right. */
  function NeMoves(pos: PosCoords, dims: Dims): (r: seq<PosCoords>)
    requires NoUnderflow(pos, dims)
    ensures |r| > 0 <==> InBounds(pos, dims)
    ensures |r| > 0 ==> r[0] == pos
  {
    var disToEdge := Min(dims.0 - pos.0, dims.1 - pos.1);
    seq(disToEdge, delta requires 0 <= delta => (pos.0 + delta, pos.1 + delta))
  }

  /** Down and to the left; the board's dimensions are not consulted. */
  function SwMoves(pos: PosCoords): (r: seq<PosCoords>)
    ensures |r| > 0 && r[0] == pos
  {
    var disToEdge := Min(pos.0 + 1, pos.1 + 1);
    seq(disToEdge, delta requires 0 <= delta < disToEdge => (pos.0 - delta, pos.1 - delta))
  }

  /** Down and to the right. */
  function SeMoves(pos: PosCoords, dims: Dims): (r: seq<PosCoords>)
    requires pos.0 <= dims.0
    ensures |r| > 0 <==> pos.0 < dims.0
    ensures |r| > 0 ==> r[0] == pos
  {
    var disToEdge := Min(dims.0 - pos.0, pos.1 + 1);
    seq(disToEdge, delta requires 0 <= delta < disToEdge => (pos.0 + delta, pos.1 - delta))
  }

  lemma VertMember(pos: PosCoords, dims: Dims, q: PosCoords)
    ensures q in VertMoves(pos, dims) <==> q.0 == pos.0 && q.1 < dims.1
  {
    if q.0 == pos.0 && q.1 < dims.1 {
      assert VertMoves(pos, dims)[q.1] == q;
    }
  }

  lemma HorizMember(pos: PosCoords, dims: Dims, q: PosCoords)
    ensures q in HorizMoves(pos, dims) <==> q.1 == pos.1 && q.0 < dims.0
  {
    if q.1 == pos.1 && q.0 < dims.0 {
      assert HorizMoves(pos, dims)[q.0] == q;
    }
  }

  lemma NwMember(pos: PosCoords, dims: Dims, q: PosCoords)
    requires pos.1 <= dims.1
    ensures q in NwMoves(pos, dims) <==> q.0 + q.1 == pos.0 + pos.1 && q.0 <= pos.0 && q.1 < dims.1
  {
    if q.0 + q.1 == pos.0 + pos.1 && q.0 <= pos.0 && q.1 < dims.1 {
      assert NwMoves(pos, dims)[pos.0 - q.0] == q;
    }
  }

  lemma NeMember(pos: PosCoords, dims: Dims, q: PosCoords)
    requires NoUnderflow(pos, dims)
    ensures q in NeMoves(pos, dims) <==>
              q.0 - q.1 == pos.0 - pos.1 && pos.0 <= q.0 < dims.0 && q.1 < dims.1
  {
    if q.0 - q.1 == pos.0 - pos.1 && pos.0 <= q.0 < dims.0 && q.1 < dims.1 {
      assert NeMoves(pos, dims)[q.0 - pos.0] == q;
    }
  }

  lemma SwMember(pos: PosCoords, q: PosCoords)
    ensures q in SwMoves(pos) <==> q.0 - q.1 == pos.0 - pos.1 && q.0 <= pos.0
  {
    if q.0 - q.1 == pos.0 - pos.1 && q.0 <= pos.0 {
      assert SwMoves(pos)[pos.0 - q.0] == q;
    }
  }

  lemma SeMember(pos: PosCoords, dims: Dims, q: PosCoords)
    requires pos.0 <= dims.0
    ensures q in SeMoves(pos, dims) <==> q.0 + q.1 == pos.0 + pos.1 && pos.0 <= q.0 < dims.0
  {
    if q.0 + q.1 == pos.0 + pos.1 && pos.0 <= q.0 < dims.0 {
      assert SeMoves(pos, dims)[q.0 - pos.0] == q;
    }
  }

  /**
    * The squares a queen at `pos` contests, sorted and without duplicates
    * (the six helpers' lists, concatenated, then `sort()` and `dedup()`).
    */
  function QueenMoves(pos: PosCoords, dims: Dims): (r: seq<PosCoords>)
    requires NoUnderflow(pos, dims)
    ensures StrictlyAscending(r)
    ensures forall q :: q in r <==>
              q in VertMoves(pos, dims) || q in HorizMoves(pos, dims) ||
              q in NwMoves(pos, dims) || q in NeMoves(pos, dims) ||
              q in SwMoves(pos) || q in SeMoves(pos, dims)
  {
    var all := VertMoves(pos, dims) + HorizMoves(pos, dims) + NwMoves(pos, dims) +
               NeMoves(pos, dims) + SwMoves(pos) + SeMoves(pos, dims);
    var r := SortDedup(all);
    assert forall q :: q in r <==> q in all by {
      forall q ensures q in r <==> q in all {
        assert q in r <==> q in ToSet(r);
        assert q in all <==> q in ToSet(all);
      }
    }
    r
  }

  /**
    * From an in-bounds square, a queen contests exactly the in-bounds squares
    * that share its column, its row or one of its diagonals.
    */
  lemma QueenMovesSpec(pos: PosCoords, dims: Dims, q: PosCoords)
    requires InBounds(pos, dims)
    ensures q in QueenMoves(pos, dims) <==> InBounds(q, dims) && SharesLine(pos, q)
  {
    VertMember(pos, dims, q);
    HorizMember(pos, dims, q);
    NwMember(pos, dims, q);
    NeMember(pos, dims, q);
    SwMember(pos, q);
    SeMember(pos, dims, q);
  }

  /** Every contested square lies on the board. */
  lemma QueenMovesInBounds(pos: PosCoords, dims: Dims)
    requires InBounds(pos, dims)
    ensures forall q :: q in QueenMoves(pos, dims) ==> InBounds(q, dims)
  {
    forall q | q in QueenMoves(pos, dims) ensures InBounds(q, dims) {
      QueenMovesSpec(pos, dims, q);
    }
  }

  /** A queen contests its own square. */
  lemma OwnSquareContested(pos: PosCoords, dims: Dims)
    requires InBounds(pos, dims)
    ensures pos in QueenMoves(pos, dims)
  {
    QueenMovesSpec(pos, dims, pos);
  }

  /** Each queen's list of contested squares, in the order of the queens. */
  function QueenMoveSets(queens: seq<PosCoords>, dims: Dims): (r: seq<seq<PosCoords>>)
    requires AllNoUnderflow(queens, dims)
    ensures |r| == |queens|
    ensures forall i :: 0 <= i < |r| ==> r[i] == QueenMoves(queens[i], dims)
  {
    seq(|queens|, i requires 0 <= i < |queens| => QueenMoves(queens[i], dims))
  }

  /** The lists one after another, as `flatten` yields them. */
  function Flatten(lists: seq<seq<PosCoords>>): (r: seq<PosCoords>)
    ensures forall q :: q in r <==> exists i :: 0 <= i < |lists| && q in lists[i]
  {
    if |lists| == 0 then []
    else
      var rest := Flatten(lists[1..]);
      assert forall i :: 0 <= i < |lists| - 1 ==> lists[1..][i] == lists[i + 1];
      lists[0] + rest
  }

  /**
    * All squares contested by at least one queen, sorted and without
    * duplicates.
    */
  function ContestedSpaces(queens: seq<PosCoords>, dims: Dims): (r: seq<PosCoords>)
    requires AllNoUnderflow(queens, dims)
    ensures StrictlyAscending(r)
    ensures forall q :: q in r <==> exists i :: 0 <= i < |queens| && q in QueenMoves(queens[i], dims)
  {
    var all := Flatten(QueenMoveSets(queens, dims));
    var r := SortDedup(all);
    assert forall q :: q in r <==> q in all by {
      forall q ensures q in r <==> q in all {
        assert q in r <==> q in ToSet(r);
        assert q in all <==> q in ToSet(all);
      }
    }
    r
  }

  /** Adding a queen never takes a square out of the contested set. */
  lemma {:induction false} ContestedMonotone(queens: seq<PosCoords>, q: PosCoords, dims: Dims)
    requires AllNoUnderflow(queens, dims) && NoUnderflow(q, dims)
    ensures AllNoUnderflow(queens + [q], dims)
    ensures ToSet(ContestedSpaces(queens, dims)) <= ToSet(ContestedSpaces(queens + [q], dims))
    ensures ToSet(QueenMoves(q, dims)) <= ToSet(ContestedSpaces(queens + [q], dims))
  {
    var more := queens + [q];
    assert AllNoUnderflow(more, dims) by {
      forall i | 0 <= i < |more| ensures NoUnderflow(more[i], dims) {
        if i < |queens| { assert more[i] == queens[i]; }
      }
    }
    forall p | p in ToSet(ContestedSpaces(queens, dims))
      ensures p in ToSet(ContestedSpaces(more, dims))
    {
      var i :| 0 <= i < |queens| && p in QueenMoves(queens[i], dims);
      assert more[i] == queens[i];
    }
    forall p | p in ToSet(QueenMoves(q, dims))
      ensures p in ToSet(ContestedSpaces(more, dims))
    {
      assert more[|queens|] == q;
    }
  }

  /**
    * With every queen on the board, the contested squares are the squares of
    * the board that share a line with some queen.
    */
  lemma ContestedSpacesSpec(queens: seq<PosCoords>, dims: Dims, q: PosCoords)
    requires AllInBounds(queens, dims)
    ensures AllNoUnderflow(queens, dims)
    ensures q in ContestedSpaces(queens, dims) <==>
              InBounds(q, dims) && exists i :: 0 <= i < |queens| && SharesLine(queens[i], q)
  {
    forall i | 0 <= i < |queens|
      ensures q in QueenMoves(queens[i], dims) <==> InBounds(q, dims) && SharesLine(queens[i], q)
    {
      QueenMovesSpec(queens[i], dims, q);
    }
  }
}
