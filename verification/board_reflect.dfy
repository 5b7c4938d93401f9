/**
  * Reflections of the queens' positions (src/board/board_reflect.rs): across
  * the vertical centre line (horizontal reflection), across the horizontal
  * centre line (vertical reflection), and through the centre (inverse).
  * Each new coordinate is `size - old - 1` in unsigned arithmetic, so the old
  * coordinate must lie inside the board.
  */
module BoardReflect {
  import opened Position

  function HorizontalReflection(pos: PosCoords, dims: Dims): (r: PosCoords)
    requires pos.0 < dims.0
    ensures r.1 == pos.1 && r.0 + pos.0 + 1 == dims.0
    ensures InBounds(pos, dims) ==> InBounds(r, dims)
  {
    (dims.0 - pos.0 - 1, pos.1)
  }

  function VerticalReflection(pos: PosCoords, dims: Dims): (r: PosCoords)
    requires pos.1 < dims.1
    ensures r.0 == pos.0 && r.1 + pos.1 + 1 == dims.1
    ensures InBounds(pos, dims) ==> InBounds(r, dims)
  {
    (pos.0, dims.1 - pos.1 - 1)
  }

  function InverseReflection(pos: PosCoords, dims: Dims): (r: PosCoords)
    requires InBounds(pos, dims)
    ensures r.0 + pos.0 + 1 == dims.0 && r.1 + pos.1 + 1 == dims.1
    ensures InBounds(r, dims)
  {
    (dims.0 - pos.0 - 1, dims.1 - pos.1 - 1)
  }

  /** The inverse is the horizontal and the vertical reflection, in either order. */
  lemma InverseIsBothReflections(pos: PosCoords, dims: Dims)
    requires InBounds(pos, dims)
    ensures InverseReflection(pos, dims) == HorizontalReflection(VerticalReflection(pos, dims), dims)
    ensures InverseReflection(pos, dims) == VerticalReflection(HorizontalReflection(pos, dims), dims)
  {
  }

  /** Each reflection, applied twice, gives back the position. */
  lemma ReflectionsAreInvolutions(pos: PosCoords, dims: Dims)
    requires InBounds(pos, dims)
    ensures HorizontalReflection(HorizontalReflection(pos, dims), dims) == pos
    ensures VerticalReflection(VerticalReflection(pos, dims), dims) == pos
    ensures InverseReflection(InverseReflection(pos, dims), dims) == pos
  {
  }

  /** The three reflections of the `Reflection` trait. */
  datatype Mirror = Horizontal | Vertical | Inverse

  function ReflectPos(m: Mirror, pos: PosCoords, dims: Dims): (r: PosCoords)
    requires InBounds(pos, dims)
    ensures InBounds(r, dims)
  {
    match m
    case Horizontal => HorizontalReflection(pos, dims)
    case Vertical => VerticalReflection(pos, dims)
    case Inverse => InverseReflection(pos, dims)
  }

  /** Reflecting twice in the same way gives back the position. */
  lemma ReflectPosTwice(m: Mirror, pos: PosCoords, dims: Dims)
    requires InBounds(pos, dims)
    ensures ReflectPos(m, ReflectPos(m, pos, dims), dims) == pos
  {
    ReflectionsAreInvolutions(pos, dims);
  }

  /** No two positions share a reflection. */
  lemma ReflectPosInjective(m: Mirror, p: PosCoords, q: PosCoords, dims: Dims)
    requires InBounds(p, dims) && InBounds(q, dims)
    requires ReflectPos(m, p, dims) == ReflectPos(m, q, dims)
    ensures p == q
  {
    ReflectPosTwice(m, p, dims);
    ReflectPosTwice(m, q, dims);
  }

  predicate AllOnBoard(queens: set<PosCoords>, dims: Dims)
  {
    forall p :: p in queens ==> InBounds(p, dims)
  }

  /**
    * The reflected queen positions: a square of the board is among them
    * exactly when its own reflection holds a queen, and no two queens land
    * on one square, so the number of queens is kept.
    */
  function Reflection(m: Mirror, queens: set<PosCoords>, dims: Dims): (r: set<PosCoords>)
    requires AllOnBoard(queens, dims)
    ensures AllOnBoard(r, dims)
    ensures forall q :: q in r <==> InBounds(q, dims) && ReflectPos(m, q, dims) in queens
    ensures |r| == |queens|
  {
    var r := set p | p in queens :: ReflectPos(m, p, dims);
    ImageCard(m, queens, dims);
    assert forall q :: q in r <==> InBounds(q, dims) && ReflectPos(m, q, dims) in queens by {
      forall q ensures q in r <==> InBounds(q, dims) && ReflectPos(m, q, dims) in queens {
        if q in r {
          var p :| p in queens && ReflectPos(m, p, dims) == q;
          ReflectPosTwice(m, p, dims);
        }
        if InBounds(q, dims) && ReflectPos(m, q, dims) in queens {
          ReflectPosTwice(m, q, dims);
        }
      }
    }
    r
  }

  lemma {:induction false} ImageCard(m: Mirror, queens: set<PosCoords>, dims: Dims)
    requires AllOnBoard(queens, dims)
    ensures |set p | p in queens :: ReflectPos(m, p, dims)| == |queens|
    decreases |queens|
  {
    var image := set p | p in queens :: ReflectPos(m, p, dims);
    if queens == {} {
      assert image == {};
    } else {
      var x :| x in queens;
      var rest := queens - {x};
      ImageCard(m, rest, dims);
      var restImage := set p | p in rest :: ReflectPos(m, p, dims);
      assert image == restImage + {ReflectPos(m, x, dims)};
      assert ReflectPos(m, x, dims) !in restImage by {
        forall p | p in rest ensures ReflectPos(m, p, dims) != ReflectPos(m, x, dims) {
          if ReflectPos(m, p, dims) == ReflectPos(m, x, dims) {
            ReflectPosInjective(m, p, x, dims);
          }
        }
      }
    }
  }

  /** Reflecting the reflected queens gives back the queens. */
  lemma ReflectionInvolution(m: Mirror, queens: set<PosCoords>, r: set<PosCoords>, dims: Dims)
    requires AllOnBoard(queens, dims) && r == Reflection(m, queens, dims)
    ensures Reflection(m, r, dims) == queens
  {
    ReflectedBack(m, queens, r, dims);
    ReflectedOnlyBack(m, queens, r, dims);
  }

  lemma ReflectedBack(m: Mirror, queens: set<PosCoords>, r: set<PosCoords>, dims: Dims)
    requires AllOnBoard(queens, dims) && r == Reflection(m, queens, dims)
    ensures queens <= Reflection(m, r, dims)
  {
    forall p | p in queens ensures p in Reflection(m, r, dims) {
      ReflectPosTwice(m, p, dims);
    }
  }

  lemma ReflectedOnlyBack(m: Mirror, queens: set<PosCoords>, r: set<PosCoords>, dims: Dims)
    requires AllOnBoard(queens, dims) && r == Reflection(m, queens, dims)
    ensures Reflection(m, r, dims) <= queens
  {
    forall p | p in Reflection(m, r, dims) ensures p in queens {
      ReflectPosTwice(m, p, dims);
    }
  }

  // The cases the source's own test checks on the default board.

  lemma ReflectFromTopLeft()
    ensures HorizontalReflection((0, 7), (8, 8)) == (7, 7)
    ensures VerticalReflection((0, 7), (8, 8)) == (0, 0)
    ensures InverseReflection((0, 7), (8, 8)) == (7, 0)
  {
  }

  lemma ReflectFrom26()
    ensures HorizontalReflection((2, 6), (8, 8)) == (5, 6)
    ensures VerticalReflection((2, 6), (8, 8)) == (2, 1)
    ensures InverseReflection((2, 6), (8, 8)) == (5, 1)
  {
  }
}
