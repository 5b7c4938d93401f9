/**
  * Turning one coordinate a quarter turn clockwise (src/board/board_rotate.rs):
  * the new column is the old row and the new row is `(height - 1) - old
  * column`, in unsigned arithmetic, so the old column must be below the height.
  */
module BoardRotate {
  import opened Position
  import opened BoardReflect

  function Rotate90Clockwise(pos: PosCoords, dims: Dims): (r: PosCoords)
    requires pos.0 < dims.1
    ensures r.0 == pos.1 && r.1 + pos.0 + 1 == dims.1
    ensures dims.0 == dims.1 && InBounds(pos, dims) ==> InBounds(r, dims)
  {
    (pos.1, (dims.1 - 1) - pos.0)
  }

  /** On a square board, two quarter turns are the inverse reflection. */
  lemma HalfTurnIsInverse(pos: PosCoords, dims: Dims)
    requires dims.0 == dims.1 && InBounds(pos, dims)
    ensures Rotate90Clockwise(Rotate90Clockwise(pos, dims), dims) == InverseReflection(pos, dims)
  {
  }

  /** On a square board, four quarter turns give back the position. */
  lemma {:induction false} FullTurn(pos: PosCoords, dims: Dims)
    requires dims.0 == dims.1 && InBounds(pos, dims)
    ensures Rotate90Clockwise(Rotate90Clockwise(Rotate90Clockwise(Rotate90Clockwise(pos, dims), dims), dims), dims) == pos
  {
    var half := Rotate90Clockwise(Rotate90Clockwise(pos, dims), dims);
    HalfTurnIsInverse(pos, dims);
    HalfTurnIsInverse(half, dims);
    ReflectionsAreInvolutions(pos, dims);
  }

  // The cases the source's own test checks on the default board.

  lemma RotateCorners()
    ensures Rotate90Clockwise((0, 7), (8, 8)) == (7, 7)
    ensures Rotate90Clockwise((7, 7), (8, 8)) == (7, 0)
  {
  }

  /**
    * The other two cases of the same test expect (5, 6) and (5, 1); the
    * formula gives (6, 5) and (6, 2).
    */
  lemma RotateOtherCases()
    ensures Rotate90Clockwise((2, 6), (8, 8)) == (6, 5) != (5, 6)
    ensures Rotate90Clockwise((5, 6), (8, 8)) == (6, 2) != (5, 1)
  {
  }
}
