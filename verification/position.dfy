/**
  * Coordinates, board dimensions and square contents shared by every module,
  * together with the ordering Rust derives for coordinate pairs and the
  * sort-then-dedup step that turns a list of squares into a strictly
  * ascending one.
  */
module Position {

  /** A square, as (x, y) = (column, row); row 0 is the bottom row. */
  type PosCoords = (nat, nat)

  /** Board dimensions, as (width, height). */
  type Dims = (nat, nat)

  /** Whether a square holds a queen. */
  datatype Square = Empty | Queen

  predicate InBounds(p: PosCoords, dims: Dims)
  {
    p.0 < dims.0 && p.1 < dims.1
  }

  /** The ordering Rust derives for a pair: lexicographic, first component first. */
  predicate Less(a: PosCoords, b: PosCoords)
  {
    a.0 < b.0 || (a.0 == b.0 && a.1 < b.1)
  }

  /** Sorted with no duplicates: what `sort()` followed by `dedup()` leaves behind. */
  predicate StrictlyAscending(s: seq<PosCoords>)
  {
    forall i, j :: 0 <= i < j < |s| ==> Less(s[i], s[j])
  }

  predicate Distinct(s: seq<PosCoords>)
  {
    forall i, j :: 0 <= i < j < |s| ==> s[i] != s[j]
  }

  /** Positions in rows 0, 1, 2, ... in turn are all different. */
  lemma OnePerRowDistinct(s: seq<PosCoords>)
    requires forall i :: 0 <= i < |s| ==> s[i].1 == i
    ensures Distinct(s)
  {
  }

  function ToSet(s: seq<PosCoords>): set<PosCoords>
  {
    set p | p in s
  }

  /** Inserts `p` into a strictly ascending list, leaving it alone if `p` is already there. */
  function Insert(p: PosCoords, s: seq<PosCoords>): (r: seq<PosCoords>)
    requires StrictlyAscending(s)
    ensures StrictlyAscending(r)
    ensures ToSet(r) == ToSet(s) + {p}
  {
    if |s| == 0 then [p]
    else if p == s[0] then s
    else if Less(p, s[0]) then [p] + s
    else
      var tail := Insert(p, s[1..]);
      assert ToSet(s) == {s[0]} + ToSet(s[1..]) by {
        assert s == [s[0]] + s[1..];
      }
      assert forall q :: q in tail ==> Less(s[0], q) by {
        forall q | q in tail ensures Less(s[0], q) {
          assert q in ToSet(tail);
        }
      }
      assert ToSet([s[0]] + tail) == {s[0]} + ToSet(tail);
      [s[0]] + tail
  }

  /** The effect of `sort()` then `dedup()` on a collected list of squares. */
  function SortDedup(s: seq<PosCoords>): (r: seq<PosCoords>)
    ensures StrictlyAscending(r)
    ensures ToSet(r) == ToSet(s)
  {
    if |s| == 0 then []
    else
      var init := s[..|s| - 1];
      assert s == init + [s[|s| - 1]];
      assert ToSet(s) == ToSet(init) + {s[|s| - 1]};
      Insert(s[|s| - 1], SortDedup(init))
  }

  lemma AscendingIsDistinct(s: seq<PosCoords>)
    requires StrictlyAscending(s)
    ensures Distinct(s)
  {
  }

  /** A list without duplicates has as many elements as its set. */
  lemma {:induction false} DistinctCard(s: seq<PosCoords>)
    requires Distinct(s)
    ensures |ToSet(s)| == |s|
  {
    if |s| > 0 {
      var tail := s[1..];
      assert s == [s[0]] + tail;
      assert ToSet(s) == {s[0]} + ToSet(tail);
      assert s[0] !in ToSet(tail);
      DistinctCard(tail);
    }
  }

  /** Dropping the head of a list without duplicates drops exactly that element from its set. */
  lemma TailSet(s: seq<PosCoords>)
    requires Distinct(s) && |s| > 0
    ensures ToSet(s[1..]) == ToSet(s) - {s[0]}
  {
    assert s == [s[0]] + s[1..];
    assert ToSet(s) == {s[0]} + ToSet(s[1..]);
  }

  /** Two strictly ascending lists with the same elements are the same list. */
  lemma {:induction false} AscendingUnique(a: seq<PosCoords>, b: seq<PosCoords>)
    requires StrictlyAscending(a) && StrictlyAscending(b)
    requires ToSet(a) == ToSet(b)
    ensures a == b
  {
    DistinctCard(a);
    DistinctCard(b);
    if |a| > 0 {
      assert a[0] == b[0] by {
        assert a[0] in ToSet(b);
        assert b[0] in ToSet(a);
      }
      TailSet(a);
      TailSet(b);
      AscendingUnique(a[1..], b[1..]);
      assert a == [a[0]] + a[1..] && b == [b[0]] + b[1..];
    }
  }

  /** Ascending neighbours are enough for the whole list to be ascending. */
  lemma {:induction false} AscendingFromNeighbours(s: seq<PosCoords>)
    requires forall i :: 0 <= i < |s| - 1 ==> Less(s[i], s[i + 1])
    ensures StrictlyAscending(s)
  {
    if |s| > 1 {
      AscendingFromNeighbours(s[1..]);
      assert forall j :: 1 <= j < |s| ==> Less(s[0], s[j]) by {
        forall j | 1 <= j < |s| ensures Less(s[0], s[j]) {
          assert Less(s[0], s[1]);
          if j > 1 { assert Less(s[1..][0], s[1..][j - 1]); }
        }
      }
    }
  }

  /** A strictly ascending list equals a listing, given in ascending order, of its elements. */
  lemma EqualsListed(s: seq<PosCoords>, listed: seq<PosCoords>)
    requires StrictlyAscending(s)
    requires forall i :: 0 <= i < |listed| - 1 ==> Less(listed[i], listed[i + 1])
    requires ToSet(s) == ToSet(listed)
    ensures s == listed
  {
    AscendingFromNeighbours(listed);
    AscendingUnique(s, listed);
  }
}
