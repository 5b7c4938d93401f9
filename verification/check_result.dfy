/**
  * The checker's verdict on a board (src/checker/check_result.rs) and the
  * ordering Rust derives for it: the fields are compared one after another in
  * the order they are declared, `false` before `true` and smaller counts
  * before larger ones.
  */
module CheckResults {

  /** Rust's `u8`. */
  newtype u8 = x: int | 0 <= x < 256

  /** A count cast with `as u8`: the low eight bits are kept. */
  function AsU8(n: nat): (r: u8)
    ensures n < 256 ==> r as int == n
    ensures (r as int - n) % 256 == 0
  {
    (n % 256) as u8
  }

  datatype CheckResult = CheckResult(hasConflict: bool, isSolved: bool, numQueens: u8, numFreeSpaces: u8)

  /** The outcome of a comparison, as `std::cmp::Ordering`. */
  datatype Ordering = LessThan | EqualTo | GreaterThan
  {
    function Flip(): Ordering
    {
      match this
      case LessThan => GreaterThan
      case EqualTo => EqualTo
      case GreaterThan => LessThan
    }
  }

  function CompareBool(a: bool, b: bool): Ordering
  {
    if a == b then EqualTo else if !a then LessThan else GreaterThan
  }

  function CompareInt(a: int, b: int): Ordering
  {
    if a < b then LessThan else if a == b then EqualTo else GreaterThan
  }

  /** The derived `cmp`: the first field that differs decides. */
  function Compare(a: CheckResult, b: CheckResult): (r: Ordering)
    ensures r == EqualTo <==> a == b
  {
    if a.hasConflict != b.hasConflict then CompareBool(a.hasConflict, b.hasConflict)
    else if a.isSolved != b.isSolved then CompareBool(a.isSolved, b.isSolved)
    else if a.numQueens != b.numQueens then CompareInt(a.numQueens as int, b.numQueens as int)
    else CompareInt(a.numFreeSpaces as int, b.numFreeSpaces as int)
  }

  predicate Lt(a: CheckResult, b: CheckResult)
  {
    Compare(a, b) == LessThan
  }

  // An independent reading of "derived": a verdict as the list of its fields,
  // compared lexicographically.

  function Key(a: CheckResult): seq<int>
  {
    [if a.hasConflict then 1 else 0, if a.isSolved then 1 else 0, a.numQueens as int, a.numFreeSpaces as int]
  }

  function LexCompare(s: seq<int>, t: seq<int>): Ordering
    requires |s| == |t|
  {
    if |s| == 0 then EqualTo
    else if s[0] != t[0] then CompareInt(s[0], t[0])
    else LexCompare(s[1..], t[1..])
  }

  /** `Compare` is the lexicographic comparison of the fields in declaration order. */
  lemma CompareIsLexicographic(a: CheckResult, b: CheckResult)
    ensures Compare(a, b) == LexCompare(Key(a), Key(b))
  {
    var s, t := Key(a), Key(b);
    assert s[3..][1..] == [] && t[3..][1..] == [];
    assert LexCompare(s[3..], t[3..]) == CompareInt(s[3], t[3]);
    assert s[2..][1..] == s[3..] && t[2..][1..] == t[3..];
    assert LexCompare(s[2..], t[2..]) == if s[2] != t[2] then CompareInt(s[2], t[2]) else LexCompare(s[3..], t[3..]);
    assert s[1..][1..] == s[2..] && t[1..][1..] == t[2..];
    assert LexCompare(s[1..], t[1..]) == if s[1] != t[1] then CompareInt(s[1], t[1]) else LexCompare(s[2..], t[2..]);
  }

  /** Swapping the operands reverses the outcome. */
  lemma CompareAntisymmetric(a: CheckResult, b: CheckResult)
    ensures Compare(b, a) == Compare(a, b).Flip()
  {
  }

  lemma CompareTransitive(a: CheckResult, b: CheckResult, c: CheckResult)
    requires Lt(a, b) && Lt(b, c)
    ensures Lt(a, c)
  {
  }

  /** Any two verdicts are ordered one way or the other. */
  lemma CompareTotal(a: CheckResult, b: CheckResult)
    ensures Lt(a, b) || a == b || Lt(b, a)
  {
    CompareAntisymmetric(a, b);
  }

  /** A verdict with a conflict sorts after every verdict without one. */
  lemma ConflictSortsLast(a: CheckResult, b: CheckResult)
    requires a.hasConflict && !b.hasConflict
    ensures Lt(b, a)
  {
  }

  // The verdicts the source's own tests build.

  const Solved := CheckResult(false, true, 8, 56)
  const TwoQueens := CheckResult(false, false, 2, 62)
  const FourQueensFiftyFree := CheckResult(false, false, 4, 50)
  const FourQueensThirtyFree := CheckResult(false, false, 4, 30)
  const EmptyBoard := CheckResult(false, false, 0, 64)

  lemma SolvedAboveEmptyBoard()
    ensures Lt(EmptyBoard, Solved)
  {
  }

  lemma TwoQueensAboveEmptyBoard()
    ensures Lt(EmptyBoard, TwoQueens)
  {
  }

  /**
    * The order the sorting test expects runs from the greatest verdict down
    * to the least, while `sort()` leaves the least first.
    */
  lemma ExpectedOrderDescends()
    ensures Lt(FourQueensFiftyFree, Solved)
    ensures Lt(FourQueensThirtyFree, FourQueensFiftyFree)
    ensures Lt(TwoQueens, FourQueensThirtyFree)
    ensures Lt(EmptyBoard, TwoQueens)
  {
  }
}
