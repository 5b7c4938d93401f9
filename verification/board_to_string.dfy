/**
  * Rendering a board as text (src/board/board_to_string.rs): a grid of
  * `height` rows of `width` cells, `'Q'` on a queen's square and `' '`
  * elsewhere, printed top row first, each row between `'|'` characters,
  * with a line of `'-'` above and below, the lines joined by newlines.
  */
module BoardToString {
  import opened Position
  import opened Queen

  const EmptyChar: char := ' '
  const QueenChar: char := 'Q'

  /** The character on square (x, y) of the grid. */
  function CellChar(queens: seq<PosCoords>, x: nat, y: nat): char
  {
    if (x, y) in queens then QueenChar else EmptyChar
  }

  /**
    * The grid, one row of characters per board row, row 0 first: every cell
    * empty, then every queen's cell overwritten in turn.
    */
  method InitializeCharMatrix(queens: seq<PosCoords>, dims: Dims) returns (chars: seq<seq<char>>)
    requires AllInBounds(queens, dims)
    ensures |chars| == dims.1
    ensures forall y :: 0 <= y < dims.1 ==> |chars[y]| == dims.0
    ensures forall y, x :: 0 <= y < dims.1 && 0 <= x < dims.0 ==> chars[y][x] == CellChar(queens, x, y)
  {
    var (width, height) := dims;
    chars := seq(height, _ => seq(width, _ => EmptyChar));
    for k := 0 to |queens|
      invariant |chars| == height
      invariant forall y :: 0 <= y < height ==> |chars[y]| == width
      invariant forall y, x :: 0 <= y < height && 0 <= x < width ==> chars[y][x] == CellChar(queens[..k], x, y)
    {
      var (x, y) := queens[k];
      chars := chars[y := chars[y][x := QueenChar]];
      assert queens[..k + 1] == queens[..k] + [queens[k]];
    }
    assert queens[..|queens|] == queens;
  }

  /** A line of `width + 2` dashes. */
  function FormHorizontalBorder(width: nat): (r: string)
    ensures |r| == width + 2
    ensures forall i :: 0 <= i < |r| ==> r[i] == '-'
  {
    seq(width + 2, _ => '-')
  }

  /**
    * The border, the rows from last to first each between `'|'`
    * characters, and the border again.
    */
  method AddBorders(rows: seq<string>, width: nat) returns (bordered: seq<string>)
    ensures |bordered| == |rows| + 2
    ensures bordered[0] == FormHorizontalBorder(width) && bordered[|rows| + 1] == FormHorizontalBorder(width)
    ensures forall k :: 1 <= k <= |rows| ==> bordered[k] == ['|'] + rows[|rows| - k] + ['|']
  {
    bordered := [FormHorizontalBorder(width)];
    for k := 0 to |rows|
      invariant |bordered| == k + 1
      invariant bordered[0] == FormHorizontalBorder(width)
      invariant forall j :: 1 <= j <= k ==> bordered[j] == ['|'] + rows[|rows| - j] + ['|']
    {
      bordered := bordered + [['|'] + rows[|rows| - 1 - k] + ['|']];
    }
    bordered := bordered + [FormHorizontalBorder(width)];
  }

  /** The lines separated by newlines, as `join("\n")` does it. */
  function Join(lines: seq<string>): (r: string)
    ensures |lines| > 0 ==> |lines[0]| <= |r| && r[..|lines[0]|] == lines[0]
  {
    if |lines| == 0 then ""
    else if |lines| == 1 then lines[0]
    else lines[0] + "\n" + Join(lines[1..])
  }

  /** The index of the first newline. */
  function FirstNewline(s: string): (i: nat)
    requires '\n' in s
    ensures i < |s| && s[i] == '\n' && '\n' !in s[..i]
  {
    if s[0] == '\n' then 0
    else
      assert '\n' in s[1..] by {
        var j :| 0 <= j < |s| && s[j] == '\n';
        assert s[1..][j - 1] == '\n';
      }
      var i := FirstNewline(s[1..]) + 1;
      assert s[..i] == [s[0]] + s[1..][..i - 1];
      i
  }

  /** The text cut at every newline: the inverse of `Join` for lines without newlines. */
  function Split(s: string): seq<string>
    decreases |s|
  {
    if '\n' !in s then [s]
    else
      var i := FirstNewline(s);
      [s[..i]] + Split(s[i + 1..])
  }

  /** Cutting at the first newline after a line free of newlines gives that line first. */
  lemma SplitCons(head: string, tail: string)
    requires '\n' !in head
    ensures Split(head + "\n" + tail) == [head] + Split(tail)
  {
    var s := head + "\n" + tail;
    assert s[|head|] == '\n';
    assert s[..|head|] == head;
    var i := FirstNewline(s);
    assert s[i + 1..] == tail;
  }

  /** Joining lines free of newlines and cutting the text at its newlines gives back the lines. */
  lemma {:induction false} SplitJoin(lines: seq<string>)
    requires |lines| > 0
    requires forall k :: 0 <= k < |lines| ==> '\n' !in lines[k]
    ensures Split(Join(lines)) == lines
  {
    if |lines| > 1 {
      SplitCons(lines[0], Join(lines[1..]));
      SplitJoin(lines[1..]);
      assert lines == [lines[0]] + lines[1..];
    }
  }

  /** The cells of board row `y`, between `'|'` characters. */
  function RowLine(queens: seq<PosCoords>, width: nat, y: nat): string
  {
    ['|'] + seq(width, x requires 0 <= x => CellChar(queens, x, y)) + ['|']
  }

  /**
    * The lines of the rendering: a border, then the board rows from the top
    * one down, then a border. Line `k` for `1 <= k <= height` shows board
    * row `height - k`.
    */
  function RenderedLines(queens: seq<PosCoords>, dims: Dims): (r: seq<string>)
    ensures |r| == dims.1 + 2
    ensures r[0] == FormHorizontalBorder(dims.0) && r[dims.1 + 1] == FormHorizontalBorder(dims.0)
    ensures forall k :: 1 <= k <= dims.1 ==>
              |r[k]| == dims.0 + 2 && r[k][0] == '|' && r[k][dims.0 + 1] == '|' &&
              forall x :: 1 <= x <= dims.0 ==> r[k][x] == CellChar(queens, x - 1, dims.1 - k)
    ensures forall k :: 0 <= k < |r| ==> '\n' !in r[k]
  {
    var border := FormHorizontalBorder(dims.0);
    var r := [border] + seq(dims.1, k requires 0 <= k < dims.1 => RowLine(queens, dims.0, dims.1 - 1 - k)) + [border];
    assert forall k :: 1 <= k <= dims.1 ==> r[k] == RowLine(queens, dims.0, dims.1 - k);
    r
  }

  /** The board as text: the rendered lines joined by newlines. */
  method ToString(queens: seq<PosCoords>, dims: Dims) returns (s: string)
    requires AllInBounds(queens, dims)
    ensures s == Join(RenderedLines(queens, dims))
    ensures Split(s) == RenderedLines(queens, dims)
  {
    var chars := InitializeCharMatrix(queens, dims);
    var rows := chars;
    var bordered := AddBorders(rows, dims.0);
    var lines := RenderedLines(queens, dims);
    assert bordered == lines by {
      forall k | 1 <= k <= dims.1 ensures bordered[k] == lines[k] {
        assert chars[dims.1 - k] == seq(dims.0, x requires 0 <= x => CellChar(queens, x, dims.1 - k));
      }
    }
    s := Join(bordered);
    SplitJoin(lines);
  }
}
