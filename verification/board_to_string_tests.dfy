/**
  * The two renderings the tests in src/board/board_to_string.rs check, on
  * the default 8 by 8 board.
  */
module BoardToStringTests {
  import opened Position
  import opened BoardToString
  import opened Boards
  import opened BoardFromPosIter

  const Border: string := "----------"
  const EmptyRow: string := "|        |"

  const EmptyBoardLines: seq<string> := [
    Border, EmptyRow, EmptyRow, EmptyRow, EmptyRow, EmptyRow, EmptyRow, EmptyRow, EmptyRow, Border]

  const FourQueenLines: seq<string> := [
    Border,
    "|Q       |",
    "|      Q |",
    EmptyRow, EmptyRow, EmptyRow, EmptyRow, EmptyRow,
    "|Q     Q |",
    Border]

  lemma BorderOfEight()
    ensures FormHorizontalBorder(8) == Border
  {
  }

  lemma EmptyRowLine(queens: seq<PosCoords>, r: string, y: nat)
    requires |r| == 10 && r[0] == '|' && r[9] == '|'
    requires forall x :: 1 <= x <= 8 ==> r[x] == CellChar(queens, x - 1, y)
    requires forall x :: 0 <= x < 8 ==> (x, y) !in queens
    ensures r == EmptyRow
  {
  }

  /**
    * With no queens every row is blank. The list of positions is a parameter
    * fixed by `requires` so that the verifier treats it as one term.
    */
  lemma EmptyBoardRendering(queens: seq<PosCoords>)
    requires queens == []
    ensures RenderedLines(queens, (8, 8)) == EmptyBoardLines
  {
    var r := RenderedLines(queens, (8, 8));
    BorderOfEight();
    forall k | 1 <= k <= 8 ensures r[k] == EmptyRow {
      EmptyRowLine(queens, r[k], 8 - k);
    }
  }

  lemma RowLineIs(queens: seq<PosCoords>, r: string, y: nat, expected: string)
    requires |r| == 10 && r[0] == '|' && r[9] == '|'
    requires forall x :: 1 <= x <= 8 ==> r[x] == CellChar(queens, x - 1, y)
    requires |expected| == 10 && expected[0] == '|' && expected[9] == '|'
    requires forall x :: 1 <= x <= 8 ==> expected[x] == CellChar(queens, x - 1, y)
    ensures r == expected
  {
  }

  ghost predicate FourQueens(queens: seq<PosCoords>)
  {
    forall p :: p in queens <==> p == (0, 0) || p == (0, 7) || p == (6, 0) || p == (6, 6)
  }

  /** Queens on (0, 0), (0, 7), (6, 0) and (6, 6), the top row printed first. */
  lemma FourQueenRendering(queens: seq<PosCoords>)
    requires FourQueens(queens)
    ensures RenderedLines(queens, (8, 8)) == FourQueenLines
  {
    var r := RenderedLines(queens, (8, 8));
    BorderOfEight();
    RowLineIs(queens, r[1], 7, "|Q       |");
    RowLineIs(queens, r[2], 6, "|      Q |");
    forall k | 3 <= k <= 7 ensures r[k] == EmptyRow {
      EmptyRowLine(queens, r[k], 8 - k);
    }
    RowLineIs(queens, r[8], 0, "|Q     Q |");
  }

  /** The board the second test builds from its positions has exactly those four queens. */
  lemma FourQueensPlaced()
    ensures ToSet(QueenListing(PlacedSquares([(0, 0), (0, 7), (6, 0), (6, 6)]), 8)) ==
            {(0, 0), (0, 7), (6, 0), (6, 6)}
  {
    PlacedQueenPositions([(0, 0), (0, 7), (6, 0), (6, 6)]);
  }

  lemma FourQueensListed(queens: seq<PosCoords>)
    requires ToSet(queens) == {(0, 0), (0, 7), (6, 0), (6, 6)}
    ensures FourQueens(queens)
  {
    forall p ensures p in queens <==> p == (0, 0) || p == (0, 7) || p == (6, 0) || p == (6, 6) {
      assert p in queens <==> p in ToSet(queens);
    }
  }
}
