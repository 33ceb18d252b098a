/** The per-piece generators and `getAllPossibleMoves` as the source runs them:
    loops over direction tuples that read the board in place and append to a
    list the caller owns (passed in as `moves`, returned extended as `out`).
    Each is proved to append exactly the moves of its function in `Generation`.
    Both engines' `Game` classes call these. */
module Generators {
  import opened Pieces
  import opened Moves
  import opened Generation

  /** `getPawnMoves` */
  method GetPawnMoves(board: Grid, whitesMove: bool, ep: Option<Square>,
                      row: int, column: int, moves: seq<Move>) returns (out: seq<Move>)
    requires WellFormed(board) && OnBoard(row, column) && 0 <= row + Forward(whitesMove) < 8
    ensures out == moves + PawnMoves(board, whitesMove, ep, row, column)
  {
    var pawnPromotion;
    out, pawnPromotion := GetPawnPush(board, whitesMove, row, column, moves);
    ghost var afterPush := out;
    if column - 1 >= 0 {
      out, pawnPromotion := GetPawnCapture(board, whitesMove, ep, row, column, column - 1, pawnPromotion, out);
    }
    assert out == afterPush + PawnCapture(board, whitesMove, ep, row, column, column - 1);
    ghost var afterLeft := out;
    if column + 1 <= 7 {
      out, pawnPromotion := GetPawnCapture(board, whitesMove, ep, row, column, column + 1, pawnPromotion, out);
    }
    assert out == afterLeft + PawnCapture(board, whitesMove, ep, row, column, column + 1);
    AppendAssoc(moves, PawnPush(board, whitesMove, row, column), PawnCapture(board, whitesMove, ep, row, column, column - 1));
    AppendAssoc(moves, PawnPush(board, whitesMove, row, column) + PawnCapture(board, whitesMove, ep, row, column, column - 1),
                PawnCapture(board, whitesMove, ep, row, column, column + 1));
  }

  /** The pushes of `getPawnMoves`; `pawnPromotion` is set by a push onto the
      last rank and is still set when the diagonals are looked at. */
  method GetPawnPush(board: Grid, whitesMove: bool, row: int, column: int,
                     moves: seq<Move>) returns (out: seq<Move>, pawnPromotion: bool)
    requires WellFormed(board) && OnBoard(row, column) && 0 <= row + Forward(whitesMove) < 8
    ensures out == moves + PawnPush(board, whitesMove, row, column)
    ensures pawnPromotion ==> row + Forward(whitesMove) == LastRow(whitesMove)
  {
    var moveAmount, startingRow, endingRow;
    if whitesMove {
      moveAmount, startingRow, endingRow := -1, 6, 0;
    } else {
      moveAmount, startingRow, endingRow := 1, 1, 7;
    }
    pawnPromotion := false;
    var pawn := board[row][column];
    var ahead := board[row + moveAmount][column];
    out := moves;
    if ahead == Empty {
      if row + moveAmount == endingRow {
        pawnPromotion := true;
      }
      out := out + [NewMove(Square(row, column), Square(row + moveAmount, column),
                            pawn, ahead, false, pawnPromotion, false)];
      if row == startingRow {
        var twoAhead := board[row + moveAmount * 2][column];
        if twoAhead == Empty {
          out := out + [NewMove(Square(row, column), Square(row + moveAmount * 2, column),
                                pawn, twoAhead, false, false, false)];
        }
      }
    }
  }

  /** One diagonal of `getPawnMoves` (the LEFT and RIGHT blocks are the same code). */
  method GetPawnCapture(board: Grid, whitesMove: bool, ep: Option<Square>,
                        row: int, column: int, targetColumn: int, pawnPromotion: bool,
                        moves: seq<Move>) returns (out: seq<Move>, promotion: bool)
    requires WellFormed(board) && OnBoard(row, column) && 0 <= row + Forward(whitesMove) < 8
    requires 0 <= targetColumn <= 7
    requires pawnPromotion ==> row + Forward(whitesMove) == LastRow(whitesMove)
    ensures out == moves + PawnCapture(board, whitesMove, ep, row, column, targetColumn)
    ensures promotion ==> row + Forward(whitesMove) == LastRow(whitesMove)
  {
    var moveAmount := if whitesMove then -1 else 1;
    var endingRow := if whitesMove then 0 else 7;
    var enemyColor := if whitesMove then Black else White;
    promotion := pawnPromotion;
    var target := board[row + moveAmount][targetColumn];
    if IsColor(target, enemyColor) {
      if row + moveAmount == endingRow {
        promotion := true;
      }
      out := moves + [NewMove(Square(row, column), Square(row + moveAmount, targetColumn),
                              board[row][column], target, false, promotion, false)];
    } else if ep == Some(Square(row + moveAmount, targetColumn)) {
      out := moves + [NewMove(Square(row, column), Square(row + moveAmount, targetColumn),
                              board[row][column], target, true, false, false)];
    } else {
      out := moves;
    }
  }

  /** The inner loop of `getRookMoves` and `getBishopMoves`: one direction,
      `for i in range(1, 8)`, with its two `break`s. */
  method GetRayMoves(board: Grid, whitesMove: bool, row: int, column: int,
                     d: (int, int), moves: seq<Move>) returns (out: seq<Move>)
    requires WellFormed(board) && OnBoard(row, column)
    ensures out == moves + Ray(board, whitesMove, row, column, d.0, d.1, 1)
  {
    var enemyColor := if whitesMove then Black else White;
    out := moves;
    var i := 1;
    while i < 8
      invariant 1 <= i <= 8
      invariant out + Ray(board, whitesMove, row, column, d.0, d.1, i)
             == moves + Ray(board, whitesMove, row, column, d.0, d.1, 1)
    {
      var endRow := row + d.0 * i;
      var endColumn := column + d.1 * i;
      if 0 <= endRow < 8 && 0 <= endColumn < 8 {
        var endPiece := board[endRow][endColumn];
        if endPiece == Empty {
          var one := [NewMove(Square(row, column), Square(endRow, endColumn),
                              board[row][column], endPiece, false, false, false)];
          AppendAssoc(out, one, Ray(board, whitesMove, row, column, d.0, d.1, i + 1));
          out := out + one;
        } else if IsColor(endPiece, enemyColor) {
          out := out + [NewMove(Square(row, column), Square(endRow, endColumn),
                                board[row][column], endPiece, false, false, false)];
          break;
        } else {
          break;
        }
      } else {
        break;
      }
      i := i + 1;
    }
  }

  /** The outer loop of `getRookMoves` and `getBishopMoves`: every direction. */
  method GetSlidingMoves(board: Grid, whitesMove: bool, row: int, column: int,
                         directionMoves: seq<(int, int)>, moves: seq<Move>) returns (out: seq<Move>)
    requires WellFormed(board) && OnBoard(row, column)
    ensures out == moves + Slide(board, whitesMove, row, column, directionMoves)
  {
    out := moves;
    var k := 0;
    while k < |directionMoves|
      invariant 0 <= k <= |directionMoves|
      invariant out + Slide(board, whitesMove, row, column, directionMoves[k..])
             == moves + Slide(board, whitesMove, row, column, directionMoves)
    {
      ghost var beforeRay := out;
      out := GetRayMoves(board, whitesMove, row, column, directionMoves[k], out);
      assert directionMoves[k..][1..] == directionMoves[k + 1..];
      AppendAssoc(beforeRay, Ray(board, whitesMove, row, column, directionMoves[k].0, directionMoves[k].1, 1),
                  Slide(board, whitesMove, row, column, directionMoves[k + 1..]));
      k := k + 1;
    }
  }

  /** `getRookMoves` */
  method GetRookMoves(board: Grid, whitesMove: bool, row: int, column: int,
                      moves: seq<Move>) returns (out: seq<Move>)
    requires WellFormed(board) && OnBoard(row, column)
    ensures out == moves + Slide(board, whitesMove, row, column, RookDirections)
  {
    out := GetSlidingMoves(board, whitesMove, row, column, RookDirections, moves);
  }

  /** `getBishopMoves` */
  method GetBishopMoves(board: Grid, whitesMove: bool, row: int, column: int,
                        moves: seq<Move>) returns (out: seq<Move>)
    requires WellFormed(board) && OnBoard(row, column)
    ensures out == moves + Slide(board, whitesMove, row, column, BishopDirections)
  {
    out := GetSlidingMoves(board, whitesMove, row, column, BishopDirections, moves);
  }

  /** `getQueenMoves`: the rook's moves, then the bishop's. */
  method GetQueenMoves(board: Grid, whitesMove: bool, row: int, column: int,
                       moves: seq<Move>) returns (out: seq<Move>)
    requires WellFormed(board) && OnBoard(row, column)
    ensures out == moves + Slide(board, whitesMove, row, column, RookDirections)
                         + Slide(board, whitesMove, row, column, BishopDirections)
  {
    out := GetRookMoves(board, whitesMove, row, column, moves);
    out := GetBishopMoves(board, whitesMove, row, column, out);
  }

  /** The offset loop shared by `getKnightMoves` and `getKingMoves`. */
  method GetLeapingMoves(board: Grid, whitesMove: bool, row: int, column: int,
                         directionMoves: seq<(int, int)>, moves: seq<Move>) returns (out: seq<Move>)
    requires WellFormed(board) && OnBoard(row, column)
    ensures out == moves + Leaps(board, whitesMove, row, column, directionMoves)
  {
    out := moves;
    var k := 0;
    while k < |directionMoves|
      invariant 0 <= k <= |directionMoves|
      invariant out + Leaps(board, whitesMove, row, column, directionMoves[k..])
             == moves + Leaps(board, whitesMove, row, column, directionMoves)
    {
      var d := directionMoves[k];
      ghost var before := out;
      out := GetLeap(board, whitesMove, row, column, d, out);
      LeapsStep(board, whitesMove, row, column, directionMoves, k);
      AppendAssoc(before, Leap(board, whitesMove, row, column, d), Leaps(board, whitesMove, row, column, directionMoves[k + 1..]));
      k := k + 1;
    }
    assert directionMoves[k..] == [];
  }

  /** One pass of the offset loop: the target is on the board and holds an
      enemy piece or nothing. */
  method GetLeap(board: Grid, whitesMove: bool, row: int, column: int, d: (int, int),
                 moves: seq<Move>) returns (out: seq<Move>)
    requires WellFormed(board) && OnBoard(row, column)
    ensures out == moves + Leap(board, whitesMove, row, column, d)
  {
    var enemyColor := if whitesMove then Black else White;
    out := moves;
    var endRow := row + d.0;
    var endColumn := column + d.1;
    if 0 <= endRow < 8 && 0 <= endColumn < 8 {
      var endPiece := board[endRow][endColumn];
      if IsColor(endPiece, enemyColor) || endPiece == Empty {
        out := out + [NewMove(Square(row, column), Square(endRow, endColumn),
                              board[row][column], endPiece, false, false, false)];
      }
    }
  }

  lemma LeapsStep(g: Grid, whitesMove: bool, r: int, c: int, offs: seq<(int, int)>, k: int)
    requires WellFormed(g) && OnBoard(r, c) && 0 <= k < |offs|
    ensures Leaps(g, whitesMove, r, c, offs[k..])
         == Leap(g, whitesMove, r, c, offs[k]) + Leaps(g, whitesMove, r, c, offs[k + 1..])
  {
    assert offs[k..][1..] == offs[k + 1..];
  }

  /** `getKnightMoves` */
  method GetKnightMoves(board: Grid, whitesMove: bool, row: int, column: int,
                        moves: seq<Move>) returns (out: seq<Move>)
    requires WellFormed(board) && OnBoard(row, column)
    ensures out == moves + Leaps(board, whitesMove, row, column, KnightOffsets)
  {
    out := GetLeapingMoves(board, whitesMove, row, column, KnightOffsets, moves);
  }

  /** `getKingMoves` */
  method GetKingMoves(board: Grid, whitesMove: bool, row: int, column: int,
                      moves: seq<Move>) returns (out: seq<Move>)
    requires WellFormed(board) && OnBoard(row, column)
    ensures out == moves + Leaps(board, whitesMove, row, column, KingOffsets)
  {
    out := GetLeapingMoves(board, whitesMove, row, column, KingOffsets, moves);
  }

  /** The `self.moveFunctions[piece](row, column, moves)` dispatch of
      `getAllPossibleMoves` for one cell. */
  method GetSquareMoves(board: Grid, whitesMove: bool, ep: Option<Square>,
                        row: int, column: int, moves: seq<Move>) returns (out: seq<Move>)
    requires WellFormed(board) && PawnsSafe(board) && OnBoard(row, column)
    ensures out == moves + SquareMoves(board, whitesMove, ep, row, column)
  {
    out := moves;
    var cell := board[row][column];
    assert At(board, row, column) == cell;
    if (cell.P? && cell.color == White && whitesMove) || (cell.P? && cell.color == Black && !whitesMove) {
      match cell.kind {
        case Pawn =>
          assert whitesMove ==> row != 0;
          assert !whitesMove ==> row != 7;
          out := GetPawnMoves(board, whitesMove, ep, row, column, moves);
        case Rook => out := GetRookMoves(board, whitesMove, row, column, moves);
        case Knight => out := GetKnightMoves(board, whitesMove, row, column, moves);
        case Bishop => out := GetBishopMoves(board, whitesMove, row, column, moves);
        case Queen =>
          out := GetQueenMoves(board, whitesMove, row, column, moves);
          AppendAssoc(moves, Slide(board, whitesMove, row, column, RookDirections),
                      Slide(board, whitesMove, row, column, BishopDirections));
        case King => out := GetKingMoves(board, whitesMove, row, column, moves);
      }
    }
  }

  /** The inner `for c in range(len(self.board[r]))` loop of `getAllPossibleMoves`. */
  method GetRowMoves(board: Grid, whitesMove: bool, ep: Option<Square>, row: int,
                     moves: seq<Move>) returns (out: seq<Move>)
    requires WellFormed(board) && PawnsSafe(board) && 0 <= row < 8
    ensures out == moves + RowMoves(board, whitesMove, ep, row, 0)
  {
    out := moves;
    var column := 0;
    while column < 8
      invariant 0 <= column <= 8
      invariant out + RowMoves(board, whitesMove, ep, row, column) == moves + RowMoves(board, whitesMove, ep, row, 0)
    {
      ghost var before := out;
      out := GetSquareMoves(board, whitesMove, ep, row, column, out);
      AppendAssoc(before, SquareMoves(board, whitesMove, ep, row, column), RowMoves(board, whitesMove, ep, row, column + 1));
      column := column + 1;
    }
  }

  /** `getAllPossibleMoves`: every cell in row-major order, dispatched on the
      piece kind when it holds a piece of the side to move. */
  method GetAllPossibleMoves(board: Grid, whitesMove: bool, ep: Option<Square>)
    returns (moves: seq<Move>)
    requires WellFormed(board) && PawnsSafe(board)
    ensures moves == AllPossibleMoves(board, whitesMove, ep)
  {
    moves := [];
    var row := 0;
    while row < 8
      invariant 0 <= row <= 8
      invariant moves + BoardMoves(board, whitesMove, ep, row) == AllPossibleMoves(board, whitesMove, ep)
    {
      ghost var before := moves;
      moves := GetRowMoves(board, whitesMove, ep, row, moves);
      AppendAssoc(before, RowMoves(board, whitesMove, ep, row, 0), BoardMoves(board, whitesMove, ep, row + 1));
      row := row + 1;
    }
  }

  /** The `for move in oppMoves` loop of `squareUnderAttack` (in both engines),
      with its early `return True`. */
  method EndsOnSquare(moves: seq<Move>, row: int, column: int) returns (found: bool)
    ensures found == EndsOn(moves, row, column)
  {
    var k := 0;
    while k < |moves|
      invariant 0 <= k <= |moves|
      invariant forall j :: 0 <= j < k ==> moves[j].End() != Square(row, column)
    {
      if moves[k].endRow == row && moves[k].endCol == column {
        assert moves[k] in moves;
        return true;
      }
      k := k + 1;
    }
    return false;
  }
}
