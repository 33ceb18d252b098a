/** `Game` of `GameClasses.py`: the board and the bookkeeping fields that
    `makeMove` and `undoMove` update in place, and the queries built on them.
    Each method is proved to act on `State()` as the functions of `Positions`
    and `Legality` say. */
module Engine {
  import opened Pieces
  import opened Moves
  import opened Generation
  import opened Generators
  import opened Positions
  import opened Legality
  import opened Shapes
  import Coherence

  class Game {
    var board: Grid
    var whitesMove: bool
    var moveHistory: seq<Move>
    var whiteKingLocation: Square
    var blackKingLocation: Square
    var checkmate: bool
    var stalemate: bool
    var enPassantPossible: Option<Square>
    var enPassantPossibleLog: seq<Option<Square>>
    var castleRight: Castle
    var castleLog: seq<Castle>

    /** The logs agree with the history (see `Logged`). */
    ghost predicate Valid()
      reads this
    {
      Logged(State())
    }

    /** The fields a move reads or writes, as a value. */
    ghost function Pos(): Position
      reads this
    {
      Position(board, whitesMove, whiteKingLocation, blackKingLocation,
               enPassantPossible, castleRight)
    }

    /** Every field, as a value. */
    ghost function State(): GameState
      reads this
    {
      GameState(Pos(), moveHistory, enPassantPossibleLog, castleLog, checkmate, stalemate)
    }

    /** `Game.__init__` */
    constructor ()
      ensures Valid() && Pos() == Initial() && Sane(Pos()) && Coherent(Pos())
      ensures moveHistory == [] && enPassantPossibleLog == []
      ensures castleLog == [Castle(true, true, true, true)]
      ensures !checkmate && !stalemate
    {
      board := StartGrid();
      whitesMove := true;
      moveHistory := [];
      whiteKingLocation := Square(7, 4);
      blackKingLocation := Square(0, 4);
      checkmate := false;
      stalemate := false;
      enPassantPossible := None;
      enPassantPossibleLog := [];
      castleRight := Castle(true, true, true, true);
      castleLog := [Castle(true, true, true, true)];
      Coherence.InitialCoherent(true);
    }

    /** `makeMove`. Its board writes and its bookkeeping touch disjoint fields,
        so they are done by two helpers, each in the source's order. */
    method MakeMove(move: Move)
      requires Valid() && Shaped(move)
      modifies this
      ensures Valid() && State() == MakeState(old(State()), move)
    {
      WriteMove(move);
      RecordMove(move);
    }

    /** The board writes of `makeMove`: lift, drop, promote, take en passant,
        move the castling rook. */
    method WriteMove(move: Move)
      requires WellFormed(board) && Shaped(move)
      modifies this`board
      ensures board == MakeGrid(old(board), move)
    {
      ghost var g := board;
      board := Put(board, move.startRow, move.startCol, Empty);
      board := Put(board, move.endRow, move.endCol, move.pieceMoved);
      ghost var dropped := board;
      assert dropped == LiftAndDrop(g, move);
      if move.isPromotion {
        board := Put(board, move.endRow, move.endCol, P(move.pieceMoved.color, PromotionChoice));
      }
      ghost var promoted := board;
      assert promoted == Promote(dropped, move);
      if move.isEnPassant {
        board := Put(board, move.startRow, move.endCol, Empty);
      }
      ghost var taken := board;
      assert taken == TakeEnPassant(promoted, move);
      if move.isCastle {
        MoveCastleRook(move);
      }
    }

    /** The castle branch of `makeMove`: the rook is copied next to the king
        and its corner cleared. */
    method MoveCastleRook(move: Move)
      requires WellFormed(board) && Shaped(move) && move.isCastle
      modifies this`board
      ensures board == RookAcross(old(board), move)
    {
      if move.endCol - move.startCol == 2 {
        board := Put(board, move.endRow, move.endCol - 1, board[move.endRow][move.endCol + 1]);
        board := Put(board, move.endRow, move.endCol + 1, Empty);
      } else {
        board := Put(board, move.endRow, move.endCol + 1, board[move.endRow][move.endCol - 2]);
        board := Put(board, move.endRow, move.endCol - 2, Empty);
      }
    }

    /** The bookkeeping of `makeMove`: history, turn, king caches, en-passant
        log and target, castle rights and their log. */
    method RecordMove(move: Move)
      modifies this
      ensures board == old(board)
      ensures whitesMove == !old(whitesMove)
      ensures whiteKingLocation == if move.pieceMoved == P(White, King) then move.End() else old(whiteKingLocation)
      ensures blackKingLocation == if move.pieceMoved == P(Black, King) then move.End() else old(blackKingLocation)
      ensures enPassantPossible == EnPassantAfter(move)
      ensures castleRight == UpdateRights(old(castleRight), move)
      ensures moveHistory == old(moveHistory) + [move]
      ensures enPassantPossibleLog == old(enPassantPossibleLog) + [old(enPassantPossible)]
      ensures castleLog == old(castleLog) + [castleRight]
      ensures checkmate == old(checkmate) && stalemate == old(stalemate)
    {
      moveHistory := moveHistory + [move];
      whitesMove := !whitesMove;
      MoveKing(move.pieceMoved, move.End());
      LogEnPassant(move);
      UpdateCastleRights(move);
      castleLog := castleLog + [castleRight];
    }

    /** The king caches follow a king to the given square. */
    method MoveKing(piece: Piece, to: Square)
      modifies this`whiteKingLocation, this`blackKingLocation
      ensures whiteKingLocation == if piece == P(White, King) then to else old(whiteKingLocation)
      ensures blackKingLocation == if piece == P(Black, King) then to else old(blackKingLocation)
    {
      if piece == P(White, King) {
        whiteKingLocation := to;
      } else if piece == P(Black, King) {
        blackKingLocation := to;
      }
    }

    /** The en-passant target is logged, then set when a pawn moves two rows. */
    method LogEnPassant(move: Move)
      modifies this`enPassantPossible, this`enPassantPossibleLog
      ensures enPassantPossible == EnPassantAfter(move)
      ensures enPassantPossibleLog == old(enPassantPossibleLog) + [old(enPassantPossible)]
    {
      enPassantPossibleLog := enPassantPossibleLog + [enPassantPossible];
      if move.pieceMoved.P? && move.pieceMoved.kind == Pawn
         && (move.startRow - move.endRow == 2 || move.endRow - move.startRow == 2) {
        enPassantPossible := Some(Square((move.startRow + move.endRow) / 2, move.startCol));
      } else {
        enPassantPossible := None;
      }
    }

    /** `updateCastleRights` */
    method UpdateCastleRights(move: Move)
      modifies this`castleRight
      ensures castleRight == UpdateRights(old(castleRight), move)
    {
      if move.pieceMoved == P(White, King) {
        castleRight := castleRight.(wks := false, wqs := false);
      } else if move.pieceMoved == P(Black, King) {
        castleRight := castleRight.(bks := false, bqs := false);
      } else if move.pieceMoved == P(White, Rook) {
        if move.startRow == 7 {
          if move.startCol == 0 {
            castleRight := castleRight.(wqs := false);
          } else if move.startCol == 7 {
            castleRight := castleRight.(wks := false);
          }
        }
      } else if move.pieceMoved == P(Black, Rook) {
        if move.startRow == 0 {
          if move.startCol == 0 {
            castleRight := castleRight.(bqs := false);
          } else if move.startCol == 7 {
            castleRight := castleRight.(bks := false);
          }
        }
      }
    }

    /** `undoMove`: nothing without a history; otherwise the last move is popped,
        the turn, king cache, en-passant target and castle rights are restored
        from it and from the logs, and its board writes are reversed. */
    method UndoMove()
      requires Valid()
      modifies this
      ensures Valid() && State() == UndoState(old(State()))
    {
      if |moveHistory| != 0 {
        var move := PopMove();
        assert move in old(moveHistory);
        UnwriteMove(move);
      }
    }

    /** The bookkeeping of `undoMove` for a non-empty history. */
    method PopMove() returns (move: Move)
      requires Valid() && moveHistory != []
      modifies this
      ensures board == old(board) && checkmate == old(checkmate) && stalemate == old(stalemate)
      ensures var n := |old(moveHistory)|;
                move == old(moveHistory)[n - 1]
                && moveHistory == old(moveHistory)[..n - 1]
                && enPassantPossibleLog == old(enPassantPossibleLog)[..n - 1]
                && castleLog == old(castleLog)[..n]
                && whitesMove == !old(whitesMove)
                && whiteKingLocation == (if move.pieceMoved == P(White, King) then move.Start() else old(whiteKingLocation))
                && blackKingLocation == (if move.pieceMoved == P(Black, King) then move.Start() else old(blackKingLocation))
                && enPassantPossible == old(enPassantPossibleLog)[n - 1]
                && castleRight == old(castleLog)[n - 1]
    {
      move := moveHistory[|moveHistory| - 1];
      moveHistory := moveHistory[..|moveHistory| - 1];
      whitesMove := !whitesMove;
      MoveKing(move.pieceMoved, move.Start());
      PopLogs();
    }

    /** The en-passant target and the castle rights go back to their logged
        values, and the logs lose their last entries. */
    method PopLogs()
      requires |enPassantPossibleLog| >= 1 && |castleLog| >= 2
      modifies this`enPassantPossible, this`enPassantPossibleLog, this`castleRight, this`castleLog
      ensures var n := |old(enPassantPossibleLog)|;
                enPassantPossible == old(enPassantPossibleLog)[n - 1]
                && enPassantPossibleLog == old(enPassantPossibleLog)[..n - 1]
      ensures var k := |old(castleLog)|;
                castleLog == old(castleLog)[..k - 1] && castleRight == old(castleLog)[k - 2]
    {
      enPassantPossible := enPassantPossibleLog[|enPassantPossibleLog| - 1];
      enPassantPossibleLog := enPassantPossibleLog[..|enPassantPossibleLog| - 1];
      castleLog := castleLog[..|castleLog| - 1];
      castleRight := castleLog[|castleLog| - 1];
    }

    /** The board writes of `undoMove`: put back the mover and the captured
        piece, the pawn taken en passant, and the castling rook. */
    method UnwriteMove(move: Move)
      requires WellFormed(board) && Shaped(move)
      modifies this`board
      ensures board == UndoGrid(old(board), move)
    {
      ghost var h := board;
      board := Put(board, move.startRow, move.startCol, move.pieceMoved);
      board := Put(board, move.endRow, move.endCol, move.pieceCaptured);
      ghost var restored := board;
      assert restored == Restore(h, move);
      if move.isEnPassant {
        board := Put(board, move.endRow, move.endCol, Empty);
        board := Put(board, move.startRow, move.endCol, move.pieceCaptured);
      }
      ghost var putBack := board;
      assert putBack == PutBackEnPassant(restored, move);
      if move.isCastle {
        MoveCastleRookBack(move);
      }
    }

    /** The castle branch of `undoMove`: the rook is copied back to its corner
        and the cell beside the king cleared. */
    method MoveCastleRookBack(move: Move)
      requires WellFormed(board) && Shaped(move) && move.isCastle
      modifies this`board
      ensures board == RookBack(old(board), move)
    {
      if move.endCol - move.startCol == 2 {
        board := Put(board, move.endRow, move.endCol + 1, board[move.endRow][move.endCol - 1]);
        board := Put(board, move.endRow, move.endCol - 1, Empty);
      } else {
        board := Put(board, move.endRow, move.endCol - 2, board[move.endRow][move.endCol + 1]);
        board := Put(board, move.endRow, move.endCol + 1, Empty);
      }
    }

    /** `squareUnderAttack`: the opponent's pseudo-legal moves, generated with
        the turn flipped and flipped back, are scanned for one ending on the
        square. */
    method SquareUnderAttack(row: int, column: int) returns (attacked: bool)
      requires WellFormed(board) && PawnsSafe(board)
      modifies this`whitesMove
      ensures whitesMove == old(whitesMove) && Pos() == old(Pos())
      ensures attacked == Attacked(board, !whitesMove, enPassantPossible, row, column)
    {
      whitesMove := !whitesMove;
      var oppMoves := GetAllPossibleMoves(board, whitesMove, enPassantPossible);
      whitesMove := !whitesMove;
      attacked := EndsOnSquare(oppMoves, row, column);
      AttackedIff(board, !whitesMove, enPassantPossible, row, column);
    }

    /** `inCheck`: the cached square of the king of the side to move is attacked. */
    method InCheck() returns (check: bool)
      requires Sane(Pos())
      modifies this`whitesMove
      ensures whitesMove == old(whitesMove)
      ensures check == Legality.InCheck(Pos())
    {
      if whitesMove {
        check := SquareUnderAttack(whiteKingLocation.row, whiteKingLocation.col);
      } else {
        check := SquareUnderAttack(blackKingLocation.row, blackKingLocation.col);
      }
    }

    /** `getKingSideCastleMoves` */
    method GetKingSideCastleMoves(row: int, column: int, moves: seq<Move>) returns (out: seq<Move>)
      requires Sane(Pos()) && OnBoard(row, column) && column <= 5
      modifies this`whitesMove
      ensures whitesMove == old(whitesMove)
      ensures out == moves + KingSideCastle(Pos(), row, column)
    {
      ghost var p := Pos();
      out := moves;
      if board[row][column + 1] == Empty && board[row][column + 2] == Empty {
        var first := SquareUnderAttack(row, column + 1);
        var second := SquareUnderAttack(row, column + 2);
        if !first && !second {
          out := out + [MoveOn(board, Square(row, column), Square(row, column + 2), false, false, true)];
        }
      }
    }

    /** `getQueenSideCastleMoves` */
    method GetQueenSideCastleMoves(row: int, column: int, moves: seq<Move>) returns (out: seq<Move>)
      requires Sane(Pos()) && OnBoard(row, column) && column >= 3
      modifies this`whitesMove
      ensures whitesMove == old(whitesMove)
      ensures out == moves + QueenSideCastle(Pos(), row, column)
    {
      ghost var p := Pos();
      out := moves;
      if board[row][column - 1] == Empty && board[row][column - 2] == Empty
         && board[row][column - 3] == Empty {
        var first := SquareUnderAttack(row, column - 1);
        var second := SquareUnderAttack(row, column - 2);
        if !first && !second {
          out := out + [NewMove(Square(row, column), Square(row, column - 2),
                                board[row][column], board[row][column - 2], false, false, true)];
        }
      }
    }

    /** `getCastleMoves`, called with the cached square of the king of the side
        to move. */
    method GetCastleMoves(row: int, column: int, moves: seq<Move>) returns (out: seq<Move>)
      requires Sane(Pos()) && Square(row, column) == KingOf(Pos(), whitesMove)
      modifies this`whitesMove
      ensures whitesMove == old(whitesMove)
      ensures out == moves + CastleMoves(Pos(), row, column)
    {
      ghost var p := Pos();
      var inCheck := SquareUnderAttack(row, column);
      if inCheck {
        return moves;
      }
      out := moves;
      if (whitesMove && castleRight.wks) || (!whitesMove && castleRight.bks) {
        out := GetKingSideCastleMoves(row, column, out);
      }
      ghost var kingSide := out;
      if (whitesMove && castleRight.wqs) || (!whitesMove && castleRight.bqs) {
        out := GetQueenSideCastleMoves(row, column, out);
      }
      AppendAssoc(moves, kingSide[|moves|..], out[|kingSide|..]);
    }
  
    /** The body of the loop of `getValidMoves` for one candidate: make it, flip
        the turn back to its mover, ask `inCheck`, flip again and undo it. */
    method LeavesKingInCheck(move: Move) returns (illegal: bool)
      requires Valid() && Sane(Pos()) && Applicable(Pos(), move)
      modifies this
      ensures Valid() && State() == old(State())
      ensures illegal == IllegalAfter(old(Pos()), move)
    {
      ghost var s := State();
      MakeMove(move);
      MakePreservesSane(s.pos, move);
      illegal := MoverInCheck();
      UndoMove();
      UndoMakeState(s, move);
    }

    /** `inCheck()` between two turn flips: the king of the side that has just
        moved stands on a square the side to move attacks. */
    method MoverInCheck() returns (check: bool)
      requires Sane(Pos())
      modifies this`whitesMove
      ensures whitesMove == old(whitesMove)
      ensures check == Attacked(board, whitesMove, enPassantPossible,
                                KingOf(Pos(), !whitesMove).row, KingOf(Pos(), !whitesMove).col)
    {
      whitesMove := !whitesMove;
      SaneEitherTurn(old(Pos()));
      assert Pos() == old(Pos()).(whiteToMove := !old(whitesMove));
      check := InCheck();
      whitesMove := !whitesMove;
    }

    /** `getValidMoves`: the candidates are swept from the back, each one that
        leaves its mover's king attacked removed with `list.remove`; then the
        checkmate and stalemate flags are set from the result. */
    method GetValidMoves() returns (moves: seq<Move>)
      requires Valid() && Sane(Pos()) && Consistent(Pos())
      modifies this
      ensures Valid() && State() == old(State()).(checkmate := checkmate, stalemate := stalemate)
      ensures moves == ValidMoves(old(Pos()))
      ensures moves == [] && Legality.InCheck(old(Pos())) ==> checkmate && stalemate == old(stalemate)
      ensures moves == [] && !Legality.InCheck(old(Pos())) ==> stalemate && checkmate == old(checkmate)
      ensures moves != [] ==> !checkmate && !stalemate
    {
      var candidates := GetCandidates();
      CandidatesApplicable(Pos());
      moves := RemoveIllegal(candidates);
      SetGameOver(|moves| == 0);
    }

    /** The end of `getValidMoves`: with no move left it is checkmate when the
        king is in check and stalemate otherwise (the other flag is left as it
        was); with moves left both flags are cleared. */
    method SetGameOver(noMoves: bool)
      requires Valid() && Sane(Pos())
      modifies this
      ensures State() == old(State()).(checkmate := checkmate, stalemate := stalemate)
      ensures noMoves && Legality.InCheck(Pos()) ==> checkmate && stalemate == old(stalemate)
      ensures noMoves && !Legality.InCheck(Pos()) ==> stalemate && checkmate == old(checkmate)
      ensures !noMoves ==> !checkmate && !stalemate
    {
      if noMoves {
        var check := InCheck();
        if check {
          checkmate := true;
        } else {
          stalemate := true;
        }
      } else {
        checkmate := false;
        stalemate := false;
      }
    }

    /** The list `getValidMoves` starts from: `getAllPossibleMoves()`, then
        `getCastleMoves` for the king of the side to move. */
    method GetCandidates() returns (moves: seq<Move>)
      requires Valid() && Sane(Pos())
      modifies this`whitesMove
      ensures whitesMove == old(whitesMove)
      ensures moves == Candidates(Pos())
    {
      ghost var p := Pos();
      moves := GetAllPossibleMoves(board, whitesMove, enPassantPossible);
      if whitesMove {
        assert KingOf(p, p.whiteToMove) == whiteKingLocation;
        moves := GetCastleMoves(whiteKingLocation.row, whiteKingLocation.col, moves);
      } else {
        assert KingOf(p, p.whiteToMove) == blackKingLocation;
        moves := GetCastleMoves(blackKingLocation.row, blackKingLocation.col, moves);
      }
    }

    /** The loop of `getValidMoves`: `for i in range(len(moves) - 1, -1, -1)`. */
    method RemoveIllegal(candidates: seq<Move>) returns (moves: seq<Move>)
      requires Valid() && Sane(Pos()) && AllApplicable(Pos(), candidates)
      modifies this
      ensures Valid() && State() == old(State())
      ensures moves == Sweep(candidates, |candidates|, InCheckAfter(old(Pos())))
    {
      ghost var p := Pos();
      ghost var bad := InCheckAfter(p);
      moves := candidates;
      var i := |moves| - 1;
      while i >= 0
        invariant -1 <= i < |moves|
        invariant Valid() && State() == old(State())
        invariant AllApplicable(p, moves)
        invariant Sweep(moves, i + 1, bad) == Sweep(candidates, |candidates|, bad)
      {
        assert moves[i] in moves;
        var illegal := LeavesKingInCheck(moves[i]);
        if illegal {
          assert SameMove(moves[i], moves[i]);
          moves := RemoveFirst(moves, moves[i]);
        }
        i := i - 1;
      }
    }
  }
}
