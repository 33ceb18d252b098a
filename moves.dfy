/** The `Move` and `Castle` records of both engines. */
module Moves {
  import opened Pieces

  /** One ply. `pieceMoved` and `pieceCaptured` are snapshots of the board taken
      when the move is built; the three flags are set by the generator.
      The older engine's moves never carry `isCastle`. */
  datatype Move = Move(
    startRow: int, startCol: int, endRow: int, endCol: int,
    pieceMoved: Piece, pieceCaptured: Piece,
    isEnPassant: bool, isPromotion: bool, isCastle: bool)
  {
    function Start(): Square { Square(startRow, startCol) }
    function End(): Square { Square(endRow, endCol) }
  }

  /** Castling rights, in the source's argument order. */
  datatype Castle = Castle(wks: bool, bks: bool, wqs: bool, bqs: bool)

  /** `Move.__init__(startSquare, endSquare, board, ...)`: `atStart` and `atEnd`
      are the two board cells it reads. An en-passant move records as captured
      the pawn of the other colour, not the empty cell it lands on. */
  function NewMove(start: Square, end: Square, atStart: Piece, atEnd: Piece,
                   isEnPassant: bool, isPromotion: bool, isCastle: bool): (m: Move)
    ensures m.Start() == start && m.End() == end
    ensures m.pieceMoved == atStart
    ensures !isEnPassant ==> m.pieceCaptured == atEnd
    ensures isEnPassant && atStart == P(White, Pawn) ==> m.pieceCaptured == P(Black, Pawn)
    ensures isEnPassant && atStart == P(Black, Pawn) ==> m.pieceCaptured == P(White, Pawn)
    ensures m.isEnPassant == isEnPassant && m.isPromotion == isPromotion && m.isCastle == isCastle
  {
    var captured :=
      if isEnPassant then (if atStart == P(Black, Pawn) then P(White, Pawn) else P(Black, Pawn))
      else atEnd;
    Move(start.row, start.col, end.row, end.col, atStart, captured,
         isEnPassant, isPromotion, isCastle)
  }

  /** The move built from `board` as `Move.__init__` builds it. */
  function MoveOn(g: Grid, start: Square, end: Square,
                  isEnPassant: bool, isPromotion: bool, isCastle: bool): Move
    requires WellFormed(g) && OnBoard(start.row, start.col) && OnBoard(end.row, end.col)
  {
    NewMove(start, end, At(g, start.row, start.col), At(g, end.row, end.col),
            isEnPassant, isPromotion, isCastle)
  }

  /** `moveID`: the four coordinates packed as decimal digits. */
  function MoveId(m: Move): int {
    m.startRow * 1000 + m.startCol * 100 + m.endRow * 10 + m.endCol
  }

  /** `Move.__eq__`: moves compare by `moveID` only. */
  predicate SameMove(a: Move, b: Move) {
    MoveId(a) == MoveId(b)
  }

  predicate OnBoardMove(m: Move) {
    OnBoard(m.startRow, m.startCol) && OnBoard(m.endRow, m.endCol)
  }

  /** On the board, `moveID` is injective: two moves are equal exactly when their
      start and end squares agree; pieces and flags play no part. */
  lemma SameMoveIff(a: Move, b: Move)
    requires OnBoardMove(a) && OnBoardMove(b)
    ensures SameMove(a, b) <==> a.Start() == b.Start() && a.End() == b.End()
  {
  }
}
