/** The state `makeMove` and `undoMove` act on, as a value, and the two
    operations of `GameClasses.py` as functions of it. The `Game` classes run the
    same steps on their fields and are proved to agree with these functions. */
module Positions {
  import opened Pieces
  import opened Moves
  import opened Generation

  /** The fields of `Game` that a move reads or writes, apart from the logs. */
  datatype Position = Position(
    grid: Grid, whiteToMove: bool,
    whiteKing: Square, blackKing: Square,
    enPassant: Option<Square>, rights: Castle)

  /** `promotionChoice`: a pawn always promotes to a queen. */
  const PromotionChoice: Kind := Queen

  /** `Game.__init__`, as a value: the kings stand on their cached squares and
      are the only ones of their colour. */
  function Initial(): (p: Position)
    ensures Sane(p) && Consistent(p)
  {
    Position(StartGrid(), true, Square(7, 4), Square(0, 4), None, Castle(true, true, true, true))
  }

  /** The king cache of `white`'s side: `whiteKingLocation` or `blackKingLocation`. */
  function KingOf(p: Position, white: bool): Square {
    if white then p.whiteKing else p.blackKing
  }

  /** A move whose cells `makeMove` and `undoMove` can index: both squares on
      the board, a promoted piece that has a colour, and the rook cells of a
      castle inside the row. */
  predicate Shaped(m: Move) {
    OnBoardMove(m)
    && (m.isPromotion ==> m.pieceMoved.P?)
    && (m.isCastle ==>
          if m.endCol - m.startCol == 2 then 1 <= m.endCol <= 6 else 2 <= m.endCol <= 6)
  }

  /** The board after `makeMove(m)`, step by step: lift, drop, promote, remove
      the pawn taken en passant, move the castling rook. */
  function MakeGrid(g: Grid, m: Move): (h: Grid)
    requires WellFormed(g) && Shaped(m)
    ensures WellFormed(h)
  {
    RookAcross(TakeEnPassant(Promote(LiftAndDrop(g, m), m), m), m)
  }

  function LiftAndDrop(g: Grid, m: Move): (h: Grid)
    requires WellFormed(g) && Shaped(m)
    ensures WellFormed(h)
  {
    Put(Put(g, m.startRow, m.startCol, Empty), m.endRow, m.endCol, m.pieceMoved)
  }

  function Promote(g: Grid, m: Move): (h: Grid)
    requires WellFormed(g) && Shaped(m)
    ensures WellFormed(h)
  {
    if m.isPromotion then Put(g, m.endRow, m.endCol, P(m.pieceMoved.color, PromotionChoice)) else g
  }

  function TakeEnPassant(g: Grid, m: Move): (h: Grid)
    requires WellFormed(g) && Shaped(m)
    ensures WellFormed(h)
  {
    if m.isEnPassant then Put(g, m.startRow, m.endCol, Empty) else g
  }

  /** The rook of a castle is copied to the cell the king crossed and its corner
      cleared; the king-side case is told by `endCol - startCol == 2`. */
  function RookAcross(g: Grid, m: Move): (h: Grid)
    requires WellFormed(g) && Shaped(m)
    ensures WellFormed(h)
  {
    if !m.isCastle then g
    else if m.endCol - m.startCol == 2 then
      Put(Put(g, m.endRow, m.endCol - 1, At(g, m.endRow, m.endCol + 1)), m.endRow, m.endCol + 1, Empty)
    else
      Put(Put(g, m.endRow, m.endCol + 1, At(g, m.endRow, m.endCol - 2)), m.endRow, m.endCol - 2, Empty)
  }

  /** The board after `undoMove` pops `m`: the same steps in reverse. */
  function UndoGrid(h: Grid, m: Move): (g: Grid)
    requires WellFormed(h) && Shaped(m)
    ensures WellFormed(g)
  {
    RookBack(PutBackEnPassant(Restore(h, m), m), m)
  }

  function Restore(h: Grid, m: Move): (g: Grid)
    requires WellFormed(h) && Shaped(m)
    ensures WellFormed(g)
  {
    Put(Put(h, m.startRow, m.startCol, m.pieceMoved), m.endRow, m.endCol, m.pieceCaptured)
  }

  function PutBackEnPassant(h: Grid, m: Move): (g: Grid)
    requires WellFormed(h) && Shaped(m)
    ensures WellFormed(g)
  {
    if m.isEnPassant then Put(Put(h, m.endRow, m.endCol, Empty), m.startRow, m.endCol, m.pieceCaptured) else h
  }

  function RookBack(h: Grid, m: Move): (g: Grid)
    requires WellFormed(h) && Shaped(m)
    ensures WellFormed(g)
  {
    if !m.isCastle then h
    else if m.endCol - m.startCol == 2 then
      Put(Put(h, m.endRow, m.endCol + 1, At(h, m.endRow, m.endCol - 1)), m.endRow, m.endCol - 1, Empty)
    else
      Put(Put(h, m.endRow, m.endCol - 2, At(h, m.endRow, m.endCol + 1)), m.endRow, m.endCol + 1, Empty)
  }

  /** `updateCastleRights`: a king move gives up both of its side's rights; a
      rook leaving its own corner gives up the right on that side. */
  function UpdateRights(c: Castle, m: Move): (r: Castle)
    ensures r.wks <==> c.wks && m.pieceMoved != P(White, King)
                        && !(m.pieceMoved == P(White, Rook) && m.Start() == Square(7, 7))
    ensures r.wqs <==> c.wqs && m.pieceMoved != P(White, King)
                        && !(m.pieceMoved == P(White, Rook) && m.Start() == Square(7, 0))
    ensures r.bks <==> c.bks && m.pieceMoved != P(Black, King)
                        && !(m.pieceMoved == P(Black, Rook) && m.Start() == Square(0, 7))
    ensures r.bqs <==> c.bqs && m.pieceMoved != P(Black, King)
                        && !(m.pieceMoved == P(Black, Rook) && m.Start() == Square(0, 0))
  {
    if m.pieceMoved == P(White, King) then c.(wks := false, wqs := false)
    else if m.pieceMoved == P(Black, King) then c.(bks := false, bqs := false)
    else if m.pieceMoved == P(White, Rook) then
      if m.startRow == 7 then
        if m.startCol == 0 then c.(wqs := false)
        else if m.startCol == 7 then c.(wks := false)
        else c
      else c
    else if m.pieceMoved == P(Black, Rook) then
      if m.startRow == 0 then
        if m.startCol == 0 then c.(bqs := false)
        else if m.startCol == 7 then c.(bks := false)
        else c
      else c
    else c
  }

  /** The en-passant target `makeMove` leaves: the square a pawn skipped over
      when it moved two rows, and none after any other move. */
  function EnPassantAfter(m: Move): Option<Square> {
    if m.pieceMoved.P? && m.pieceMoved.kind == Pawn && (m.startRow - m.endRow == 2 || m.endRow - m.startRow == 2)
    then Some(Square((m.startRow + m.endRow) / 2, m.startCol))
    else None
  }

  /** `makeMove(m)`, as a value. */
  function MakePos(p: Position, m: Move): Position
    requires WellFormed(p.grid) && Shaped(m)
  {
    Position(
      MakeGrid(p.grid, m), !p.whiteToMove,
      if m.pieceMoved == P(White, King) then m.End() else p.whiteKing,
      if m.pieceMoved == P(Black, King) then m.End() else p.blackKing,
      EnPassantAfter(m), UpdateRights(p.rights, m))
  }

  /** `undoMove()` popping `m`, with `ep` popped from `enPassantPossibleLog` and
      `rights` read from the castle log after its pop. */
  function UndoPos(q: Position, m: Move, ep: Option<Square>, rights: Castle): Position
    requires WellFormed(q.grid) && Shaped(m)
  {
    Position(
      UndoGrid(q.grid, m), !q.whiteToMove,
      if m.pieceMoved == P(White, King) then m.Start() else q.whiteKing,
      if m.pieceMoved == P(Black, King) then m.Start() else q.blackKing,
      ep, rights)
  }

  /** Every field of `Game`: the position, the move history, the en-passant
      and castle logs, and the two end-of-game flags. */
  datatype GameState = GameState(
    pos: Position, history: seq<Move>, epLog: seq<Option<Square>>, rightsLog: seq<Castle>,
    checkmate: bool, stalemate: bool)

  /** The logs run alongside the history: one en-passant entry per move, one
      castle entry per move plus the initial one, the last being the current
      rights; every move in the history can be replayed backwards. */
  predicate Logged(s: GameState) {
    WellFormed(s.pos.grid)
    && |s.epLog| == |s.history|
    && |s.rightsLog| == |s.history| + 1
    && s.rightsLog[|s.history|] == s.pos.rights
    && forall m :: m in s.history ==> Shaped(m)
  }

  /** `makeMove(m)` on the whole game: the position moves on, the move and the
      old en-passant target are logged, and the new rights are logged. */
  function MakeState(s: GameState, m: Move): (r: GameState)
    requires Logged(s) && Shaped(m)
    ensures Logged(r)
    ensures r.history == s.history + [m] && r.epLog == s.epLog + [s.pos.enPassant]
    ensures r.rightsLog[..|s.rightsLog|] == s.rightsLog
    ensures r.checkmate == s.checkmate && r.stalemate == s.stalemate
  {
    var q := MakePos(s.pos, m);
    GameState(q, s.history + [m], s.epLog + [s.pos.enPassant], s.rightsLog + [q.rights],
              s.checkmate, s.stalemate)
  }

  /** `undoMove()` on the whole game: nothing without a history; otherwise the
      last move is popped and undone with the en-passant target and the rights
      its logs hold. */
  function UndoState(s: GameState): (r: GameState)
    requires Logged(s)
    ensures Logged(r)
    ensures s.history == [] ==> r == s
    ensures s.history != [] ==>
              r.history == s.history[..|s.history| - 1] && r.epLog == s.epLog[..|s.history| - 1]
              && r.rightsLog == s.rightsLog[..|s.history|]
    ensures r.checkmate == s.checkmate && r.stalemate == s.stalemate
  {
    if s.history == [] then s
    else
      var n := |s.history|;
      assert s.history[n - 1] in s.history;
      GameState(UndoPos(s.pos, s.history[n - 1], s.epLog[n - 1], s.rightsLog[n - 1]),
                s.history[..n - 1], s.epLog[..n - 1], s.rightsLog[..n],
                s.checkmate, s.stalemate)
  }

  /** What every reachable position satisfies, whoever is to move: a well-formed
      board with no pawn on its own last rank, king caches on the board, a king
      that keeps a castling right still at home, and an en-passant target that
      is the empty square behind a pawn that has just moved two rows. */
  predicate Sane(p: Position) {
    WellFormed(p.grid) && PawnsSafe(p.grid)
    && OnBoard(p.whiteKing.row, p.whiteKing.col) && OnBoard(p.blackKing.row, p.blackKing.col)
    && ((p.rights.wks || p.rights.wqs) ==> p.whiteKing == Square(7, 4))
    && ((p.rights.bks || p.rights.bqs) ==> p.blackKing == Square(0, 4))
    && EpShape(p)
  }

  /** Sanity does not depend on whose turn it is. */
  lemma SaneEitherTurn(p: Position)
    requires Sane(p)
    ensures Sane(p.(whiteToMove := !p.whiteToMove))
  {
  }

  predicate EpShape(p: Position)
    requires WellFormed(p.grid)
  {
    p.enPassant.Some? ==>
      var s := p.enPassant.value;
      0 <= s.col < 8
      && ((s.row == 2 && At(p.grid, 3, s.col) == P(Black, Pawn) && At(p.grid, 2, s.col) == Empty)
          || (s.row == 5 && At(p.grid, 4, s.col) == P(White, Pawn) && At(p.grid, 5, s.col) == Empty))
  }

  /** The bookkeeping agrees with the board: each king stands on its cached
      square and is the only king of its colour, and an en-passant target lies
      on the side of the player who may take it. */
  predicate Consistent(p: Position)
    requires Sane(p)
  {
    At(p.grid, p.whiteKing.row, p.whiteKing.col) == P(White, King)
    && At(p.grid, p.blackKing.row, p.blackKing.col) == P(Black, King)
    && (forall r, c :: 0 <= r < 8 && 0 <= c < 8 && At(p.grid, r, c) == P(White, King) ==> Square(r, c) == p.whiteKing)
    && (forall r, c :: 0 <= r < 8 && 0 <= c < 8 && At(p.grid, r, c) == P(Black, King) ==> Square(r, c) == p.blackKing)
    && (p.enPassant.Some? ==> (p.enPassant.value.row == 2 <==> p.whiteToMove))
  }

  /** The position a legal game reaches: consistent, and the side that has just
      moved is not in check. */
  predicate Coherent(p: Position)
    requires Sane(p)
  {
    Consistent(p)
    && !Attacked(p.grid, p.whiteToMove, p.enPassant,
                 KingOf(p, !p.whiteToMove).row, KingOf(p, !p.whiteToMove).col)
  }

  /** The moves the generators can hand to `makeMove` in `p`: a piece of the side
      to move leaves its square (a king from its cached square) for another one;
      the captured piece is the one on the target square, or for an en-passant
      capture the enemy pawn beside the mover on an empty target; a castle moves
      the king two columns along its row past an empty cell; at most one flag;
      a pawn promotes exactly when it reaches its last rank, and moves two rows
      only from its starting row through an empty cell. */
  predicate Applicable(p: Position, m: Move)
    requires Sane(p)
  {
    Shaped(m)
    && IsColor(m.pieceMoved, Mover(p.whiteToMove))
    && m.pieceMoved == At(p.grid, m.startRow, m.startCol)
    && m.Start() != m.End()
    && !IsColor(At(p.grid, m.endRow, m.endCol), Mover(p.whiteToMove))
    && (m.pieceMoved == P(White, King) ==> m.Start() == p.whiteKing)
    && (m.pieceMoved == P(Black, King) ==> m.Start() == p.blackKing)
    && !(m.isEnPassant && m.isPromotion) && !(m.isEnPassant && m.isCastle) && !(m.isPromotion && m.isCastle)
    && (m.isPromotion <==> m.pieceMoved.kind == Pawn && m.endRow == LastRow(p.whiteToMove))
    && (!m.isEnPassant ==> m.pieceCaptured == At(p.grid, m.endRow, m.endCol))
    && (m.isEnPassant ==>
          m.pieceMoved.kind == Pawn && At(p.grid, m.endRow, m.endCol) == Empty
          && m.startRow != m.endRow && m.startCol != m.endCol
          && m.pieceCaptured == P(Opponent(m.pieceMoved.color), Pawn)
          && At(p.grid, m.startRow, m.endCol) == m.pieceCaptured)
    && (m.isCastle ==>
          m.Start() == KingOf(p, p.whiteToMove) && m.startRow == m.endRow
          && ((m.endCol == m.startCol + 2 && At(p.grid, m.endRow, m.endCol - 1) == Empty)
              || (m.endCol == m.startCol - 2 && At(p.grid, m.endRow, m.endCol + 1) == Empty)))
    && (TwoRowPawnMove(m) ==>
          m.startRow == PawnStartRow(p.whiteToMove)
          && m.endRow == m.startRow + 2 * Forward(p.whiteToMove) && m.startCol == m.endCol
          && !m.isEnPassant && !m.isCastle
          && At(p.grid, m.startRow + Forward(p.whiteToMove), m.startCol) == Empty)
  }

  predicate TwoRowPawnMove(m: Move) {
    m.pieceMoved.P? && m.pieceMoved.kind == Pawn && (m.startRow - m.endRow == 2 || m.endRow - m.startRow == 2)
  }

  /** Undoing a plain move (no en passant, no castle) restores the board. */
  lemma UndoMakePlain(g: Grid, m: Move)
    requires WellFormed(g) && Shaped(m) && !m.isEnPassant && !m.isCastle
    requires m.Start() != m.End()
    requires At(g, m.startRow, m.startCol) == m.pieceMoved && At(g, m.endRow, m.endCol) == m.pieceCaptured
    ensures UndoGrid(MakeGrid(g, m), m) == g
  {
    var h := UndoGrid(MakeGrid(g, m), m);
    forall r, c | OnBoard(r, c)
      ensures At(h, r, c) == At(g, r, c)
    {
    }
    GridExt(h, g);
  }

  /** Undoing an en-passant capture puts the taken pawn back beside the mover. */
  lemma UndoMakeEnPassant(g: Grid, m: Move)
    requires WellFormed(g) && Shaped(m) && m.isEnPassant && !m.isCastle && !m.isPromotion
    requires m.startRow != m.endRow && m.startCol != m.endCol
    requires At(g, m.startRow, m.startCol) == m.pieceMoved && At(g, m.endRow, m.endCol) == Empty
    requires At(g, m.startRow, m.endCol) == m.pieceCaptured
    ensures UndoGrid(MakeGrid(g, m), m) == g
  {
    var h := UndoGrid(MakeGrid(g, m), m);
    forall r, c | OnBoard(r, c)
      ensures At(h, r, c) == At(g, r, c)
    {
    }
    GridExt(h, g);
  }

  /** Undoing a castle puts the rook back in its corner cell. */
  lemma UndoMakeCastle(g: Grid, m: Move)
    requires WellFormed(g) && Shaped(m) && m.isCastle && !m.isEnPassant && !m.isPromotion
    requires m.startRow == m.endRow
    requires (m.endCol == m.startCol + 2 && At(g, m.endRow, m.endCol - 1) == Empty)
          || (m.endCol == m.startCol - 2 && At(g, m.endRow, m.endCol + 1) == Empty)
    requires At(g, m.startRow, m.startCol) == m.pieceMoved && At(g, m.endRow, m.endCol) == m.pieceCaptured
    ensures UndoGrid(MakeGrid(g, m), m) == g
  {
    var h := UndoGrid(MakeGrid(g, m), m);
    forall r, c | OnBoard(r, c)
      ensures At(h, r, c) == At(g, r, c)
    {
    }
    GridExt(h, g);
  }

  /** `undoMove` is the inverse of `makeMove`: given the en-passant target and
      the castling rights that the logs hold for the move, it restores every
      field of the position. */
  lemma MakeUndoRoundTrip(p: Position, m: Move)
    requires Sane(p) && Applicable(p, m)
    ensures UndoPos(MakePos(p, m), m, p.enPassant, p.rights) == p
  {
    if m.isEnPassant {
      UndoMakeEnPassant(p.grid, m);
    } else if m.isCastle {
      UndoMakeCastle(p.grid, m);
    } else {
      UndoMakePlain(p.grid, m);
    }
  }

  /** On the whole game, `undoMove` undoes `makeMove`: the position comes back
      and the history and both logs lose exactly the entries the move added. */
  lemma UndoMakeState(s: GameState, m: Move)
    requires Logged(s) && Sane(s.pos) && Applicable(s.pos, m)
    ensures UndoState(MakeState(s, m)) == s
  {
    var t := MakeState(s, m);
    var n := |s.history|;
    assert t.history[..n] == s.history && t.history[n] == m;
    assert t.epLog[..n] == s.epLog && t.epLog[n] == s.pos.enPassant;
    assert t.rightsLog[..n + 1] == s.rightsLog;
    MakeUndoRoundTrip(s.pos, m);
  }

  /** `makeMove` writes only the cells it names: the start and end squares, the
      cell of a pawn taken en passant, and the two rook cells of a castle. */
  lemma MakeGridFrame(g: Grid, m: Move, r: int, c: int)
    requires WellFormed(g) && Shaped(m) && OnBoard(r, c)
    requires Square(r, c) != m.Start() && Square(r, c) != m.End()
    requires m.isEnPassant ==> Square(r, c) != Square(m.startRow, m.endCol)
    requires m.isCastle ==>
               (r != m.endRow
                || (m.endCol - m.startCol == 2 && c != m.endCol - 1 && c != m.endCol + 1)
                || (m.endCol - m.startCol != 2 && c != m.endCol + 1 && c != m.endCol - 2))
    ensures At(MakeGrid(g, m), r, c) == At(g, r, c)
  {
  }

  /** The cells `makeMove` does write, for a move the generators can produce: the
      start is emptied; the end receives the moved piece, or a queen of its
      colour on a promotion; an en-passant capture empties the cell beside the
      start on the target's column; a castle towards column 7 moves the corner
      rook from `endCol + 1` to `endCol - 1`, any other castle from `endCol - 2`
      to `endCol + 1`. */
  lemma MakeGridCells(p: Position, m: Move)
    requires Sane(p) && Applicable(p, m)
    ensures var h := MakeGrid(p.grid, m);
      At(h, m.startRow, m.startCol) == Empty
      && At(h, m.endRow, m.endCol) == (if m.isPromotion then P(m.pieceMoved.color, Queen) else m.pieceMoved)
      && (m.isEnPassant ==> At(h, m.startRow, m.endCol) == Empty)
      && (m.isCastle && m.endCol - m.startCol == 2 ==>
            At(h, m.endRow, m.endCol - 1) == At(p.grid, m.endRow, m.endCol + 1)
            && At(h, m.endRow, m.endCol + 1) == Empty)
      && (m.isCastle && m.endCol - m.startCol != 2 ==>
            At(h, m.endRow, m.endCol + 1) == At(p.grid, m.endRow, m.endCol - 2)
            && At(h, m.endRow, m.endCol - 2) == Empty)
  {
  }

  /** After `makeMove`, the en-passant target is set exactly by a two-row pawn
      move, and it is the empty square the pawn passed over. */
  lemma EnPassantTarget(p: Position, m: Move)
    requires Sane(p) && Applicable(p, m)
    ensures MakePos(p, m).enPassant.Some? <==> TwoRowPawnMove(m)
    ensures TwoRowPawnMove(m) ==>
              MakePos(p, m).enPassant == Some(Square(m.startRow + Forward(p.whiteToMove), m.startCol))
              && At(MakePos(p, m).grid, m.startRow + Forward(p.whiteToMove), m.startCol) == Empty
  {
    if TwoRowPawnMove(m) {
      MakeGridFrame(p.grid, m, m.startRow + Forward(p.whiteToMove), m.startCol);
    }
  }

  /** `makeMove` keeps a position sane: promotion takes every pawn off its last
      rank, the caches follow the king, a right survives only while its king
      stays home, and a new en-passant target sits behind the pawn that made it. */
  lemma MakePreservesSane(p: Position, m: Move)
    requires Sane(p) && Applicable(p, m)
    ensures Sane(MakePos(p, m))
  {
    var q := MakePos(p, m);
    forall c | 0 <= c < 8
      ensures At(q.grid, 0, c) != P(White, Pawn) && At(q.grid, 7, c) != P(Black, Pawn)
    {
    }
    EnPassantTarget(p, m);
    if TwoRowPawnMove(m) {
      MakeGridFrame(p.grid, m, m.startRow + Forward(p.whiteToMove), m.startCol);
      assert At(q.grid, m.endRow, m.endCol) == m.pieceMoved;
    }
  }
}
