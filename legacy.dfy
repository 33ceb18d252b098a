/** `Game` of `ChessGameClasses.py`, the earlier engine: the same board and
    generators, but no castling, no castle rights and no logs. Its `undoMove`
    puts back only the en-passant target of an en-passant capture it undoes,
    so a make-and-undo pair can lose the target the position had; `TriedTarget`
    and `LegacyRoundTrip` say exactly what is left. */
module LegacyEngine {
  import opened Pieces
  import opened Moves
  import opened Generation
  import opened Generators
  import opened Positions
  import opened Legality
  import opened Shapes
  import opened Distinctness
  import opened Coherence
  import opened Rules

  /** The earlier engine keeps no castle rights: in its positions every right
      is off, so no castle is ever generated. */
  const NoRights := Castle(false, false, false, false)

  /** The en-passant target `undoMove` leaves when it pops `m` from a position
      whose target is `ep`: the end square of an en-passant capture, none after
      a two-row pawn move, and otherwise whatever target was there. */
  function UndoneTarget(ep: Option<Square>, m: Move): Option<Square> {
    if TwoRowPawnMove(m) then None
    else if m.isEnPassant then Some(m.End())
    else ep
  }

  /** `undoMove()` popping `m` in the earlier engine, as a value. */
  function LegacyUndoPos(q: Position, m: Move): Position
    requires WellFormed(q.grid) && Shaped(m)
  {
    UndoPos(q, m, UndoneTarget(q.enPassant, m), q.rights)
  }

  /** The en-passant target after `makeMove(m)` then `undoMove()`. */
  function TriedTarget(m: Move): Option<Square> {
    if m.isEnPassant then Some(m.End()) else None
  }

  /** `Game.__init__` of the earlier engine, as a value. */
  function LegacyInitial(): (p: Position)
    ensures Sane(p) && Consistent(p) && p.rights == NoRights
    ensures p.grid == StartGrid() && p.whiteToMove && p.enPassant == None
  {
    Initial().(rights := NoRights)
  }

  /** No move gives back a castle right that is already gone. */
  lemma NoRightsKept(m: Move)
    ensures UpdateRights(NoRights, m) == NoRights
  {
  }

  /** With every right off, the candidates of `getValidMoves` are exactly the
      list `getAllPossibleMoves` returns, which is all the earlier engine
      generates. */
  lemma NoCastleCandidates(p: Position)
    requires Sane(p) && p.rights == NoRights
    ensures Candidates(p) == AllPossibleMoves(p.grid, p.whiteToMove, p.enPassant)
  {
    var k := KingOf(p, p.whiteToMove);
    assert CastleMoves(p, k.row, k.col) == [];
  }

  /** A make-and-undo pair in the earlier engine gives back the position
      except for its en-passant target, which becomes `TriedTarget(m)`. */
  lemma LegacyRoundTrip(p: Position, m: Move)
    requires Sane(p) && Applicable(p, m) && !m.isCastle && p.rights == NoRights
    ensures LegacyUndoPos(MakePos(p, m), m) == p.(enPassant := TriedTarget(m))
  {
    MakeUndoRoundTrip(p, m);
    NoRightsKept(m);
  }

  /** The pair gives back the whole position exactly when the target it had is
      the one `TriedTarget` leaves: none, or for an en-passant capture its own
      end square. */
  lemma LegacyRestoresIff(p: Position, m: Move)
    requires Sane(p) && Applicable(p, m) && !m.isCastle && p.rights == NoRights
    ensures LegacyUndoPos(MakePos(p, m), m) == p <==> p.enPassant == TriedTarget(m)
  {
    LegacyRoundTrip(p, m);
  }

  /** The move of a piece from `from` to `to` on the board of `p`, with no flag. */
  function PlainMove(p: Position, from: Square, to: Square): Move
    requires WellFormed(p.grid) && OnBoard(from.row, from.col) && OnBoard(to.row, to.col)
  {
    MoveOn(p.grid, from, to, false, false, false)
  }

  /** The start position with Black's d-pawn already on d4, White to move. */
  function D4Setup(): Position {
    LegacyInitial().(grid := Put(Put(StartGrid(), 1, 3, Empty), 4, 3, P(Black, Pawn)))
  }

  /** The double step e2-e4. */
  function E2E4(): Move {
    PlainMove(D4Setup(), Square(6, 4), Square(4, 4))
  }

  /** `D4Setup()` after e2-e4: Black to move, with the target e3. */
  function AfterE4(): Position
    requires Sane(D4Setup()) && Applicable(D4Setup(), E2E4())
  {
    MakePos(D4Setup(), E2E4())
  }

  /** Whether the list `ms` holds a move from `s` to `t`. */
  predicate Offers(ms: seq<Move>, s: Square, t: Square) {
    exists m :: m in ms && m.Start() == s && m.End() == t
  }

  /** The setup is a position a game can be in, and e2-e4 applies to it. */
  lemma D4SetupReady()
    ensures Sane(D4Setup()) && Consistent(D4Setup()) && D4Setup().rights == NoRights
    ensures D4Setup().whiteToMove && D4Setup().blackKing == Square(0, 4)
    ensures At(D4Setup().grid, 6, 4) == P(White, Pawn) && At(D4Setup().grid, 5, 4) == Empty
    ensures At(D4Setup().grid, 4, 4) == Empty && At(D4Setup().grid, 4, 3) == P(Black, Pawn)
    ensures At(D4Setup().grid, 0, 4) == P(Black, King) && At(D4Setup().grid, 0, 1) == P(Black, Knight)
    ensures At(D4Setup().grid, 2, 2) == Empty
  {
  }

  /** A double step from e2 to e4 beside a black pawn on d4, from a position a
      game can be in, gives Black the target e3 with e3 empty; other cells
      (here the knight b8 and c6) stay as they were. */
  lemma DoubleStepBeside(p: Position, m: Move)
    requires Sane(p) && Consistent(p) && p.rights == NoRights && p.whiteToMove
    requires At(p.grid, 6, 4) == P(White, Pawn) && At(p.grid, 5, 4) == Empty && At(p.grid, 4, 4) == Empty
    requires At(p.grid, 4, 3) == P(Black, Pawn) && At(p.grid, 0, 4) == P(Black, King)
    requires m == PlainMove(p, Square(6, 4), Square(4, 4))
    ensures Applicable(p, m)
    ensures var q := MakePos(p, m);
            Sane(q) && Consistent(q) && q.rights == NoRights && !q.whiteToMove && q.enPassant == Some(Square(5, 4))
            && At(q.grid, 4, 3) == P(Black, Pawn) && At(q.grid, 5, 4) == Empty
            && At(q.grid, 0, 1) == At(p.grid, 0, 1) && At(q.grid, 2, 2) == At(p.grid, 2, 2)
  {
    assert Applicable(p, m);
    assert p.blackKing == Square(0, 4);
    ConsistentAfter(p, m);
    NoRightsKept(m);
    MakeGridFrame(p.grid, m, 4, 3);
    MakeGridFrame(p.grid, m, 5, 4);
    MakeGridFrame(p.grid, m, 0, 1);
    MakeGridFrame(p.grid, m, 2, 2);
  }

  /** A black pawn on d4 beside the target e3 may take there en passant: the
      capture is among the moves `getAllPossibleMoves` generates. */
  lemma CaptureOffered(p: Position)
    requires Sane(p) && !p.whiteToMove && p.enPassant == Some(Square(5, 4))
    requires At(p.grid, 4, 3) == P(Black, Pawn) && At(p.grid, 5, 4) == Empty
    ensures Offers(AllPossibleMoves(p.grid, false, p.enPassant), Square(4, 3), Square(5, 4))
  {
    var g, ep := p.grid, p.enPassant;
    var x := MoveOn(g, Square(4, 3), Square(5, 4), true, false, false);
    assert PawnCapture(g, false, ep, 4, 3, 4) == [x];
    assert x in PawnMoves(g, false, ep, 4, 3);
    assert x in SquareMoves(g, false, ep, 4, 3);
    BoardHolds(g, false, ep, 0, 4, 3, x);
  }

  /** With no target, a black pawn on d4 cannot go to an empty e3: it only
      pushes down its own column or takes a piece. */
  lemma PawnStaysOffTarget(g: Grid)
    requires WellFormed(g) && PawnsSafe(g)
    requires At(g, 4, 3) == P(Black, Pawn) && At(g, 5, 4) == Empty
    ensures !EndsOn(SquareMoves(g, false, None, 4, 3), 5, 4)
  {
    PawnPushReach(g, false, 4, 3, 5, 4);
    PawnCaptureReach(g, false, None, 4, 3, 2, 5, 4);
    PawnCaptureReach(g, false, None, 4, 3, 4, 5, 4);
    EndsOnAppend(PawnPush(g, false, 4, 3), PawnCapture(g, false, None, 4, 3, 2), 5, 4);
    EndsOnAppend(PawnPush(g, false, 4, 3) + PawnCapture(g, false, None, 4, 3, 2), PawnCapture(g, false, None, 4, 3, 4), 5, 4);
  }

  /** So with no target `getValidMoves` offers no move from d4 to e3. */
  lemma NoCaptureWithoutTarget(p: Position)
    requires Sane(p) && Consistent(p) && p.rights == NoRights && !p.whiteToMove && p.enPassant == None
    requires At(p.grid, 4, 3) == P(Black, Pawn) && At(p.grid, 5, 4) == Empty
    ensures !Offers(ValidMoves(p), Square(4, 3), Square(5, 4))
  {
    if Offers(ValidMoves(p), Square(4, 3), Square(5, 4)) {
      var x :| x in ValidMoves(p) && x.Start() == Square(4, 3) && x.End() == Square(5, 4);
      ValidMovesIff(p);
      NoCastleCandidates(p);
      BoardApart(p.grid, false, None, 0);
      assert x in SquareMoves(p.grid, false, None, 4, 3);
      PawnStaysOffTarget(p.grid);
      assert false;
    }
  }

  /** Black's pawn on d4 may take on e3 en passant; any other move, made and
      undone as `getValidMoves` does with each candidate, leaves the position
      without its target, and then `getValidMoves` offers no move from d4 to
      e3. */
  lemma TriedMoveLosesCapture(p: Position, m: Move)
    requires Sane(p) && Consistent(p) && p.rights == NoRights && !p.whiteToMove && p.enPassant == Some(Square(5, 4))
    requires At(p.grid, 4, 3) == P(Black, Pawn) && At(p.grid, 5, 4) == Empty
    requires Applicable(p, m) && !m.isCastle && !m.isEnPassant
    ensures Offers(AllPossibleMoves(p.grid, false, p.enPassant), Square(4, 3), Square(5, 4))
    ensures var u := LegacyUndoPos(MakePos(p, m), m);
            u == p.(enPassant := None) && Sane(u) && !Offers(ValidMoves(u), Square(4, 3), Square(5, 4))
  {
    CaptureOffered(p);
    LegacyRoundTrip(p, m);
    TargetSane(p, None);
    NoCaptureWithoutTarget(p.(enPassant := None));
  }

  /** A black knight on b8 may go to the empty c6 when Black is to move. */
  lemma KnightApplies(p: Position)
    requires Sane(p) && !p.whiteToMove
    requires At(p.grid, 0, 1) == P(Black, Knight) && At(p.grid, 2, 2) == Empty
    ensures var m := PlainMove(p, Square(0, 1), Square(2, 2));
            Applicable(p, m) && !m.isCastle && !m.isEnPassant
  {
  }

  /** The finding on a game: from `D4Setup()`, after e2-e4 the knight move
      b8-c6 is one `getValidMoves` tries, and trying it loses d4xe3. */
  lemma KnightLosesCapture()
    ensures Sane(D4Setup()) && Applicable(D4Setup(), E2E4()) && Sane(AfterE4())
    ensures var p := AfterE4();
            var m := PlainMove(p, Square(0, 1), Square(2, 2));
            p.enPassant == Some(Square(5, 4)) && Applicable(p, m)
            && Offers(AllPossibleMoves(p.grid, false, p.enPassant), Square(4, 3), Square(5, 4))
            && var u := LegacyUndoPos(MakePos(p, m), m);
            u == p.(enPassant := None) && Sane(u) && !Offers(ValidMoves(u), Square(4, 3), Square(5, 4))
  {
    D4SetupReady();
    DoubleStepBeside(D4Setup(), E2E4());
    KnightApplies(AfterE4());
    TriedMoveLosesCapture(AfterE4(), PlainMove(AfterE4(), Square(0, 1), Square(2, 2)));
  }

  /** A position whose target is dropped, or kept, is still sane. */
  lemma TargetSane(p: Position, e: Option<Square>)
    requires Sane(p) && (e == None || e == p.enPassant)
    ensures Sane(p.(enPassant := e))
  {
  }

  /** Whether a move applies, and whether it leaves its mover in check, does not
      depend on the en-passant target of the position it is made in: `makeMove`
      overwrites it. */
  lemma TargetFree(p: Position, e: Option<Square>, m: Move)
    requires Sane(p) && Sane(p.(enPassant := e)) && Applicable(p, m)
    ensures Applicable(p.(enPassant := e), m)
    ensures IllegalAfter(p.(enPassant := e), m) == IllegalAfter(p, m)
  {
    assert MakePos(p.(enPassant := e), m) == MakePos(p, m);
  }

  /** The target the sweep of `getValidMoves` leaves: the one its last
      make-and-undo pair, on the first candidate, leaves; the old one when
      there is no candidate. */
  function SweptTarget(p: Position): (e: Option<Square>)
    requires Sane(p)
    ensures e == None || e == p.enPassant
  {
    var cs := AllPossibleMoves(p.grid, p.whiteToMove, p.enPassant);
    GeneratedFlags(p.grid, p.whiteToMove, p.enPassant);
    if cs == [] then p.enPassant
    else
      assert cs[0] in cs;
      TriedTarget(cs[0])
  }

  /** A king in check stays in check whatever the target: the target is an
      empty square, never the king's. */
  lemma CheckIgnoresTarget(p: Position, e: Option<Square>)
    requires Sane(p) && Consistent(p) && Sane(p.(enPassant := e))
    ensures Legality.InCheck(p.(enPassant := e)) == Legality.InCheck(p)
  {
    var k := KingOf(p, p.whiteToMove);
    assert At(p.grid, k.row, k.col) != Empty;
    AttackedIgnoresTarget(p.grid, !p.whiteToMove, e, k.row, k.col);
    AttackedIgnoresTarget(p.grid, !p.whiteToMove, p.enPassant, k.row, k.col);
  }

  /** The earlier engine starts where the current one does, rights aside, so
      its first position is one a game can be in. */
  lemma LegacyInitialCoherent(w: bool)
    ensures Sane(LegacyInitial().(whiteToMove := w)) && Coherent(LegacyInitial().(whiteToMove := w))
  {
    InitialCoherent(w);
    assert LegacyInitial().(whiteToMove := w) == Initial().(whiteToMove := w).(rights := NoRights);
  }

  /** Replacing the target by none or by the position's own keeps a sane,
      coherent position so: no target changes whether the king of the side
      that has just moved is attacked. */
  lemma TargetCoherent(p: Position, e: Option<Square>)
    requires Sane(p) && Coherent(p) && (e == None || e == p.enPassant)
    ensures Sane(p.(enPassant := e)) && Coherent(p.(enPassant := e))
  {
    TargetSane(p, e);
    var k := KingOf(p, !p.whiteToMove);
    assert At(p.grid, k.row, k.col) != Empty;
    AttackedIgnoresTarget(p.grid, p.whiteToMove, e, k.row, k.col);
    AttackedIgnoresTarget(p.grid, p.whiteToMove, p.enPassant, k.row, k.col);
  }

  /** The target the sweep of `getValidMoves` leaves keeps the position one a
      game can be in. */
  lemma SweptCoherent(p: Position)
    requires Sane(p) && Coherent(p)
    ensures Sane(p.(enPassant := SweptTarget(p))) && Coherent(p.(enPassant := SweptTarget(p)))
  {
    TargetCoherent(p, SweptTarget(p));
  }

  /** `undoMove` after a move `getValidMoves` returned gives back the position
      the move was made in, with a target that is none or that position's own,
      so the position stays one a game can be in. The position undone may
      itself carry a stale target (none, after an earlier undo): the result is
      the same, so any number of undos in a row keep the game coherent. */
  lemma UndoKeepsCoherent(p: Position, m: Move, e: Option<Square>)
    requires Sane(p) && Coherent(p) && p.rights == NoRights && m in ValidMoves(p)
    ensures Applicable(p, m) && !m.isCastle
    ensures var q := MakePos(p, m);
            (e == None || e == q.enPassant) ==>
              var u := LegacyUndoPos(q.(enPassant := e), m);
              u.(enPassant := p.enPassant) == p && (u.enPassant == None || u.enPassant == p.enPassant)
              && Sane(u) && Coherent(u)
  {
    KeptFacts(p, m);
    NoCastleCandidates(p);
    GeneratedFlags(p.grid, p.whiteToMove, p.enPassant);
    var q := MakePos(p, m);
    if e == None || e == q.enPassant {
      var t := UndoneTarget(e, m);
      EnPassantTarget(p, m);
      assert t == None || t == p.enPassant;
      MakeUndoRoundTrip(p, m);
      NoRightsKept(m);
      assert LegacyUndoPos(q.(enPassant := e), m) == p.(enPassant := t);
      TargetCoherent(p, t);
    }
  }

  /** What the sweep needs of the generated list, and that its result is the
      one `ValidMoves` names. */
  lemma SweepReady(p: Position)
    requires Sane(p) && Consistent(p) && p.rights == NoRights
    ensures var cs := AllPossibleMoves(p.grid, p.whiteToMove, p.enPassant);
              AllApplicable(p, cs) && Distinct(cs) && ValidMoves(p) == Sweep(cs, |cs|, InCheckAfter(p))
              && forall m :: m in cs ==> !m.isCastle && (m.isEnPassant ==> p.enPassant == Some(m.End()))
  {
    NoCastleCandidates(p);
    CandidatesApplicable(p);
    CandidatesDistinct(p);
    GeneratedFlags(p.grid, p.whiteToMove, p.enPassant);
  }

  /** Where the loop of `getValidMoves` stands on the candidates `cs` of `p`
      before trying `ms[i]`: the moves from `i` on have been swept, those up to
      `i` are the candidates' own, and the target is the one the last tried
      candidate left. */
  ghost predicate Sweeping(p: Position, cs: seq<Move>, ms: seq<Move>, i: int, ep: Option<Square>)
    requires Sane(p)
  {
    -1 <= i < |ms| <= |cs|
    && Distinct(ms) && (forall k :: 0 <= k <= i ==> ms[k] == cs[k])
    && Sweep(ms, i + 1, InCheckAfter(p)) == Sweep(cs, |cs|, InCheckAfter(p))
    && ep == (if i + 1 == |cs| then p.enPassant else TriedTarget(cs[i + 1]))
    && (ep == None || ep == p.enPassant)
  }

  /** One turn of the loop keeps `Sweeping`: `ms[i]` is dropped exactly when it
      leaves its mover in check, and it leaves its own target behind. */
  lemma SweepAdvance(p: Position, cs: seq<Move>, ms: seq<Move>, i: int, ep: Option<Square>)
    requires Sane(p) && Sweeping(p, cs, ms, i, ep) && 0 <= i
    requires AllApplicable(p, cs)
    requires forall m :: m in cs ==> !m.isCastle && (m.isEnPassant ==> p.enPassant == Some(m.End()))
    ensures Applicable(p, ms[i]) && !ms[i].isCastle
    ensures Sweeping(p, cs, if InCheckAfter(p)(ms[i]) then ms[..i] + ms[i + 1..] else ms,
                     i - 1, TriedTarget(ms[i]))
  {
    assert ms[i] == cs[i] && cs[i] in cs;
    SweepStep(ms, i, InCheckAfter(p));
  }

  class Game {
    var board: Grid
    var whitesMove: bool
    var moveHistory: seq<Move>
    var whiteKingLocation: Square
    var blackKingLocation: Square
    var checkmate: bool
    var stalemate: bool
    var enPassantPossible: Option<Square>

    /** The board is 8x8 and every move in the history can be replayed
        backwards; the earlier engine never makes a castle. */
    ghost predicate Valid()
      reads this`board, this`moveHistory
    {
      WellFormed(board) && forall m :: m in moveHistory ==> Shaped(m) && !m.isCastle
    }

    /** The fields a move reads or writes, as a value, with every castle right
        off. */
    ghost function Pos(): Position
      reads this
    {
      Position(board, whitesMove, whiteKingLocation, blackKingLocation,
               enPassantPossible, NoRights)
    }

    /** `Game.__init__` */
    constructor ()
      ensures Valid() && Pos() == LegacyInitial() && Sane(Pos()) && Coherent(Pos())
      ensures moveHistory == [] && !checkmate && !stalemate
    {
      board := StartGrid();
      whitesMove := true;
      moveHistory := [];
      whiteKingLocation := Square(7, 4);
      blackKingLocation := Square(0, 4);
      checkmate := false;
      stalemate := false;
      enPassantPossible := None;
      LegacyInitialCoherent(true);
    }

    /** `makeMove`, in the source's order: lift and drop, log, flip the turn,
        follow the king, promote, take en passant, set the target. */
    method MakeMove(move: Move)
      requires Valid() && Shaped(move) && !move.isCastle
      modifies this
      ensures Valid() && Pos() == MakePos(old(Pos()), move)
      ensures moveHistory == old(moveHistory) + [move]
      ensures checkmate == old(checkmate) && stalemate == old(stalemate)
    {
      Lift(move);
      moveHistory := moveHistory + [move];
      whitesMove := !whitesMove;
      MoveKing(move.pieceMoved, move.End());
      Land(move);
      SetEnPassant(move);
      NoRightsKept(move);
    }

    /** The first two board writes of `makeMove`: the start cell is cleared and
        the piece set down on the end cell. */
    method Lift(move: Move)
      requires WellFormed(board) && Shaped(move)
      modifies this`board
      ensures board == LiftAndDrop(old(board), move)
    {
      board := Put(board, move.startRow, move.startCol, Empty);
      board := Put(board, move.endRow, move.endCol, move.pieceMoved);
    }

    /** The later board writes of `makeMove`: a promoted pawn becomes a queen of
        its colour, and the pawn taken en passant is removed. */
    method Land(move: Move)
      requires WellFormed(board) && Shaped(move) && !move.isCastle
      modifies this`board
      ensures board == RookAcross(TakeEnPassant(Promote(old(board), move), move), move)
    {
      if move.isPromotion {
        board := Put(board, move.endRow, move.endCol, P(move.pieceMoved.color, PromotionChoice));
      }
      if move.isEnPassant {
        board := Put(board, move.startRow, move.endCol, Empty);
      }
    }

    /** The king caches follow a king to the given square. */
    method MoveKing(piece: Piece, to: Square)
      modifies this`whiteKingLocation, this`blackKingLocation
      ensures whiteKingLocation == if piece == P(White, King) then to else old(whiteKingLocation)
      ensures blackKingLocation == if piece == P(Black, King) then to else old(blackKingLocation)
    {
      if piece == P(White, King) {
        whiteKingLocation := to;
      } else if piece == P(Black, King) {
        blackKingLocation := to;
      }
    }

    /** The target is the square a pawn skipped over when it moved two rows,
        and none after any other move. */
    method SetEnPassant(move: Move)
      modifies this`enPassantPossible
      ensures enPassantPossible == EnPassantAfter(move)
    {
      if move.pieceMoved.P? && move.pieceMoved.kind == Pawn
         && (move.startRow - move.endRow == 2 || move.endRow - move.startRow == 2) {
        enPassantPossible := Some(Square((move.startRow + move.endRow) / 2, move.startCol));
      } else {
        enPassantPossible := None;
      }
    }

    /** `undoMove`: nothing without a history; otherwise the last move is
        popped and its board writes, turn flip and king cache reversed; the
        target becomes the end square of an en-passant capture and is cleared
        after a two-row pawn move, and is otherwise left as it is. */
    method UndoMove()
      requires Valid()
      modifies this
      ensures Valid() && checkmate == old(checkmate) && stalemate == old(stalemate)
      ensures old(moveHistory) == [] ==> Pos() == old(Pos()) && moveHistory == []
      ensures old(moveHistory) != [] ==>
                var n := |old(moveHistory)|;
                moveHistory == old(moveHistory)[..n - 1]
                && Pos() == LegacyUndoPos(old(Pos()), old(moveHistory)[n - 1])
    {
      if |moveHistory| != 0 {
        var move := PopHistory();
        Unlift(move);
        whitesMove := !whitesMove;
        MoveKing(move.pieceMoved, move.Start());
        Untake(move);
        if move.pieceMoved.P? && move.pieceMoved.kind == Pawn
           && (move.startRow - move.endRow == 2 || move.endRow - move.startRow == 2) {
          enPassantPossible := None;
        }
      }
    }

    /** `moveHistory.pop()` */
    method PopHistory() returns (move: Move)
      requires Valid() && moveHistory != []
      modifies this`moveHistory
      ensures Valid() && Shaped(move) && !move.isCastle
      ensures var n := |old(moveHistory)|;
                move == old(moveHistory)[n - 1] && moveHistory == old(moveHistory)[..n - 1]
    {
      move := moveHistory[|moveHistory| - 1];
      moveHistory := moveHistory[..|moveHistory| - 1];
      assert move in old(moveHistory);
    }

    /** The first two board writes of `undoMove`: the mover goes back to its
        start cell and the captured piece, or the empty cell, to the end cell. */
    method Unlift(move: Move)
      requires WellFormed(board) && Shaped(move)
      modifies this`board
      ensures board == Restore(old(board), move)
    {
      board := Put(board, move.startRow, move.startCol, move.pieceMoved);
      board := Put(board, move.endRow, move.endCol, move.pieceCaptured);
    }

    /** The en-passant branch of `undoMove`: the end cell is cleared, the taken
        pawn put back beside the start cell, and the target set to the end cell. */
    method Untake(move: Move)
      requires WellFormed(board) && Shaped(move) && !move.isCastle
      modifies this`board, this`enPassantPossible
      ensures board == RookBack(PutBackEnPassant(old(board), move), move)
      ensures enPassantPossible == if move.isEnPassant then Some(move.End()) else old(enPassantPossible)
    {
      if move.isEnPassant {
        board := Put(board, move.endRow, move.endCol, Empty);
        board := Put(board, move.startRow, move.endCol, move.pieceCaptured);
        enPassantPossible := Some(move.End());
      }
    }

    /** `squareUnderAttack`: the opponent's pseudo-legal moves, generated with
        the turn flipped and flipped back, are scanned for one ending on the
        square. */
    method SquareUnderAttack(row: int, column: int) returns (attacked: bool)
      requires WellFormed(board) && PawnsSafe(board)
      modifies this`whitesMove
      ensures whitesMove == old(whitesMove) && Pos() == old(Pos())
      ensures attacked == Attacked(board, !whitesMove, enPassantPossible, row, column)
    {
      whitesMove := !whitesMove;
      var oppMoves := GetAllPossibleMoves(board, whitesMove, enPassantPossible);
      whitesMove := !whitesMove;
      attacked := EndsOnSquare(oppMoves, row, column);
      AttackedIff(board, !whitesMove, enPassantPossible, row, column);
    }

    /** `inCheck`: the cached square of the king of the side to move is attacked. */
    method InCheck() returns (check: bool)
      requires Sane(Pos())
      modifies this`whitesMove
      ensures whitesMove == old(whitesMove)
      ensures check == Legality.InCheck(Pos())
    {
      if whitesMove {
        check := SquareUnderAttack(whiteKingLocation.row, whiteKingLocation.col);
      } else {
        check := SquareUnderAttack(blackKingLocation.row, blackKingLocation.col);
      }
    }

    /** The body of the loop of `getValidMoves` for one candidate: make it, flip
        the turn back to its mover, ask `inCheck`, flip again and undo it. All
        comes back but the en-passant target. */
    method LeavesKingInCheck(move: Move) returns (illegal: bool)
      requires Valid() && Sane(Pos()) && Applicable(Pos(), move) && !move.isCastle
      modifies this
      ensures Valid() && moveHistory == old(moveHistory)
      ensures checkmate == old(checkmate) && stalemate == old(stalemate)
      ensures Pos() == old(Pos()).(enPassant := TriedTarget(move))
      ensures illegal == IllegalAfter(old(Pos()), move)
    {
      ghost var p := Pos();
      MakeMove(move);
      MakePreservesSane(p, move);
      illegal := MoverInCheck();
      UndoMove();
      LegacyRoundTrip(p, move);
    }

    /** `inCheck()` between two turn flips: the king of the side that has just
        moved stands on a square the side to move attacks. */
    method MoverInCheck() returns (check: bool)
      requires Sane(Pos())
      modifies this`whitesMove
      ensures whitesMove == old(whitesMove)
      ensures check == Attacked(board, whitesMove, enPassantPossible,
                                KingOf(Pos(), !whitesMove).row, KingOf(Pos(), !whitesMove).col)
    {
      whitesMove := !whitesMove;
      SaneEitherTurn(old(Pos()));
      assert Pos() == old(Pos()).(whiteToMove := !old(whitesMove));
      check := InCheck();
      whitesMove := !whitesMove;
    }

    /** The loop of `getValidMoves`: `for i in range(len(moves) - 1, -1, -1)`.
        Each make-and-undo pair leaves its own target behind, so at the end the
        target is the one the pair on the first candidate left. */
    method RemoveIllegal(candidates: seq<Move>) returns (moves: seq<Move>)
      requires Valid() && Sane(Pos()) && AllApplicable(Pos(), candidates) && Distinct(candidates)
      requires forall m :: m in candidates ==>
                 !m.isCastle && (m.isEnPassant ==> enPassantPossible == Some(m.End()))
      modifies this
      ensures Valid() && moveHistory == old(moveHistory)
      ensures checkmate == old(checkmate) && stalemate == old(stalemate)
      ensures Pos() == old(Pos()).(enPassant := enPassantPossible)
      ensures enPassantPossible == if candidates == [] then old(enPassantPossible) else TriedTarget(candidates[0])
      ensures moves == Sweep(candidates, |candidates|, InCheckAfter(old(Pos())))
    {
      ghost var p := Pos();
      moves := candidates;
      var i := |moves| - 1;
      while i >= 0
        invariant Valid() && moveHistory == old(moveHistory)
        invariant checkmate == old(checkmate) && stalemate == old(stalemate)
        invariant Pos() == p.(enPassant := enPassantPossible)
        invariant Sweeping(p, candidates, moves, i, enPassantPossible)
      {
        moves := TryCandidate(candidates, moves, i, p);
        i := i - 1;
      }
    }

    /** One turn of that loop, on `moves[i]`: the candidate is made and undone,
        and removed with `moves.remove` when it left its mover in check. */
    method TryCandidate(ghost cs: seq<Move>, moves: seq<Move>, i: int, ghost p: Position)
      returns (rest: seq<Move>)
      requires Valid() && Sane(p) && Pos() == p.(enPassant := enPassantPossible)
      requires AllApplicable(p, cs)
      requires forall m :: m in cs ==> !m.isCastle && (m.isEnPassant ==> p.enPassant == Some(m.End()))
      requires Sweeping(p, cs, moves, i, enPassantPossible) && 0 <= i
      modifies this
      ensures Valid() && moveHistory == old(moveHistory)
      ensures checkmate == old(checkmate) && stalemate == old(stalemate)
      ensures Pos() == p.(enPassant := TriedTarget(moves[i]))
      ensures rest == if InCheckAfter(p)(moves[i]) then moves[..i] + moves[i + 1..] else moves
      ensures Sweeping(p, cs, rest, i - 1, enPassantPossible)
    {
      SweepAdvance(p, cs, moves, i, enPassantPossible);
      var move := moves[i];
      TargetSane(p, enPassantPossible);
      TargetFree(p, enPassantPossible, move);
      var illegal := LeavesKingInCheck(move);
      rest := moves;
      if illegal {
        RemoveAtIndex(moves, i);
        rest := RemoveFirst(moves, move);
      }
    }

    /** The end of `getValidMoves`: with no move left it is checkmate when the
        king is in check and stalemate otherwise (the other flag is left as it
        was); with moves left both flags are cleared. */
    method SetGameOver(noMoves: bool)
      requires Valid() && Sane(Pos())
      modifies this
      ensures Valid() && Pos() == old(Pos()) && moveHistory == old(moveHistory)
      ensures noMoves && Legality.InCheck(Pos()) ==> checkmate && stalemate == old(stalemate)
      ensures noMoves && !Legality.InCheck(Pos()) ==> stalemate && checkmate == old(checkmate)
      ensures !noMoves ==> !checkmate && !stalemate
    {
      if noMoves {
        var check := InCheck();
        if check {
          checkmate := true;
        } else {
          stalemate := true;
        }
      } else {
        checkmate := false;
        stalemate := false;
      }
    }

    /** `getValidMoves`: the pseudo-legal moves are swept from the back, each one
        that leaves its mover's king attacked removed, then the end-of-game flags
        are set. The saved `tempEnPassantPossible` is never written back, so the
        target left is the one of `SweptTarget`. */
    method GetValidMoves() returns (moves: seq<Move>)
      requires Valid() && Sane(Pos()) && Consistent(Pos())
      modifies this
      ensures Valid() && moveHistory == old(moveHistory)
      ensures Pos() == old(Pos()).(enPassant := SweptTarget(old(Pos())))
      ensures moves == ValidMoves(old(Pos()))
      ensures moves == [] && Legality.InCheck(old(Pos())) ==> checkmate && stalemate == old(stalemate)
      ensures moves == [] && !Legality.InCheck(old(Pos())) ==> stalemate && checkmate == old(checkmate)
      ensures moves != [] ==> !checkmate && !stalemate
    {
      var tempEnPassantPossible := enPassantPossible;
      ghost var p := Pos();
      moves := SweepAll();
      TargetSane(p, enPassantPossible);
      CheckIgnoresTarget(p, enPassantPossible);
      SetGameOver(|moves| == 0);
    }

    /** The list `getValidMoves` builds: `getAllPossibleMoves()` after the
        backward sweep. */
    method SweepAll() returns (moves: seq<Move>)
      requires Valid() && Sane(Pos()) && Consistent(Pos())
      modifies this
      ensures Valid() && moveHistory == old(moveHistory)
      ensures checkmate == old(checkmate) && stalemate == old(stalemate)
      ensures Pos() == old(Pos()).(enPassant := SweptTarget(old(Pos())))
      ensures moves == ValidMoves(old(Pos()))
    {
      ghost var p := Pos();
      var candidates := GetAllPossibleMoves(board, whitesMove, enPassantPossible);
      SweepReady(p);
      moves := RemoveIllegal(candidates);
    }
  }
}
