/** A game played with the moves `getValidMoves` returns stays in the shape the
    engine's preconditions ask for: the starting position is sane, consistent
    and nobody stands in check, and each returned move leads to a position with
    the same properties. So `getValidMoves` can be called on a new `Game` and
    again after every `makeMove` of a move it returned. */
module Coherence {
  import opened Pieces
  import opened Moves
  import opened Generation
  import opened Positions
  import opened Legality
  import opened Distinctness
  import opened Rules

  /** The cell a castle takes its rook from, and the cell it puts it on. */
  function RookCorner(m: Move): Square {
    if m.endCol - m.startCol == 2 then Square(m.endRow, m.endCol + 1) else Square(m.endRow, m.endCol - 2)
  }

  function RookLanding(m: Move): Square {
    if m.endCol - m.startCol == 2 then Square(m.endRow, m.endCol - 1) else Square(m.endRow, m.endCol + 1)
  }

  predicate IsKing(x: Piece) {
    x.P? && x.kind == King
  }

  /** A rook or bishop direction whose first cell is off the board or holds a
      piece of the mover: the ray is empty. */
  predicate Blocked(g: Grid, w: bool, r: int, c: int, d: (int, int))
    requires WellFormed(g)
  {
    !OnBoard(r + d.0, c + d.1) || IsColor(At(g, r + d.0, c + d.1), Mover(w))
  }

  lemma {:induction false} SlideBlocked(g: Grid, w: bool, r: int, c: int, dirs: seq<(int, int)>)
    requires WellFormed(g) && OnBoard(r, c)
    requires forall k :: 0 <= k < |dirs| ==> Blocked(g, w, r, c, dirs[k])
    ensures Slide(g, w, r, c, dirs) == []
    decreases |dirs|
  {
    if dirs != [] {
      assert Blocked(g, w, r, c, dirs[0]);
      SlideBlocked(g, w, r, c, dirs[1..]);
    }
  }

  /** On the starting board every direction from the mover's back rank is
      blocked: backwards by the edge, sideways by the edge or a piece of the
      mover, forwards by the edge or a pawn of the mover. */
  lemma BackRankBlocked(w: bool, c: int, dirs: seq<(int, int)>)
    requires 0 <= c < 8 && forall k :: 0 <= k < |dirs| ==> Unit(dirs[k])
    ensures forall k :: 0 <= k < |dirs| ==> Blocked(StartGrid(), w, LastRow(!w), c, dirs[k])
  {
  }

  /** No piece of the mover on the starting board reaches the opponent's king
      square (row `LastRow(w)`, column 4): pawns reach the two rows ahead of
      them, knights and the king the two rows ahead of the back rank, and the
      rooks, bishops and queen cannot move at all. */
  lemma StartCellQuiet(w: bool, sr: int, sc: int)
    requires OnBoard(sr, sc)
    ensures PawnsSafe(StartGrid()) && !EndsOn(SquareMoves(StartGrid(), w, None, sr, sc), LastRow(w), 4)
  {
    assert Sane(Initial());
    if sr == PawnStartRow(w) {
      PawnQuiet(w, sc);
    } else if sr == LastRow(!w) {
      BackRankQuiet(w, sc);
    } else {
      assert !IsColor(At(StartGrid(), sr, sc), Mover(w));
    }
  }

  lemma PawnQuiet(w: bool, sc: int)
    requires 0 <= sc < 8 && PawnsSafe(StartGrid())
    ensures !EndsOn(SquareMoves(StartGrid(), w, None, PawnStartRow(w), sc), LastRow(w), 4)
  {
    var g, r := StartGrid(), PawnStartRow(w);
    var push, left, right := PawnPush(g, w, r, sc), PawnCapture(g, w, None, r, sc, sc - 1),
                             PawnCapture(g, w, None, r, sc, sc + 1);
    assert At(g, r, sc) == P(Mover(w), Pawn);
    assert SquareMoves(g, w, None, r, sc) == (push + left) + right;
    PawnPushReach(g, w, r, sc, LastRow(w), 4);
    PawnCaptureReach(g, w, None, r, sc, sc - 1, LastRow(w), 4);
    PawnCaptureReach(g, w, None, r, sc, sc + 1, LastRow(w), 4);
    EndsOnAppend(push + left, right, LastRow(w), 4);
    EndsOnAppend(push, left, LastRow(w), 4);
  }

  lemma BackRankQuiet(w: bool, sc: int)
    requires 0 <= sc < 8 && PawnsSafe(StartGrid())
    ensures !EndsOn(SquareMoves(StartGrid(), w, None, LastRow(!w), sc), LastRow(w), 4)
  {
    BackRankSlides(w, sc);
    QuietPiece(StartGrid(), w, sc, BackRank(sc));
  }

  /** A piece of the mover other than a pawn on its back rank whose rook and
      bishop rays are all blocked does not reach the opponent's king square. */
  lemma QuietPiece(g: Grid, w: bool, sc: int, kind: Kind)
    requires WellFormed(g) && PawnsSafe(g) && 0 <= sc < 8
    requires At(g, LastRow(!w), sc) == P(Mover(w), kind) && kind != Pawn
    requires Slide(g, w, LastRow(!w), sc, RookDirections) == []
    requires Slide(g, w, LastRow(!w), sc, BishopDirections) == []
    ensures !EndsOn(SquareMoves(g, w, None, LastRow(!w), sc), LastRow(w), 4)
  {
    if kind == Knight {
      KnightLeapsShort(g, w, sc);
    } else if kind == King {
      KingLeapsShort(g, w, sc);
    }
  }

  lemma BackRankSlides(w: bool, sc: int)
    requires 0 <= sc < 8
    ensures Slide(StartGrid(), w, LastRow(!w), sc, RookDirections) == []
    ensures Slide(StartGrid(), w, LastRow(!w), sc, BishopDirections) == []
  {
    BackRankBlocked(w, sc, RookDirections);
    BackRankBlocked(w, sc, BishopDirections);
    SlideBlocked(StartGrid(), w, LastRow(!w), sc, RookDirections);
    SlideBlocked(StartGrid(), w, LastRow(!w), sc, BishopDirections);
  }

  /** Knight and king steps cover at most two rows, so from one back rank they
      never reach the other. */
  lemma KnightLeapsShort(g: Grid, w: bool, sc: int)
    requires WellFormed(g) && 0 <= sc < 8
    ensures !EndsOn(Leaps(g, w, LastRow(!w), sc, KnightOffsets), LastRow(w), 4)
  {
    assert forall k :: 0 <= k < |KnightOffsets| ==> -2 <= KnightOffsets[k].0 <= 2;
    assert (LastRow(w) - LastRow(!w), 4 - sc) !in KnightOffsets;
    LeapsReach(g, w, LastRow(!w), sc, KnightOffsets, LastRow(w), 4);
  }

  lemma KingLeapsShort(g: Grid, w: bool, sc: int)
    requires WellFormed(g) && 0 <= sc < 8
    ensures !EndsOn(Leaps(g, w, LastRow(!w), sc, KingOffsets), LastRow(w), 4)
  {
    assert forall k :: 0 <= k < |KingOffsets| ==> -1 <= KingOffsets[k].0 <= 1;
    assert (LastRow(w) - LastRow(!w), 4 - sc) !in KingOffsets;
    LeapsReach(g, w, LastRow(!w), sc, KingOffsets, LastRow(w), 4);
  }

  /** The starting position with either side to move (the front end lets the
      player take Black, and then Black moves first): the opponent's king is
      not attacked, so the position is coherent. */
  lemma InitialCoherent(w: bool)
    ensures Sane(Initial().(whiteToMove := w)) && Coherent(Initial().(whiteToMove := w))
  {
    var p := Initial().(whiteToMove := w);
    assert Sane(Initial()) && Consistent(Initial());
    assert KingOf(p, !w) == Square(LastRow(w), 4);
    if Attacked(p.grid, w, None, LastRow(w), 4) {
      var sr, sc :| 0 <= sr < 8 && 0 <= sc < 8 && Reaches(p.grid, w, None, sr, sc, LastRow(w), 4);
      StartCellQuiet(w, sr, sc);
    }
  }

  /** No candidate lands on the opponent's king: a generated move onto it would
      mean the side that has just moved was left in check, and a castle lands
      on an empty cell. */
  lemma EndSparesKing(p: Position, m: Move)
    requires Sane(p) && Coherent(p) && m in Candidates(p)
    ensures m.End() != KingOf(p, !p.whiteToMove)
  {
    var w, k := p.whiteToMove, KingOf(p, p.whiteToMove);
    var gen, cas := AllPossibleMoves(p.grid, w, p.enPassant), CastleMoves(p, k.row, k.col);
    assert m in gen || m in cas;
    if m in gen {
      GeneratedSparesKing(p.grid, w, p.enPassant, KingOf(p, !w), m);
    } else {
      CastleSparesKing(p, m);
    }
  }

  lemma GeneratedSparesKing(g: Grid, w: bool, ep: Option<Square>, k: Square, m: Move)
    requires WellFormed(g) && PawnsSafe(g) && m in AllPossibleMoves(g, w, ep)
    requires !Attacked(g, w, ep, k.row, k.col)
    ensures m.End() != k
  {
    AttackedIff(g, w, ep, m.endRow, m.endCol);
    assert EndsOn(AllPossibleMoves(g, w, ep), m.endRow, m.endCol);
  }

  lemma CastleSparesKing(p: Position, m: Move)
    requires Sane(p) && Consistent(p)
    requires m in CastleMoves(p, KingOf(p, p.whiteToMove).row, KingOf(p, p.whiteToMove).col)
    ensures m.End() != KingOf(p, !p.whiteToMove)
  {
    var k := KingOf(p, p.whiteToMove);
    CastleGate(p, k.row, k.col);
    assert EndsOn(CastleMoves(p, k.row, k.col), m.endRow, m.endCol);
    assert At(p.grid, m.endRow, m.endCol) == Empty;
  }

  /** A castle among the candidates moves the king two columns from its home
      cell, which it left neither in check nor across an attacked cell. */
  lemma CastleCandidate(p: Position, m: Move)
    requires Sane(p) && Consistent(p) && m in Candidates(p) && m.isCastle
    ensures var k := KingOf(p, p.whiteToMove);
      k.col == 4 && m.Start() == k && m.endRow == k.row && (m.endCol == 6 || m.endCol == 2)
      && EndsOn(CastleMoves(p, k.row, k.col), m.endRow, m.endCol)
  {
    var k := KingOf(p, p.whiteToMove);
    var gen := AllPossibleMoves(p.grid, p.whiteToMove, p.enPassant);
    if m in gen {
      GeneratedFlags(p.grid, p.whiteToMove, p.enPassant);
    }
    CastleShape(p, m);
  }

  lemma CastleShape(p: Position, m: Move)
    requires Sane(p) && m in CastleMoves(p, KingOf(p, p.whiteToMove).row, KingOf(p, p.whiteToMove).col)
    ensures var k := KingOf(p, p.whiteToMove);
      k.col == 4 && m.Start() == k && m.endRow == k.row && (m.endCol == 6 || m.endCol == 2)
      && EndsOn(CastleMoves(p, k.row, k.col), m.endRow, m.endCol)
  {
  }

  /** A king attacks every cell one step away that holds no piece of its own. */
  lemma KingGuards(g: Grid, w: bool, ep: Option<Square>, r: int, c: int, tr: int, tc: int)
    requires WellFormed(g) && PawnsSafe(g) && OnBoard(r, c) && At(g, r, c) == P(Mover(w), King)
    requires tr == r && (tc == c - 1 || tc == c + 1) && OnBoard(tr, tc) && !IsColor(At(g, tr, tc), Mover(w))
    ensures Attacked(g, w, ep, tr, tc)
  {
    assert SquareMoves(g, w, ep, r, c) == Leaps(g, w, r, c, KingOffsets);
    LeapsReach(g, w, r, c, KingOffsets, tr, tc);
    assert Reaches(g, w, ep, r, c, tr, tc);
  }

  /** The king-side corner holds no king: the opponent's king there would
      attack the cell the castling king lands on, and the mover's own king
      is the one castling. */
  lemma KingSideCorner(p: Position, m: Move)
    requires Sane(p) && Coherent(p) && m in Candidates(p) && m.isCastle && m.endCol == 6
    ensures m.endRow == KingOf(p, p.whiteToMove).row && !IsKing(At(p.grid, m.endRow, 7))
  {
    var w, k := p.whiteToMove, KingOf(p, p.whiteToMove);
    CastleCandidate(p, m);
    CastleGate(p, k.row, 4);
    assert !UnderAttack(p, k.row, 6) && At(p.grid, k.row, 6) == Empty;
    CornerNotKing(p, k.row, 7, 6);
  }

  /** A cell other than the king's cache holds no king of the mover, and a
      cell next to an empty, unattacked cell holds no king of the opponent. */
  lemma CornerNotKing(p: Position, r: int, c: int, near: int)
    requires Sane(p) && Consistent(p) && OnBoard(r, c) && OnBoard(r, near) && (near == c - 1 || near == c + 1)
    requires Square(r, c) != KingOf(p, p.whiteToMove)
    requires At(p.grid, r, near) == Empty && !UnderAttack(p, r, near)
    ensures !IsKing(At(p.grid, r, c))
  {
    var w, x := p.whiteToMove, At(p.grid, r, c);
    if IsKing(x) {
      if x.color == Mover(w) {
        OnlyKing(p, w, r, c);
      } else {
        assert x == P(Mover(!w), King);
        KingGuards(p.grid, !w, p.enPassant, r, c, r, near);
      }
    }
  }

  /** In a consistent position the king of a side stands only on its cache. */
  lemma OnlyKing(p: Position, white: bool, r: int, c: int)
    requires Sane(p) && Consistent(p) && OnBoard(r, c) && At(p.grid, r, c) == P(Mover(white), King)
    ensures Square(r, c) == KingOf(p, white)
  {
  }

  /** The queen-side corner holds no king of the opponent in a move that
      `getValidMoves` keeps: the castle would carry that king next to the
      castled king, which would then stand in check. */
  lemma QueenSideCorner(p: Position, m: Move)
    requires Sane(p) && Coherent(p) && m in Candidates(p) && m.isCastle && m.endCol == 2
    requires Applicable(p, m) && !IllegalAfter(p, m)
    ensures m.endRow == KingOf(p, p.whiteToMove).row && !IsKing(At(p.grid, m.endRow, 0))
  {
    var w, k := p.whiteToMove, KingOf(p, p.whiteToMove);
    CastleCandidate(p, m);
    var x := At(p.grid, k.row, 0);
    if IsKing(x) {
      if x.color == Mover(w) {
        OnlyKing(p, w, k.row, 0);
      } else {
        assert x == P(Mover(!w), King);
        CarriedKingChecks(p, m);
      }
    }
  }

  /** A queen-side castle that carries the opponent's king from the corner puts
      it beside the castled king, which then stands in check. */
  lemma CarriedKingChecks(p: Position, m: Move)
    requires Sane(p) && Applicable(p, m) && m.isCastle && m.endCol == m.startCol - 2
    requires m.pieceMoved == P(Mover(p.whiteToMove), King)
    requires At(p.grid, m.endRow, m.endCol - 2) == P(Mover(!p.whiteToMove), King)
    ensures IllegalAfter(p, m)
  {
    var w := p.whiteToMove;
    MakePreservesSane(p, m);
    MakeGridCells(p, m);
    var q := MakePos(p, m);
    assert KingOf(q, w) == m.End();
    KingGuards(q.grid, !w, q.enPassant, m.endRow, m.endCol + 1, m.endRow, m.endCol);
  }

  /** What a move must spare for the king caches to stay right: it does not
      land on the opponent's king, and a castle carries no king from its
      corner. */
  predicate SparesKings(p: Position, m: Move)
    requires Sane(p)
  {
    m.End() != KingOf(p, !p.whiteToMove)
    && (m.isCastle ==>
          OnBoard(RookCorner(m).row, RookCorner(m).col)
          && !IsKing(At(p.grid, RookCorner(m).row, RookCorner(m).col)))
  }

  /** After `makeMove`, a cell holds the king of a side exactly when it is that
      side's cached square. */
  lemma KingCellAfter(p: Position, m: Move, white: bool, r: int, c: int)
    requires Sane(p) && Consistent(p) && Applicable(p, m) && SparesKings(p, m) && OnBoard(r, c)
    ensures var q := MakePos(p, m);
      At(q.grid, r, c) == P(Mover(white), King) <==> Square(r, c) == KingOf(q, white)
  {
    var q := MakePos(p, m);
    var k := KingOf(p, white);
    assert At(p.grid, k.row, k.col) == P(Mover(white), King);
    assert KingOf(q, white) == if m.pieceMoved == P(Mover(white), King) then m.End() else k;
    MakeGridCells(p, m);
    if Square(r, c) == m.Start() {
    } else if Square(r, c) == m.End() {
    } else if m.isEnPassant && Square(r, c) == Square(m.startRow, m.endCol) {
    } else if m.isCastle && (Square(r, c) == RookCorner(m) || Square(r, c) == RookLanding(m)) {
    } else {
      MakeGridFrame(p.grid, m, r, c);
      if At(p.grid, r, c) == P(Mover(white), King) {
        OnlyKing(p, white, r, c);
      }
    }
  }

  /** `makeMove` keeps a position consistent when the move spares both kings:
      the caches follow the kings, no king is added or lost, and a new
      en-passant target lies on the side of the player who may now take it. */
  lemma ConsistentAfter(p: Position, m: Move)
    requires Sane(p) && Consistent(p) && Applicable(p, m) && SparesKings(p, m)
    ensures Sane(MakePos(p, m)) && Consistent(MakePos(p, m))
  {
    var q := MakePos(p, m);
    MakePreservesSane(p, m);
    forall r, c | OnBoard(r, c)
      ensures At(q.grid, r, c) == P(White, King) <==> Square(r, c) == q.whiteKing
      ensures At(q.grid, r, c) == P(Black, King) <==> Square(r, c) == q.blackKing
    {
      KingCellAfter(p, m, true, r, c);
      KingCellAfter(p, m, false, r, c);
    }
    assert At(q.grid, q.whiteKing.row, q.whiteKing.col) == P(White, King);
    assert At(q.grid, q.blackKing.row, q.blackKing.col) == P(Black, King);
  }

  /** A move `getValidMoves` returns leads from a sane, coherent position to
      another one: the move spares both kings, and the mover's king is not
      left attacked, which is exactly what makes the new position coherent. */
  lemma ValidMoveKeepsCoherent(p: Position, m: Move)
    requires Sane(p) && Coherent(p) && m in ValidMoves(p)
    ensures Applicable(p, m) && Sane(MakePos(p, m)) && Coherent(MakePos(p, m))
  {
    assert Consistent(p);
    KeptFacts(p, m);
    KeptSpares(p, m);
    ConsistentAfter(p, m);
    CoherentAfter(p, m);
  }

  lemma KeptFacts(p: Position, m: Move)
    requires Sane(p) && Consistent(p) && m in ValidMoves(p)
    ensures m in Candidates(p) && Applicable(p, m) && !IllegalAfter(p, m)
  {
    ValidMovesIff(p);
  }

  /** The new position is coherent when it is consistent and the move was not
      rejected: the side that has just moved is the one whose king the sweep
      tested. */
  lemma CoherentAfter(p: Position, m: Move)
    requires Sane(p) && Applicable(p, m) && !IllegalAfter(p, m)
    requires Sane(MakePos(p, m)) && Consistent(MakePos(p, m))
    ensures Coherent(MakePos(p, m))
  {
  }

  /** A candidate the sweep keeps spares both kings. */
  lemma KeptSpares(p: Position, m: Move)
    requires Sane(p) && Coherent(p) && m in Candidates(p) && Applicable(p, m) && !IllegalAfter(p, m)
    ensures SparesKings(p, m)
  {
    EndSparesKing(p, m);
    if m.isCastle {
      CastleCandidate(p, m);
      if m.endCol == 6 {
        KingSideCorner(p, m);
      } else {
        QueenSideCorner(p, m);
      }
    }
  }

  /** The same on the whole game: `makeMove` with a move of `getValidMoves`
      keeps the position one a game can be in. */
  lemma StateKeepsCoherent(s: GameState, m: Move, t: GameState)
    requires Logged(s) && Shaped(m) && Sane(s.pos) && Coherent(s.pos) && m in ValidMoves(s.pos)
    requires t == MakeState(s, m)
    ensures Sane(t.pos) && Coherent(t.pos)
  {
    ValidMoveKeepsCoherent(s.pos, m);
  }
}
