/** What the generators hand to `makeMove`: every candidate of `getValidMoves`
    is a move `makeMove` and `undoMove` treat as intended (`Applicable`). */
module Shapes {
  import opened Pieces
  import opened Moves
  import opened Generation
  import opened Positions
  import opened Legality

  /** A move of a knight, bishop, rook, queen or king from (r, c): built by
      `Move.__init__` without flags, onto another cell of the board that holds
      no piece of the mover's side. */
  predicate PlainFrom(g: Grid, w: bool, r: int, c: int, m: Move)
    requires WellFormed(g) && OnBoard(r, c)
  {
    OnBoard(m.endRow, m.endCol) && m.End() != Square(r, c)
    && m == MoveOn(g, Square(r, c), m.End(), false, false, false)
    && !IsColor(At(g, m.endRow, m.endCol), Mover(w))
  }

  predicate AllPlain(g: Grid, w: bool, r: int, c: int, ms: seq<Move>)
    requires WellFormed(g) && OnBoard(r, c)
  {
    forall m :: m in ms ==> PlainFrom(g, w, r, c, m)
  }

  lemma StepAway(r: int, c: int, dr: int, dc: int, i: int)
    requires (dr, dc) != (0, 0) && i >= 1
    ensures Square(r + dr * i, c + dc * i) != Square(r, c)
  {
    if dr != 0 {
      if dr > 0 { assert dr * i >= i; } else { assert dr * i <= -i; }
    } else {
      if dc > 0 { assert dc * i >= i; } else { assert dc * i <= -i; }
    }
  }

  lemma {:induction false} RayPlain(g: Grid, w: bool, r: int, c: int, dr: int, dc: int, i: int)
    requires WellFormed(g) && OnBoard(r, c) && 1 <= i <= 8 && (dr, dc) != (0, 0)
    ensures forall m :: m in Ray(g, w, r, c, dr, dc, i) ==> PlainFrom(g, w, r, c, m)
    decreases 8 - i
  {
    if i < 8 {
      StepAway(r, c, dr, dc, i);
      RayPlain(g, w, r, c, dr, dc, i + 1);
    }
  }

  lemma {:induction false} SlidePlain(g: Grid, w: bool, r: int, c: int, dirs: seq<(int, int)>)
    requires WellFormed(g) && OnBoard(r, c) && Directions(dirs)
    ensures AllPlain(g, w, r, c, Slide(g, w, r, c, dirs))
    decreases |dirs|
  {
    if dirs != [] {
      RayPlain(g, w, r, c, dirs[0].0, dirs[0].1, 1);
      SlidePlain(g, w, r, c, dirs[1..]);
    }
  }

  lemma {:induction false} LeapsPlain(g: Grid, w: bool, r: int, c: int, offs: seq<(int, int)>)
    requires WellFormed(g) && OnBoard(r, c)
    requires forall k :: 0 <= k < |offs| ==> offs[k] != (0, 0)
    ensures AllPlain(g, w, r, c, Leaps(g, w, r, c, offs))
    decreases |offs|
  {
    if offs != [] {
      StepAway(r, c, offs[0].0, offs[0].1, 1);
      LeapsPlain(g, w, r, c, offs[1..]);
    }
  }

  /** A plain move of a non-pawn piece of the side to move is applicable. */
  lemma PlainApplicable(p: Position, r: int, c: int, m: Move)
    requires Sane(p) && Consistent(p) && OnBoard(r, c)
    requires IsColor(At(p.grid, r, c), Mover(p.whiteToMove)) && At(p.grid, r, c).kind != Pawn
    requires PlainFrom(p.grid, p.whiteToMove, r, c, m)
    ensures Applicable(p, m)
  {
    assert m.pieceMoved == At(p.grid, r, c);
  }

  lemma PieceApplicable(p: Position, r: int, c: int)
    requires Sane(p) && Consistent(p) && OnBoard(r, c)
    requires IsColor(At(p.grid, r, c), Mover(p.whiteToMove)) && At(p.grid, r, c).kind != Pawn
    ensures AllApplicable(p, SquareMoves(p.grid, p.whiteToMove, p.enPassant, r, c))
  {
    var g, w := p.grid, p.whiteToMove;
    PiecePlain(g, w, p.enPassant, r, c);
    forall m | m in SquareMoves(g, w, p.enPassant, r, c)
      ensures Applicable(p, m)
    {
      PlainApplicable(p, r, c, m);
    }
  }

  /** The knight, bishop, rook, queen and king generators produce plain moves. */
  lemma PiecePlain(g: Grid, w: bool, ep: Option<Square>, r: int, c: int)
    requires WellFormed(g) && PawnsSafe(g) && OnBoard(r, c)
    requires IsColor(At(g, r, c), Mover(w)) && At(g, r, c).kind != Pawn
    ensures AllPlain(g, w, r, c, SquareMoves(g, w, ep, r, c))
  {
    match At(g, r, c).kind
    case Rook => RookDirectionsDistinct(); SlidePlain(g, w, r, c, RookDirections);
    case Bishop => BishopDirectionsDistinct(); SlidePlain(g, w, r, c, BishopDirections);
    case Queen =>
      RookDirectionsDistinct();
      BishopDirectionsDistinct();
      SlidePlain(g, w, r, c, RookDirections);
      SlidePlain(g, w, r, c, BishopDirections);
    case Knight => OffsetsIncreasing(); LeapsPlain(g, w, r, c, KnightOffsets);
    case King => OffsetsIncreasing(); LeapsPlain(g, w, r, c, KingOffsets);
  }

  /** The pushes of a pawn of the side to move are applicable; a two-row push
      starts from the pawn's starting row through an empty cell. */
  lemma PushApplicable(p: Position, r: int, c: int)
    requires Sane(p) && Consistent(p) && OnBoard(r, c)
    requires At(p.grid, r, c) == P(Mover(p.whiteToMove), Pawn)
    requires 0 <= r + Forward(p.whiteToMove) < 8
    ensures AllApplicable(p, PawnPush(p.grid, p.whiteToMove, r, c))
  {
  }

  /** The captures of a pawn of the side to move are applicable; an en-passant
      capture lands on the empty target beside the enemy pawn that has just
      made a two-row push. */
  lemma CaptureApplicable(p: Position, r: int, c: int, tc: int)
    requires Sane(p) && Consistent(p) && OnBoard(r, c)
    requires At(p.grid, r, c) == P(Mover(p.whiteToMove), Pawn)
    requires 0 <= r + Forward(p.whiteToMove) < 8
    ensures AllApplicable(p, PawnCapture(p.grid, p.whiteToMove, p.enPassant, r, c, tc))
  {
  }

  lemma PawnApplicable(p: Position, r: int, c: int)
    requires Sane(p) && Consistent(p) && OnBoard(r, c)
    requires At(p.grid, r, c) == P(Mover(p.whiteToMove), Pawn)
    ensures 0 <= r + Forward(p.whiteToMove) < 8
    ensures AllApplicable(p, PawnMoves(p.grid, p.whiteToMove, p.enPassant, r, c))
  {
    assert p.whiteToMove ==> r != 0;
    assert !p.whiteToMove ==> r != 7;
    PushApplicable(p, r, c);
    CaptureApplicable(p, r, c, c - 1);
    CaptureApplicable(p, r, c, c + 1);
  }

  /** An en-passant target elsewhere does not change whether a diagonal of a
      pawn reaches (r, c). */
  lemma CaptureIgnoresTarget(g: Grid, w: bool, e: Option<Square>, sr: int, sc: int, tc: int, r: int, c: int)
    requires WellFormed(g) && OnBoard(sr, sc) && 0 <= sr + Forward(w) < 8
    requires e != Some(Square(r, c))
    ensures EndsOn(PawnCapture(g, w, e, sr, sc, tc), r, c) == EndsOn(PawnCapture(g, w, None, sr, sc, tc), r, c)
  {
    EndsOnSingle(PawnCapture(g, w, e, sr, sc, tc), r, c);
    EndsOnSingle(PawnCapture(g, w, None, sr, sc, tc), r, c);
  }

  /** Only a pawn's en-passant capture reads the target, and it ends on the
      target; so a target other than (r, c) does not change which pieces reach
      (r, c). */
  lemma ReachesIgnoresTarget(g: Grid, w: bool, e: Option<Square>, sr: int, sc: int, r: int, c: int)
    requires WellFormed(g) && PawnsSafe(g) && OnBoard(sr, sc) && e != Some(Square(r, c))
    ensures Reaches(g, w, e, sr, sc, r, c) == Reaches(g, w, None, sr, sc, r, c)
  {
    var x := At(g, sr, sc);
    if x.P? && x.color == Mover(w) && x.kind == Pawn {
      assert w ==> sr != 0;
      assert !w ==> sr != 7;
      CaptureIgnoresTarget(g, w, e, sr, sc, sc - 1, r, c);
      CaptureIgnoresTarget(g, w, e, sr, sc, sc + 1, r, c);
      var push := PawnPush(g, w, sr, sc);
      EndsOnAppend(push + PawnCapture(g, w, e, sr, sc, sc - 1), PawnCapture(g, w, e, sr, sc, sc + 1), r, c);
      EndsOnAppend(push, PawnCapture(g, w, e, sr, sc, sc - 1), r, c);
      EndsOnAppend(push + PawnCapture(g, w, None, sr, sc, sc - 1), PawnCapture(g, w, None, sr, sc, sc + 1), r, c);
      EndsOnAppend(push, PawnCapture(g, w, None, sr, sc, sc - 1), r, c);
    }
  }

  /** Whether (r, c) is attacked does not depend on an en-passant target that
      lies elsewhere. */
  lemma AttackedIgnoresTarget(g: Grid, w: bool, e: Option<Square>, r: int, c: int)
    requires WellFormed(g) && PawnsSafe(g) && e != Some(Square(r, c))
    ensures Attacked(g, w, e, r, c) == Attacked(g, w, None, r, c)
  {
    forall sr, sc | 0 <= sr < 8 && 0 <= sc < 8
      ensures Reaches(g, w, e, sr, sc, r, c) == Reaches(g, w, None, sr, sc, r, c)
    {
      ReachesIgnoresTarget(g, w, e, sr, sc, r, c);
    }
  }

  /** No generated move is a castle, and an en-passant capture lands on the
      target square. */
  lemma SquareFlags(g: Grid, w: bool, ep: Option<Square>, r: int, c: int)
    requires WellFormed(g) && PawnsSafe(g) && OnBoard(r, c)
    ensures forall m :: m in SquareMoves(g, w, ep, r, c) ==>
              !m.isCastle && (m.isEnPassant ==> ep == Some(m.End()))
  {
    var x := At(g, r, c);
    if x.P? && x.color == Mover(w) {
      if x.kind == Pawn {
        assert w ==> r != 0;
        assert !w ==> r != 7;
        PawnFlags(g, w, ep, r, c);
      } else {
        PiecePlain(g, w, ep, r, c);
      }
    }
  }

  lemma PawnFlags(g: Grid, w: bool, ep: Option<Square>, r: int, c: int)
    requires WellFormed(g) && OnBoard(r, c) && 0 <= r + Forward(w) < 8
    ensures forall m :: m in PawnMoves(g, w, ep, r, c) ==>
              !m.isCastle && (m.isEnPassant ==> ep == Some(m.End()))
  {
    PushFlags(g, w, r, c);
    CaptureFlags(g, w, ep, r, c, c - 1);
    CaptureFlags(g, w, ep, r, c, c + 1);
  }

  lemma PushFlags(g: Grid, w: bool, r: int, c: int)
    requires WellFormed(g) && OnBoard(r, c) && 0 <= r + Forward(w) < 8
    ensures forall m :: m in PawnPush(g, w, r, c) ==> !m.isCastle && !m.isEnPassant
  {
  }

  lemma CaptureFlags(g: Grid, w: bool, ep: Option<Square>, r: int, c: int, tc: int)
    requires WellFormed(g) && OnBoard(r, c) && 0 <= r + Forward(w) < 8
    ensures forall m :: m in PawnCapture(g, w, ep, r, c, tc) ==>
              !m.isCastle && (m.isEnPassant ==> ep == Some(m.End()))
  {
  }

  /** Every move `getAllPossibleMoves` generates for the piece on (r, c). */
  lemma SquareApplicable(p: Position, r: int, c: int)
    requires Sane(p) && Consistent(p) && OnBoard(r, c)
    ensures AllApplicable(p, SquareMoves(p.grid, p.whiteToMove, p.enPassant, r, c))
  {
    var x := At(p.grid, r, c);
    if x.P? && x.color == Mover(p.whiteToMove) {
      if x.kind == Pawn {
        PawnApplicable(p, r, c);
      } else {
        PieceApplicable(p, r, c);
      }
    }
  }

  lemma {:induction false} RowApplicable(p: Position, r: int, c: int)
    requires Sane(p) && Consistent(p) && 0 <= r < 8 && 0 <= c <= 8
    ensures AllApplicable(p, RowMoves(p.grid, p.whiteToMove, p.enPassant, r, c))
    decreases 8 - c
  {
    if c < 8 {
      SquareApplicable(p, r, c);
      RowApplicable(p, r, c + 1);
    }
  }

  lemma {:induction false} BoardApplicable(p: Position, r: int)
    requires Sane(p) && Consistent(p) && 0 <= r <= 8
    ensures AllApplicable(p, BoardMoves(p.grid, p.whiteToMove, p.enPassant, r))
    decreases 8 - r
  {
    if r < 8 {
      RowApplicable(p, r, 0);
      BoardApplicable(p, r + 1);
    }
  }

  /** The castles of the side to move are applicable: the king leaves its
      cached square on column 4 for two columns along its row, past an empty
      cell, onto an empty one. */
  lemma CastleApplicable(p: Position)
    requires Sane(p) && Consistent(p)
    ensures AllApplicable(p, CastleMoves(p, KingOf(p, p.whiteToMove).row, KingOf(p, p.whiteToMove).col))
  {
    var k := KingOf(p, p.whiteToMove);
    var r, c := k.row, k.col;
    if !UnderAttack(p, r, c) {
      var ks := if KingSideRight(p) then KingSideCastle(p, r, c) else [];
      var qs := if QueenSideRight(p) then QueenSideCastle(p, r, c) else [];
      assert CastleMoves(p, r, c) == ks + qs;
      if KingSideRight(p) {
        KingSideApplicable(p, r, c);
      }
      if QueenSideRight(p) {
        QueenSideApplicable(p, r, c);
      }
    }
  }

  lemma KingSideApplicable(p: Position, r: int, c: int)
    requires Sane(p) && Consistent(p) && Square(r, c) == KingOf(p, p.whiteToMove) && c == 4
    ensures AllApplicable(p, KingSideCastle(p, r, c))
  {
    if KingSideCastle(p, r, c) != [] {
      assert At(p.grid, r, c + 1) == Empty && At(p.grid, r, c + 2) == Empty;
    }
  }

  lemma QueenSideApplicable(p: Position, r: int, c: int)
    requires Sane(p) && Consistent(p) && Square(r, c) == KingOf(p, p.whiteToMove) && c == 4
    ensures AllApplicable(p, QueenSideCastle(p, r, c))
  {
    if QueenSideCastle(p, r, c) != [] {
      assert At(p.grid, r, c - 1) == Empty && At(p.grid, r, c - 2) == Empty;
    }
  }

  /** Every candidate is a move `makeMove` and `undoMove` handle as intended. */
  lemma CandidatesApplicable(p: Position)
    requires Sane(p) && Consistent(p)
    ensures AllApplicable(p, Candidates(p))
  {
    BoardApplicable(p, 0);
    CastleApplicable(p);
  }
}
