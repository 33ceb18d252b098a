/** No two candidates of `getValidMoves` are equal under `Move.__eq__`, so the
    backward sweep with `moves.remove` is a plain filter of the candidates. */
module Distinctness {
  import opened Pieces
  import opened Moves
  import opened Generation
  import opened Positions
  import opened Legality
  import opened Shapes

  /** Two moves that differ in their start or their end square. */
  predicate Apart(a: Move, b: Move) {
    a.Start() != b.Start() || a.End() != b.End()
  }

  predicate Separate(ms: seq<Move>) {
    forall i, j :: 0 <= i < j < |ms| ==> Apart(ms[i], ms[j])
  }

  lemma SeparateAppend(a: seq<Move>, b: seq<Move>)
    requires Separate(a) && Separate(b)
    requires forall x, y :: x in a && y in b ==> Apart(x, y)
    ensures Separate(a + b)
  {
    var ab := a + b;
    forall i, j | 0 <= i < j < |ab|
      ensures Apart(ab[i], ab[j])
    {
      if j < |a| {
        assert ab[i] == a[i] && ab[j] == a[j];
      } else if i >= |a| {
        assert ab[i] == b[i - |a|] && ab[j] == b[j - |a|];
      } else {
        assert ab[i] == a[i] && ab[j] == b[j - |a|];
      }
    }
  }

  function Sign(x: int): int {
    if x > 0 then 1 else if x < 0 then -1 else 0
  }

  function Abs(x: int): nat {
    if x < 0 then -x else x
  }

  /** How many king steps the move covers. */
  function Reach(r: int, c: int, m: Move): nat {
    if Abs(m.endRow - r) < Abs(m.endCol - c) then Abs(m.endCol - c) else Abs(m.endRow - r)
  }

  /** `i` steps along a direction: the direction is the sign of the offset, and
      the number of steps its length. */
  lemma UnitSteps(dr: int, dc: int, i: int)
    requires Unit((dr, dc)) && i >= 1
    ensures Sign(dr * i) == dr && Sign(dc * i) == dc
    ensures (if Abs(dr * i) < Abs(dc * i) then Abs(dc * i) else Abs(dr * i)) == i
  {
    assert dr * i == if dr == 1 then i else if dr == -1 then -i else 0;
    assert dc * i == if dc == 1 then i else if dc == -1 then -i else 0;
  }

  /** The moves of one ray leave (r, c) in its direction, each one step further
      than the one before. */
  lemma {:induction false} RayApart(g: Grid, w: bool, r: int, c: int, dr: int, dc: int, i: int)
    requires WellFormed(g) && OnBoard(r, c) && 1 <= i <= 8 && Unit((dr, dc))
    ensures forall m :: m in Ray(g, w, r, c, dr, dc, i) ==>
              m.Start() == Square(r, c) && Sign(m.endRow - r) == dr && Sign(m.endCol - c) == dc
              && Reach(r, c, m) >= i
    ensures Separate(Ray(g, w, r, c, dr, dc, i))
    decreases 8 - i
  {
    if i < 8 {
      UnitSteps(dr, dc, i);
      RayApart(g, w, r, c, dr, dc, i + 1);
      var ms := Ray(g, w, r, c, dr, dc, i);
      if |ms| > 1 {
        var rest := Ray(g, w, r, c, dr, dc, i + 1);
        assert ms == [ms[0]] + rest;
        assert Reach(r, c, ms[0]) == i;
        SeparateAppend([ms[0]], rest);
      }
    }
  }

  /** The moves of a slider leave (r, c) in one of the given directions; rays
      in different directions share no end square. */
  lemma {:induction false} SlideApart(g: Grid, w: bool, r: int, c: int, dirs: seq<(int, int)>)
    requires WellFormed(g) && OnBoard(r, c)
    requires Directions(dirs)
    ensures forall m :: m in Slide(g, w, r, c, dirs) ==>
              m.Start() == Square(r, c) && (Sign(m.endRow - r), Sign(m.endCol - c)) in dirs
    ensures Separate(Slide(g, w, r, c, dirs))
    decreases |dirs|
  {
    if dirs != [] {
      var ray := Ray(g, w, r, c, dirs[0].0, dirs[0].1, 1);
      var rest := Slide(g, w, r, c, dirs[1..]);
      RayApart(g, w, r, c, dirs[0].0, dirs[0].1, 1);
      SlideApart(g, w, r, c, dirs[1..]);
      SeparateAppend(ray, rest);
    }
  }

  /** The moves of a knight or king leave (r, c) by one of the given offsets,
      in the order of the offsets. */
  lemma {:induction false} LeapsApart(g: Grid, w: bool, r: int, c: int, offs: seq<(int, int)>)
    requires WellFormed(g) && OnBoard(r, c)
    requires Increasing(offs)
    ensures forall m :: m in Leaps(g, w, r, c, offs) ==>
              m.Start() == Square(r, c) && (m.endRow - r, m.endCol - c) in offs
              && (offs[0] == (m.endRow - r, m.endCol - c) || Before(offs[0], (m.endRow - r, m.endCol - c)))
    ensures Separate(Leaps(g, w, r, c, offs))
    decreases |offs|
  {
    if offs != [] {
      var here := Leap(g, w, r, c, offs[0]);
      var rest := Leaps(g, w, r, c, offs[1..]);
      LeapsApart(g, w, r, c, offs[1..]);
      SeparateAppend(here, rest);
    }
  }

  lemma PushApart(g: Grid, w: bool, r: int, c: int)
    requires WellFormed(g) && OnBoard(r, c) && 0 <= r + Forward(w) < 8
    ensures forall m :: m in PawnPush(g, w, r, c) ==> m.Start() == Square(r, c) && m.endCol == c
    ensures Separate(PawnPush(g, w, r, c))
  {
  }

  lemma CaptureEnds(g: Grid, w: bool, ep: Option<Square>, r: int, c: int, tc: int)
    requires WellFormed(g) && OnBoard(r, c) && 0 <= r + Forward(w) < 8
    ensures forall m :: m in PawnCapture(g, w, ep, r, c, tc) ==> m.Start() == Square(r, c) && m.endCol == tc
    ensures Separate(PawnCapture(g, w, ep, r, c, tc))
  {
  }

  /** The pushes end in the pawn's column, one capture list on each side. */
  lemma PawnApart(g: Grid, w: bool, ep: Option<Square>, r: int, c: int)
    requires WellFormed(g) && OnBoard(r, c) && 0 <= r + Forward(w) < 8
    ensures forall m :: m in PawnMoves(g, w, ep, r, c) ==> m.Start() == Square(r, c)
    ensures Separate(PawnMoves(g, w, ep, r, c))
  {
    var push := PawnPush(g, w, r, c);
    var left := PawnCapture(g, w, ep, r, c, c - 1);
    var right := PawnCapture(g, w, ep, r, c, c + 1);
    PushApart(g, w, r, c);
    CaptureEnds(g, w, ep, r, c, c - 1);
    CaptureEnds(g, w, ep, r, c, c + 1);
    SeparateAppend(push, left);
    SeparateAppend(push + left, right);
  }

  /** The moves generated for the piece on (r, c) leave (r, c), each for its own
      end square. */
  lemma SquareApart(g: Grid, w: bool, ep: Option<Square>, r: int, c: int)
    requires WellFormed(g) && PawnsSafe(g) && OnBoard(r, c)
    ensures forall m :: m in SquareMoves(g, w, ep, r, c) ==> m.Start() == Square(r, c)
    ensures Separate(SquareMoves(g, w, ep, r, c))
  {
    var x := At(g, r, c);
    if x.P? && x.color == Mover(w) {
      if x.kind == Pawn {
        assert w ==> r != 0;
        assert !w ==> r != 7;
        PawnApart(g, w, ep, r, c);
      } else {
        PieceApart(g, w, ep, r, c);
      }
    }
  }

  /** The moves of a list all leave (r, c), each for its own end square. */
  predicate SeparateFrom(ms: seq<Move>, r: int, c: int) {
    (forall m :: m in ms ==> m.Start() == Square(r, c)) && Separate(ms)
  }

  lemma PieceApart(g: Grid, w: bool, ep: Option<Square>, r: int, c: int)
    requires WellFormed(g) && PawnsSafe(g) && OnBoard(r, c)
    requires IsColor(At(g, r, c), Mover(w)) && At(g, r, c).kind != Pawn
    ensures SeparateFrom(SquareMoves(g, w, ep, r, c), r, c)
  {
    match At(g, r, c).kind
    case Rook => RookDirectionsDistinct(); SlideFrom(g, w, r, c, RookDirections);
    case Bishop => BishopDirectionsDistinct(); SlideFrom(g, w, r, c, BishopDirections);
    case Queen => QueenApart(g, w, r, c);
    case Knight => OffsetsIncreasing(); LeapsFrom(g, w, r, c, KnightOffsets);
    case King => OffsetsIncreasing(); LeapsFrom(g, w, r, c, KingOffsets);
  }

  lemma SlideFrom(g: Grid, w: bool, r: int, c: int, dirs: seq<(int, int)>)
    requires WellFormed(g) && OnBoard(r, c)
    requires Directions(dirs)
    ensures SeparateFrom(Slide(g, w, r, c, dirs), r, c)
  {
    SlideApart(g, w, r, c, dirs);
  }

  lemma LeapsFrom(g: Grid, w: bool, r: int, c: int, offs: seq<(int, int)>)
    requires WellFormed(g) && OnBoard(r, c)
    requires Increasing(offs)
    ensures SeparateFrom(Leaps(g, w, r, c, offs), r, c)
  {
    LeapsApart(g, w, r, c, offs);
  }

  /** A king's moves stay within one column of its square. */
  lemma KingNear(g: Grid, w: bool, ep: Option<Square>, r: int, c: int)
    requires WellFormed(g) && PawnsSafe(g) && OnBoard(r, c)
    requires At(g, r, c) == P(Mover(w), King)
    ensures forall m :: m in SquareMoves(g, w, ep, r, c) ==> Abs(m.endCol - c) <= 1
  {
    assert SquareMoves(g, w, ep, r, c) == Leaps(g, w, r, c, KingOffsets);
    KingOffsetsNear();
    LeapsNear(g, w, r, c, KingOffsets);
  }

  lemma KingOffsetsNear()
    ensures forall k :: 0 <= k < |KingOffsets| ==> -1 <= KingOffsets[k].1 <= 1
  {
  }

  lemma {:induction false} LeapsNear(g: Grid, w: bool, r: int, c: int, offs: seq<(int, int)>)
    requires WellFormed(g) && OnBoard(r, c)
    requires forall k :: 0 <= k < |offs| ==> -1 <= offs[k].1 <= 1
    ensures forall m :: m in Leaps(g, w, r, c, offs) ==> Abs(m.endCol - c) <= 1
    decreases |offs|
  {
    if offs != [] {
      LeapsNear(g, w, r, c, offs[1..]);
    }
  }

  /** A rook direction has a zero component and a bishop direction none, so the
      queen's two halves share no end square. */
  lemma QueenApart(g: Grid, w: bool, r: int, c: int)
    requires WellFormed(g) && OnBoard(r, c)
    ensures SeparateFrom(Slide(g, w, r, c, RookDirections) + Slide(g, w, r, c, BishopDirections), r, c)
  {
    var rook, bishop := Slide(g, w, r, c, RookDirections), Slide(g, w, r, c, BishopDirections);
    RookDirectionsDistinct();
    BishopDirectionsDistinct();
    SlideApart(g, w, r, c, RookDirections);
    SlideApart(g, w, r, c, BishopDirections);
    SeparateAppend(rook, bishop);
  }

  /** The rest of row `r` from column `c`: every move comes from a cell of it,
      and no two share start and end. */
  lemma {:induction false} RowApart(g: Grid, w: bool, ep: Option<Square>, r: int, c: int)
    requires WellFormed(g) && PawnsSafe(g) && 0 <= r < 8 && 0 <= c <= 8
    ensures forall m :: m in RowMoves(g, w, ep, r, c) ==>
              m.startRow == r && c <= m.startCol < 8 && m in SquareMoves(g, w, ep, r, m.startCol)
    ensures Separate(RowMoves(g, w, ep, r, c))
    decreases 8 - c
  {
    if c < 8 {
      SquareApart(g, w, ep, r, c);
      RowApart(g, w, ep, r, c + 1);
      SeparateAppend(SquareMoves(g, w, ep, r, c), RowMoves(g, w, ep, r, c + 1));
    }
  }

  lemma {:induction false} BoardApart(g: Grid, w: bool, ep: Option<Square>, r: int)
    requires WellFormed(g) && PawnsSafe(g) && 0 <= r <= 8
    ensures forall m :: m in BoardMoves(g, w, ep, r) ==>
              r <= m.startRow < 8 && 0 <= m.startCol < 8 && m in SquareMoves(g, w, ep, m.startRow, m.startCol)
    ensures Separate(BoardMoves(g, w, ep, r))
    decreases 8 - r
  {
    if r < 8 {
      RowApart(g, w, ep, r, 0);
      BoardApart(g, w, ep, r + 1);
      SeparateAppend(RowMoves(g, w, ep, r, 0), BoardMoves(g, w, ep, r + 1));
    }
  }

  /** `getAllPossibleMoves` offers no castle, and its en-passant captures land on
      the en-passant target. */
  lemma GeneratedFlags(g: Grid, w: bool, ep: Option<Square>)
    requires WellFormed(g) && PawnsSafe(g)
    ensures forall m :: m in AllPossibleMoves(g, w, ep) ==>
              !m.isCastle && (m.isEnPassant ==> ep == Some(m.End()))
  {
    BoardApart(g, w, ep, 0);
    forall m | m in AllPossibleMoves(g, w, ep)
      ensures !m.isCastle && (m.isEnPassant ==> ep == Some(m.End()))
    {
      SquareFlags(g, w, ep, m.startRow, m.startCol);
    }
  }

  /** The castles leave the king's square for two columns to either side. */
  lemma CastleApart(p: Position)
    requires Sane(p)
    ensures forall m :: m in CastleMoves(p, KingOf(p, p.whiteToMove).row, KingOf(p, p.whiteToMove).col) ==>
              m.Start() == KingOf(p, p.whiteToMove) && Abs(m.endCol - KingOf(p, p.whiteToMove).col) == 2
    ensures Separate(CastleMoves(p, KingOf(p, p.whiteToMove).row, KingOf(p, p.whiteToMove).col))
  {
  }

  /** On the board, moves apart are not equal under `Move.__eq__`. */
  lemma SeparateDistinct(ms: seq<Move>)
    requires Separate(ms) && forall m :: m in ms ==> OnBoardMove(m)
    ensures Distinct(ms)
  {
    forall i, j | 0 <= i < j < |ms|
      ensures !SameMove(ms[i], ms[j])
    {
      SameMoveIff(ms[i], ms[j]);
    }
  }

  /** A generated move from the square of a king of the side to move is a king
      step. */
  lemma KingSquareMoves(g: Grid, w: bool, ep: Option<Square>, kr: int, kc: int)
    requires WellFormed(g) && PawnsSafe(g) && OnBoard(kr, kc) && At(g, kr, kc) == P(Mover(w), King)
    ensures forall x :: x in AllPossibleMoves(g, w, ep) && x.Start() == Square(kr, kc) ==> Abs(x.endCol - kc) <= 1
  {
    var here := SquareMoves(g, w, ep, kr, kc);
    BoardApart(g, w, ep, 0);
    KingNear(g, w, ep, kr, kc);
    forall x | x in AllPossibleMoves(g, w, ep) && x.Start() == Square(kr, kc)
      ensures Abs(x.endCol - kc) <= 1
    {
      assert x in here;
    }
  }

  /** A generated move and a castle never share start and end. */
  lemma CastlesApartFromGenerated(p: Position)
    requires Sane(p) && Consistent(p)
    ensures forall x, y ::
              x in AllPossibleMoves(p.grid, p.whiteToMove, p.enPassant)
              && y in CastleMoves(p, KingOf(p, p.whiteToMove).row, KingOf(p, p.whiteToMove).col)
              ==> Apart(x, y)
  {
    var k := KingOf(p, p.whiteToMove);
    KingSquareMoves(p.grid, p.whiteToMove, p.enPassant, k.row, k.col);
    CastleApart(p);
  }

  /** No two candidates of `getValidMoves` are equal under `Move.__eq__`: the
      generated moves of different cells start apart, those of one cell end
      apart, and the castles end two columns from the king, out of its reach. */
  lemma CandidatesDistinct(p: Position)
    requires Sane(p) && Consistent(p)
    ensures Distinct(Candidates(p))
  {
    var k := KingOf(p, p.whiteToMove);
    BoardApart(p.grid, p.whiteToMove, p.enPassant, 0);
    CastleApart(p);
    CastlesApartFromGenerated(p);
    SeparateAppend(AllPossibleMoves(p.grid, p.whiteToMove, p.enPassant), CastleMoves(p, k.row, k.col));
    CandidatesApplicable(p);
    SeparateDistinct(Candidates(p));
  }

  /** `getValidMoves` keeps the candidates the verdict does not reject, in
      their generated order. */
  lemma ValidMovesFilter(p: Position)
    requires Sane(p) && Consistent(p)
    ensures ValidMoves(p) == Keep(Candidates(p), InCheckAfter(p))
  {
    var cs := Candidates(p);
    CandidatesDistinct(p);
    SweepKeeps(cs, InCheckAfter(p));
  }

  /** A move is among those `getValidMoves` returns exactly when it is a
      candidate after which the mover's own king is not attacked. */
  lemma ValidMovesIff(p: Position)
    requires Sane(p) && Consistent(p)
    ensures forall m :: m in ValidMoves(p) <==> m in Candidates(p) && Applicable(p, m) && !IllegalAfter(p, m)
  {
    var cs := Candidates(p);
    ValidMovesFilter(p);
    CandidatesApplicable(p);
    forall m
      ensures m in ValidMoves(p) <==> m in cs && Applicable(p, m) && !IllegalAfter(p, m)
    {
      assert m in Keep(cs, InCheckAfter(p)) <==> m in cs && !InCheckAfter(p)(m);
    }
  }
}
