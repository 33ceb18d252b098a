/** Pseudo-legal move generation as functions of the board, the side to move and
    the en-passant target: the moves the per-piece generators append, in the order
    they append them. Both engines use the same generator code. */
module Generation {
  import opened Pieces
  import opened Moves

  /** `moveAmount`, `startingRow` and `endingRow` of the pawn generator. */
  function Forward(whitesMove: bool): int { if whitesMove then -1 else 1 }
  function PawnStartRow(whitesMove: bool): int { if whitesMove then 6 else 1 }
  function LastRow(whitesMove: bool): int { if whitesMove then 0 else 7 }

  /** The generators index `row + moveAmount` without a bounds check, so no pawn
      may stand on the last rank of its own colour. Promotion keeps it so. */
  predicate PawnsSafe(g: Grid)
    requires WellFormed(g)
  {
    forall c :: 0 <= c < 8 ==> At(g, 0, c) != P(White, Pawn) && At(g, 7, c) != P(Black, Pawn)
  }

  const RookDirections: seq<(int, int)> := [(-1, 0), (0, -1), (1, 0), (0, 1)]
  const BishopDirections: seq<(int, int)> := [(-1, -1), (-1, 1), (1, -1), (1, 1)]
  const KnightOffsets: seq<(int, int)> :=
    [(-2, -1), (-2, 1), (-1, -2), (-1, 2), (1, -2), (1, 2), (2, -1), (2, 1)]
  const KingOffsets: seq<(int, int)> :=
    [(-1, -1), (-1, 0), (-1, 1), (0, -1), (0, 1), (1, -1), (1, 0), (1, 1)]

  /** One of the eight directions of the rook and bishop generators. */
  predicate Unit(d: (int, int)) {
    -1 <= d.0 <= 1 && -1 <= d.1 <= 1 && d != (0, 0)
  }

  /** Offsets in lexicographic order. */
  predicate Before(a: (int, int), b: (int, int)) {
    a.0 < b.0 || (a.0 == b.0 && a.1 < b.1)
  }

  predicate Increasing(offs: seq<(int, int)>) {
    forall k :: 0 <= k < |offs| - 1 ==> Before(offs[k], offs[k + 1])
  }

  /** Distinct directions of the rook and bishop generators. */
  predicate Directions(dirs: seq<(int, int)>) {
    dirs == [] || (Unit(dirs[0]) && dirs[0] !in dirs[1..] && Directions(dirs[1..]))
  }

  lemma RookDirectionsDistinct()
    ensures Directions(RookDirections)
  {
    var d := RookDirections;
    assert Directions(d[3..]) by { assert d[3..][1..] == []; }
    assert Directions(d[2..]) by { assert d[2..][1..] == d[3..]; }
    assert Directions(d[1..]) by { assert d[1..][1..] == d[2..]; }
  }

  lemma BishopDirectionsDistinct()
    ensures Directions(BishopDirections)
  {
    var d := BishopDirections;
    assert Directions(d[3..]) by { assert d[3..][1..] == []; }
    assert Directions(d[2..]) by { assert d[2..][1..] == d[3..]; }
    assert Directions(d[1..]) by { assert d[1..][1..] == d[2..]; }
  }

  /** The offset tables are listed in lexicographic order, so no offset occurs
      twice, and none of them is (0, 0). */
  lemma OffsetsIncreasing()
    ensures Increasing(KnightOffsets) && Increasing(KingOffsets)
    ensures forall k :: 0 <= k < 8 ==> KnightOffsets[k] != (0, 0) && KingOffsets[k] != (0, 0)
  {
  }

  /** `getPawnMoves`: the pushes, then the left and right diagonals. */
  function PawnMoves(g: Grid, whitesMove: bool, ep: Option<Square>, r: int, c: int): seq<Move>
    requires WellFormed(g) && OnBoard(r, c) && 0 <= r + Forward(whitesMove) < 8
  {
    PawnPush(g, whitesMove, r, c) + PawnCapture(g, whitesMove, ep, r, c, c - 1)
      + PawnCapture(g, whitesMove, ep, r, c, c + 1)
  }

  /** One step onto an empty cell (a promotion when it reaches the last rank),
      then two steps from the starting row through it. */
  function PawnPush(g: Grid, whitesMove: bool, r: int, c: int): seq<Move>
    requires WellFormed(g) && OnBoard(r, c) && 0 <= r + Forward(whitesMove) < 8
  {
    var d := Forward(whitesMove);
    if At(g, r + d, c) == Empty then
      [MoveOn(g, Square(r, c), Square(r + d, c), false, r + d == LastRow(whitesMove), false)]
      + (if r == PawnStartRow(whitesMove) && At(g, r + 2 * d, c) == Empty
         then [MoveOn(g, Square(r, c), Square(r + 2 * d, c), false, false, false)]
         else [])
    else []
  }

  /** One diagonal of the pawn generator: a capture of an enemy piece, or else an
      en-passant capture onto the target square. */
  function PawnCapture(g: Grid, whitesMove: bool, ep: Option<Square>, r: int, c: int, tc: int): seq<Move>
    requires WellFormed(g) && OnBoard(r, c) && 0 <= r + Forward(whitesMove) < 8
  {
    var d := Forward(whitesMove);
    if !(0 <= tc <= 7) then []
    else if IsColor(At(g, r + d, tc), Opponent(Mover(whitesMove))) then
      [MoveOn(g, Square(r, c), Square(r + d, tc), false, r + d == LastRow(whitesMove), false)]
    else if ep == Some(Square(r + d, tc)) then
      [MoveOn(g, Square(r, c), Square(r + d, tc), true, false, false)]
    else []
  }

  /** The inner loop of the rook and bishop generators from step `i` on: empty
      cells are taken and the ray goes on; the first enemy is taken and the ray
      stops; a friendly piece or the edge stops it. */
  function Ray(g: Grid, whitesMove: bool, r: int, c: int, dr: int, dc: int, i: int): seq<Move>
    requires WellFormed(g) && OnBoard(r, c) && 1 <= i <= 8
    decreases 8 - i
  {
    if i == 8 then []
    else
      var er, ec := r + dr * i, c + dc * i;
      if !OnBoard(er, ec) then []
      else if At(g, er, ec) == Empty then
        [MoveOn(g, Square(r, c), Square(er, ec), false, false, false)]
        + Ray(g, whitesMove, r, c, dr, dc, i + 1)
      else if IsColor(At(g, er, ec), Opponent(Mover(whitesMove))) then
        [MoveOn(g, Square(r, c), Square(er, ec), false, false, false)]
      else []
  }

  /** The outer loop of the rook and bishop generators. */
  function Slide(g: Grid, whitesMove: bool, r: int, c: int, dirs: seq<(int, int)>): seq<Move>
    requires WellFormed(g) && OnBoard(r, c)
    decreases |dirs|
  {
    if dirs == [] then []
    else Ray(g, whitesMove, r, c, dirs[0].0, dirs[0].1, 1) + Slide(g, whitesMove, r, c, dirs[1..])
  }

  /** One offset of the knight and king generators: on the board and not onto a
      friendly piece. */
  function Leap(g: Grid, whitesMove: bool, r: int, c: int, off: (int, int)): seq<Move>
    requires WellFormed(g) && OnBoard(r, c)
  {
    var er, ec := r + off.0, c + off.1;
    if OnBoard(er, ec) && (IsColor(At(g, er, ec), Opponent(Mover(whitesMove))) || At(g, er, ec) == Empty)
    then [MoveOn(g, Square(r, c), Square(er, ec), false, false, false)]
    else []
  }

  function Leaps(g: Grid, whitesMove: bool, r: int, c: int, offs: seq<(int, int)>): seq<Move>
    requires WellFormed(g) && OnBoard(r, c)
    decreases |offs|
  {
    if offs == [] then []
    else Leap(g, whitesMove, r, c, offs[0]) + Leaps(g, whitesMove, r, c, offs[1..])
  }

  /** The `moveFunctions` dispatch of `getAllPossibleMoves` for one cell: the
      cell's generator if it holds a piece of the side to move, else nothing. */
  function SquareMoves(g: Grid, whitesMove: bool, ep: Option<Square>, r: int, c: int): seq<Move>
    requires WellFormed(g) && PawnsSafe(g) && OnBoard(r, c)
  {
    match At(g, r, c)
    case Empty => []
    case P(color, kind) =>
      if color != Mover(whitesMove) then []
      else
        match kind
        case Pawn => PawnMoves(g, whitesMove, ep, r, c)
        case Rook => Slide(g, whitesMove, r, c, RookDirections)
        case Knight => Leaps(g, whitesMove, r, c, KnightOffsets)
        case Bishop => Slide(g, whitesMove, r, c, BishopDirections)
        case Queen => Slide(g, whitesMove, r, c, RookDirections) + Slide(g, whitesMove, r, c, BishopDirections)
        case King => Leaps(g, whitesMove, r, c, KingOffsets)
  }

  /** The inner loop of `getAllPossibleMoves`, from column `c` of row `r` on. */
  function RowMoves(g: Grid, whitesMove: bool, ep: Option<Square>, r: int, c: int): seq<Move>
    requires WellFormed(g) && PawnsSafe(g) && 0 <= r < 8 && 0 <= c <= 8
    decreases 8 - c
  {
    if c == 8 then []
    else SquareMoves(g, whitesMove, ep, r, c) + RowMoves(g, whitesMove, ep, r, c + 1)
  }

  /** The outer loop of `getAllPossibleMoves`, from row `r` on. */
  function BoardMoves(g: Grid, whitesMove: bool, ep: Option<Square>, r: int): seq<Move>
    requires WellFormed(g) && PawnsSafe(g) && 0 <= r <= 8
    decreases 8 - r
  {
    if r == 8 then []
    else RowMoves(g, whitesMove, ep, r, 0) + BoardMoves(g, whitesMove, ep, r + 1)
  }

  /** `getAllPossibleMoves`: every pseudo-legal move of the side to move. */
  function AllPossibleMoves(g: Grid, whitesMove: bool, ep: Option<Square>): seq<Move>
    requires WellFormed(g) && PawnsSafe(g)
  {
    BoardMoves(g, whitesMove, ep, 0)
  }

  /** `squareUnderAttack`, as a value: some piece of `byWhite`'s side has a
      pseudo-legal move ending on (r, c). `AttackedIff` shows this is the same
      as scanning the whole list `getAllPossibleMoves` returns. */
  predicate Attacked(g: Grid, byWhite: bool, ep: Option<Square>, r: int, c: int)
    requires WellFormed(g) && PawnsSafe(g)
  {
    exists sr, sc :: 0 <= sr < 8 && 0 <= sc < 8 && Reaches(g, byWhite, ep, sr, sc, r, c)
  }

  /** The cell (sr, sc) holds a piece of the side `whitesMove` names that has a
      pseudo-legal move onto (tr, tc). */
  predicate Reaches(g: Grid, whitesMove: bool, ep: Option<Square>, sr: int, sc: int, tr: int, tc: int)
    requires WellFormed(g) && PawnsSafe(g)
  {
    OnBoard(sr, sc) && EndsOn(SquareMoves(g, whitesMove, ep, sr, sc), tr, tc)
  }

  /** The `for move in oppMoves` loop of `squareUnderAttack`: some move of the
      list ends on (r, c). */
  predicate EndsOn(ms: seq<Move>, r: int, c: int) {
    exists m :: m in ms && m.End() == Square(r, c)
  }

  lemma EndsOnAppend(a: seq<Move>, b: seq<Move>, r: int, c: int)
    ensures EndsOn(a + b, r, c) <==> EndsOn(a, r, c) || EndsOn(b, r, c)
  {
  }

  lemma EndsOnSingle(a: seq<Move>, r: int, c: int)
    requires |a| <= 1
    ensures EndsOn(a, r, c) <==> |a| == 1 && a[0].endRow == r && a[0].endCol == c
  {
    if |a| == 1 {
      assert a[0] in a;
    }
  }

  /** A move of the rest of row `r` from column `c0` ends on (tr, tc) exactly when
      a move of one of its cells does. */
  lemma {:induction false} EndsOnRowMoves(g: Grid, whitesMove: bool, ep: Option<Square>, r: int, c0: int, tr: int, tc: int)
    requires WellFormed(g) && PawnsSafe(g) && 0 <= r < 8 && 0 <= c0 <= 8
    ensures EndsOn(RowMoves(g, whitesMove, ep, r, c0), tr, tc)
            <==> exists sc :: c0 <= sc < 8 && Reaches(g, whitesMove, ep, r, sc, tr, tc)
    decreases 8 - c0
  {
    if c0 < 8 {
      var here, rest := SquareMoves(g, whitesMove, ep, r, c0), RowMoves(g, whitesMove, ep, r, c0 + 1);
      assert RowMoves(g, whitesMove, ep, r, c0) == here + rest;
      EndsOnRowMoves(g, whitesMove, ep, r, c0 + 1, tr, tc);
      EndsOnAppend(here, rest, tr, tc);
      if EndsOn(here, tr, tc) {
        assert Reaches(g, whitesMove, ep, r, c0, tr, tc);
      }
      if exists sc :: c0 <= sc < 8 && Reaches(g, whitesMove, ep, r, sc, tr, tc) {
        var sc :| c0 <= sc < 8 && Reaches(g, whitesMove, ep, r, sc, tr, tc);
        if sc > c0 {
          assert EndsOn(rest, tr, tc);
        }
      }
    }
  }

  lemma {:induction false} EndsOnBoardMoves(g: Grid, whitesMove: bool, ep: Option<Square>, r0: int, tr: int, tc: int)
    requires WellFormed(g) && PawnsSafe(g) && 0 <= r0 <= 8
    ensures EndsOn(BoardMoves(g, whitesMove, ep, r0), tr, tc)
            <==> exists sr, sc :: r0 <= sr < 8 && 0 <= sc < 8 && Reaches(g, whitesMove, ep, sr, sc, tr, tc)
    decreases 8 - r0
  {
    if r0 < 8 {
      EndsOnBoardMovesStep(g, whitesMove, ep, r0, tr, tc);
      EndsOnBoardMoves(g, whitesMove, ep, r0 + 1, tr, tc);
      EndsOnRowMoves(g, whitesMove, ep, r0, 0, tr, tc);
      RowsReach(g, whitesMove, ep, r0, tr, tc, EndsOn(RowMoves(g, whitesMove, ep, r0, 0), tr, tc),
                EndsOn(BoardMoves(g, whitesMove, ep, r0 + 1), tr, tc));
    }
  }

  lemma EndsOnBoardMovesStep(g: Grid, whitesMove: bool, ep: Option<Square>, r0: int, tr: int, tc: int)
    requires WellFormed(g) && PawnsSafe(g) && 0 <= r0 < 8
    ensures EndsOn(BoardMoves(g, whitesMove, ep, r0), tr, tc)
            <==> EndsOn(RowMoves(g, whitesMove, ep, r0, 0), tr, tc) || EndsOn(BoardMoves(g, whitesMove, ep, r0 + 1), tr, tc)
  {
    EndsOnAppend(RowMoves(g, whitesMove, ep, r0, 0), BoardMoves(g, whitesMove, ep, r0 + 1), tr, tc);
  }

  /** One row of `EndsOnBoardMoves`: row `r0` reaches the square, or a row
      below it does. */
  lemma RowsReach(g: Grid, whitesMove: bool, ep: Option<Square>, r0: int, tr: int, tc: int, here: bool, rest: bool)
    requires WellFormed(g) && PawnsSafe(g) && 0 <= r0 < 8
    requires here <==> exists sc :: 0 <= sc < 8 && Reaches(g, whitesMove, ep, r0, sc, tr, tc)
    requires rest <==> exists sr, sc :: r0 + 1 <= sr < 8 && 0 <= sc < 8 && Reaches(g, whitesMove, ep, sr, sc, tr, tc)
    ensures here || rest
            <==> exists sr, sc :: r0 <= sr < 8 && 0 <= sc < 8 && Reaches(g, whitesMove, ep, sr, sc, tr, tc)
  {
    if here {
      var sc :| 0 <= sc < 8 && Reaches(g, whitesMove, ep, r0, sc, tr, tc);
      assert r0 <= r0 < 8;
    }
    if exists sr, sc :: r0 <= sr < 8 && 0 <= sc < 8 && Reaches(g, whitesMove, ep, sr, sc, tr, tc) {
      var sr, sc :| r0 <= sr < 8 && 0 <= sc < 8 && Reaches(g, whitesMove, ep, sr, sc, tr, tc);
      if sr == r0 {
        assert here;
      }
    }
  }

  /** `squareUnderAttack` scans the list `getAllPossibleMoves` builds for the
      opponent; that is the same as asking whether one of the opponent's pieces
      reaches the square. */
  lemma AttackedIff(g: Grid, byWhite: bool, ep: Option<Square>, r: int, c: int)
    requires WellFormed(g) && PawnsSafe(g)
    ensures Attacked(g, byWhite, ep, r, c) <==> EndsOn(AllPossibleMoves(g, byWhite, ep), r, c)
  {
    EndsOnBoardMoves(g, byWhite, ep, 0, r, c);
  }

  /** Every move a cell's generator yields is in the list of its row from any
      earlier column on. */
  lemma {:induction false} RowHolds(g: Grid, whitesMove: bool, ep: Option<Square>, r: int, c0: int, c: int)
    requires WellFormed(g) && PawnsSafe(g) && 0 <= r < 8 && 0 <= c0 <= c < 8
    ensures forall m :: m in SquareMoves(g, whitesMove, ep, r, c) ==> m in RowMoves(g, whitesMove, ep, r, c0)
    decreases c - c0
  {
    assert RowMoves(g, whitesMove, ep, r, c0)
        == SquareMoves(g, whitesMove, ep, r, c0) + RowMoves(g, whitesMove, ep, r, c0 + 1);
    if c0 < c {
      RowHolds(g, whitesMove, ep, r, c0 + 1, c);
    }
  }

  lemma InAppend(a: seq<Move>, b: seq<Move>, m: Move)
    ensures m in a + b <==> m in a || m in b
  {
  }

  /** A move a cell's generator yields is in `getAllPossibleMoves` from any
      earlier row on. */
  lemma {:induction false} BoardHolds(g: Grid, whitesMove: bool, ep: Option<Square>, r0: int, r: int, c: int, m: Move)
    requires WellFormed(g) && PawnsSafe(g) && 0 <= r0 <= r < 8 && 0 <= c < 8
    requires m in SquareMoves(g, whitesMove, ep, r, c)
    ensures m in BoardMoves(g, whitesMove, ep, r0)
    decreases r - r0
  {
    var row, rest := RowMoves(g, whitesMove, ep, r0, 0), BoardMoves(g, whitesMove, ep, r0 + 1);
    if r0 < r {
      BoardHolds(g, whitesMove, ep, r0 + 1, r, c, m);
    } else {
      RowHolds(g, whitesMove, ep, r, 0, c);
    }
    InAppend(row, rest, m);
  }
}
