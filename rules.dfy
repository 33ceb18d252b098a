/** The piece-movement rules the generators implement, stated square by square
    and independently of the order in which the generators append moves: which
    target squares a ray, an offset table or a pawn reaches, and which flags the
    moves onto them carry. */
module Rules {
  import opened Pieces
  import opened Moves
  import opened Generation

  /** The cell `k` steps from (r, c) in direction (dr, dc). */
  function Along(r: int, c: int, dr: int, dc: int, k: int): Square {
    Square(r + dr * k, c + dc * k)
  }

  /** The cell exists and holds no piece. */
  predicate Free(g: Grid, s: Square)
    requires WellFormed(g)
  {
    OnBoard(s.row, s.col) && At(g, s.row, s.col) == Empty
  }

  /** Steps `i` up to but excluding `k` of the ray are empty cells of the board. */
  predicate Clear(g: Grid, r: int, c: int, dr: int, dc: int, i: int, k: int)
    requires WellFormed(g)
  {
    forall j :: i <= j < k ==> Free(g, Along(r, c, dr, dc, j))
  }

  /** Two different numbers of steps along a direction reach different cells. */
  lemma AlongApart(r: int, c: int, dr: int, dc: int, i: int, k: int)
    requires Unit((dr, dc)) && i < k
    ensures Along(r, c, dr, dc, i) != Along(r, c, dr, dc, k)
  {
    if dr != 0 {
      assert dr * k - dr * i == if dr == 1 then k - i else i - k;
    } else {
      assert dc * k - dc * i == if dc == 1 then k - i else i - k;
    }
  }

  lemma ClearStep(g: Grid, r: int, c: int, dr: int, dc: int, i: int, k: int)
    requires WellFormed(g) && i < k
    ensures Clear(g, r, c, dr, dc, i, k)
            <==> Free(g, Along(r, c, dr, dc, i)) && Clear(g, r, c, dr, dc, i + 1, k)
  {
  }

  /** A rook or bishop ray from step `i` on reaches the cell `k` steps out exactly
      when every cell before it is empty and it holds no piece of the mover: the
      ray goes through empty cells, takes the first enemy and stops there, and
      stops at a friendly piece or at the edge. */
  lemma {:induction false} RayReaches(g: Grid, w: bool, r: int, c: int, dr: int, dc: int, i: int, k: int)
    requires WellFormed(g) && OnBoard(r, c) && Unit((dr, dc)) && 1 <= i <= k < 8
    ensures var t := Along(r, c, dr, dc, k);
      EndsOn(Ray(g, w, r, c, dr, dc, i), t.row, t.col)
      <==> Clear(g, r, c, dr, dc, i, k) && OnBoard(t.row, t.col) && !IsColor(At(g, t.row, t.col), Mover(w))
    decreases k - i
  {
    if i == k {
      RayFirst(g, w, r, c, dr, dc, i);
    } else {
      ClearStep(g, r, c, dr, dc, i, k);
      RayPast(g, w, r, c, dr, dc, i, k);
      if Free(g, Along(r, c, dr, dc, i)) {
        RayReaches(g, w, r, c, dr, dc, i + 1, k);
      }
    }
  }

  /** The first cell a ray looks at is taken unless it is off the board or
      holds a piece of the mover. */
  lemma RayFirst(g: Grid, w: bool, r: int, c: int, dr: int, dc: int, i: int)
    requires WellFormed(g) && OnBoard(r, c) && 1 <= i < 8
    ensures var e := Along(r, c, dr, dc, i);
      EndsOn(Ray(g, w, r, c, dr, dc, i), e.row, e.col)
      <==> OnBoard(e.row, e.col) && !IsColor(At(g, e.row, e.col), Mover(w))
  {
    var e := Along(r, c, dr, dc, i);
    var ray := Ray(g, w, r, c, dr, dc, i);
    if OnBoard(e.row, e.col) && !IsColor(At(g, e.row, e.col), Mover(w)) {
      var m := MoveOn(g, Square(r, c), e, false, false, false);
      assert ray[0] == m;
      assert m in ray && m.End() == e;
    } else {
      assert ray == [];
    }
  }

  /** A ray reaches a farther cell only through an empty cell, and then exactly
      when the rest of the ray does. */
  lemma RayPast(g: Grid, w: bool, r: int, c: int, dr: int, dc: int, i: int, k: int)
    requires WellFormed(g) && OnBoard(r, c) && Unit((dr, dc)) && 1 <= i < k < 8
    ensures var t := Along(r, c, dr, dc, k);
      EndsOn(Ray(g, w, r, c, dr, dc, i), t.row, t.col)
      <==> Free(g, Along(r, c, dr, dc, i)) && EndsOn(Ray(g, w, r, c, dr, dc, i + 1), t.row, t.col)
  {
    var t := Along(r, c, dr, dc, k);
    var e := Along(r, c, dr, dc, i);
    var ray := Ray(g, w, r, c, dr, dc, i);
    AlongApart(r, c, dr, dc, i, k);
    if Free(g, e) {
      var m := MoveOn(g, Square(r, c), e, false, false, false);
      assert ray == [m] + Ray(g, w, r, c, dr, dc, i + 1);
      EndsOnAppend([m], Ray(g, w, r, c, dr, dc, i + 1), t.row, t.col);
      EndsOnSingle([m], t.row, t.col);
    } else {
      assert |ray| <= 1 && (|ray| == 1 ==> ray[0].End() == e);
      EndsOnSingle(ray, t.row, t.col);
    }
  }


  /** Every move of a ray starts on the piece's cell, lands some number of steps
      out along the direction, and never on a piece of the mover. */
  lemma {:induction false} RayOnLine(g: Grid, w: bool, r: int, c: int, dr: int, dc: int, i: int)
    requires WellFormed(g) && OnBoard(r, c) && 1 <= i <= 8
    ensures forall m :: m in Ray(g, w, r, c, dr, dc, i) ==>
              m.Start() == Square(r, c) && OnBoard(m.endRow, m.endCol)
              && !IsColor(At(g, m.endRow, m.endCol), Mover(w))
              && exists k :: i <= k < 8 && m.End() == Along(r, c, dr, dc, k)
    decreases 8 - i
  {
    if i < 8 {
      RayOnLine(g, w, r, c, dr, dc, i + 1);
      var e := Along(r, c, dr, dc, i);
      if OnBoard(e.row, e.col) && !IsColor(At(g, e.row, e.col), Mover(w)) {
        var m := MoveOn(g, Square(r, c), e, false, false, false);
        assert m.End() == Along(r, c, dr, dc, i);
      }
    }
  }

  /** The knight and king generators reach a cell exactly when its offset from
      the piece is in the table, it is on the board, and it holds no piece of
      the mover. */
  lemma {:induction false} LeapsReach(g: Grid, w: bool, r: int, c: int, offs: seq<(int, int)>, tr: int, tc: int)
    requires WellFormed(g) && OnBoard(r, c)
    ensures EndsOn(Leaps(g, w, r, c, offs), tr, tc)
            <==> (tr - r, tc - c) in offs && OnBoard(tr, tc) && !IsColor(At(g, tr, tc), Mover(w))
    decreases |offs|
  {
    if offs != [] {
      var one := Leap(g, w, r, c, offs[0]);
      EndsOnAppend(one, Leaps(g, w, r, c, offs[1..]), tr, tc);
      EndsOnSingle(one, tr, tc);
      LeapsReach(g, w, r, c, offs[1..], tr, tc);
      assert (tr - r, tc - c) in offs <==> (tr - r, tc - c) == offs[0] || (tr - r, tc - c) in offs[1..];
    }
  }

  /** A pawn push reaches the cell ahead if it is empty, and the cell two ahead
      only from the pawn's starting row and when both cells are empty. */
  lemma PawnPushReach(g: Grid, w: bool, r: int, c: int, tr: int, tc: int)
    requires WellFormed(g) && OnBoard(r, c) && 0 <= r + Forward(w) < 8
    ensures EndsOn(PawnPush(g, w, r, c), tr, tc)
            <==> tc == c && At(g, r + Forward(w), c) == Empty
                 && (tr == r + Forward(w)
                     || (r == PawnStartRow(w) && tr == r + 2 * Forward(w)
                         && At(g, r + 2 * Forward(w), c) == Empty))
  {
    var d := Forward(w);
    if At(g, r + d, c) == Empty {
      var one := [MoveOn(g, Square(r, c), Square(r + d, c), false, r + d == LastRow(w), false)];
      var two := if r == PawnStartRow(w) && At(g, r + 2 * d, c) == Empty
                 then [MoveOn(g, Square(r, c), Square(r + 2 * d, c), false, false, false)]
                 else [];
      assert PawnPush(g, w, r, c) == one + two;
      EndsOnAppend(one, two, tr, tc);
      EndsOnSingle(one, tr, tc);
      EndsOnSingle(two, tr, tc);
    }
  }

  /** A pawn reaches the diagonal cell of column `tc` when that column exists and
      the cell holds an enemy piece or is the en-passant target. */
  lemma PawnCaptureReach(g: Grid, w: bool, ep: Option<Square>, r: int, c: int, tc: int, er: int, ec: int)
    requires WellFormed(g) && OnBoard(r, c) && 0 <= r + Forward(w) < 8
    ensures EndsOn(PawnCapture(g, w, ep, r, c, tc), er, ec)
            <==> 0 <= tc <= 7 && er == r + Forward(w) && ec == tc
                 && (IsColor(At(g, er, ec), Opponent(Mover(w))) || ep == Some(Square(er, ec)))
  {
    EndsOnSingle(PawnCapture(g, w, ep, r, c, tc), er, ec);
  }

  /** Every move of the pawn generator carries the flags `PawnFlagged` describes. */
  lemma PawnFlagsIff(g: Grid, w: bool, ep: Option<Square>, r: int, c: int)
    requires WellFormed(g) && OnBoard(r, c) && 0 <= r + Forward(w) < 8
    ensures forall m :: m in PawnMoves(g, w, ep, r, c) ==> PawnFlagged(g, w, ep, r, c, m)
  {
    PushFlagged(g, w, ep, r, c);
    CaptureFlagged(g, w, ep, r, c, c - 1);
    CaptureFlagged(g, w, ep, r, c, c + 1);
  }

  /** A pawn move leaves the pawn's cell for a cell of the board and is never a
      castle; it is flagged en passant exactly when it goes sideways onto the
      en-passant target and no enemy stands there, and flagged as a promotion
      exactly when it is not en passant and lands on the last rank. */
  predicate PawnFlagged(g: Grid, w: bool, ep: Option<Square>, r: int, c: int, m: Move)
    requires WellFormed(g)
  {
    m.Start() == Square(r, c) && OnBoard(m.endRow, m.endCol) && !m.isCastle
    && (m.isEnPassant <==> m.endCol != c && ep == Some(m.End())
                           && !IsColor(At(g, m.endRow, m.endCol), Opponent(Mover(w))))
    && (m.isPromotion <==> !m.isEnPassant && m.endRow == LastRow(w))
  }

  lemma PushFlagged(g: Grid, w: bool, ep: Option<Square>, r: int, c: int)
    requires WellFormed(g) && OnBoard(r, c) && 0 <= r + Forward(w) < 8
    ensures forall m :: m in PawnPush(g, w, r, c) ==> PawnFlagged(g, w, ep, r, c, m)
  {
  }

  lemma CaptureFlagged(g: Grid, w: bool, ep: Option<Square>, r: int, c: int, tc: int)
    requires WellFormed(g) && OnBoard(r, c) && 0 <= r + Forward(w) < 8 && tc != c
    ensures forall m :: m in PawnCapture(g, w, ep, r, c, tc) ==> PawnFlagged(g, w, ep, r, c, m)
  {
  }
}
