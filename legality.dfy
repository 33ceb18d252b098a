/** `getValidMoves` as a value: the candidate moves (pseudo-legal moves plus
    castles), the test that rejects a candidate, and the backward sweep that
    removes the rejected ones from the list. */
module Legality {
  import opened Pieces
  import opened Moves
  import opened Generation
  import opened Positions

  function KingSideRight(p: Position): bool {
    if p.whiteToMove then p.rights.wks else p.rights.bks
  }

  function QueenSideRight(p: Position): bool {
    if p.whiteToMove then p.rights.wqs else p.rights.bqs
  }

  /** `squareUnderAttack(row, column)`: the opponent of the side to move has a
      pseudo-legal move onto the square. */
  predicate UnderAttack(p: Position, r: int, c: int)
    requires Sane(p)
  {
    Attacked(p.grid, !p.whiteToMove, p.enPassant, r, c)
  }

  /** `Move((row, column), (row, endColumn), self.board, isCastle=True)` */
  function CastleMove(p: Position, r: int, c: int, ec: int): Move
    requires WellFormed(p.grid) && OnBoard(r, c) && OnBoard(r, ec)
  {
    MoveOn(p.grid, Square(r, c), Square(r, ec), false, false, true)
  }

  /** `getKingSideCastleMoves`: the two cells towards the rook are empty and
      neither is attacked. */
  function KingSideCastle(p: Position, r: int, c: int): (ms: seq<Move>)
    requires Sane(p) && OnBoard(r, c) && c <= 5
    ensures ms == [] || ms == [CastleMove(p, r, c, c + 2)]
  {
    if At(p.grid, r, c + 1) == Empty && At(p.grid, r, c + 2) == Empty
       && !UnderAttack(p, r, c + 1) && !UnderAttack(p, r, c + 2)
    then [MoveOn(p.grid, Square(r, c), Square(r, c + 2), false, false, true)]
    else []
  }

  /** `getQueenSideCastleMoves`: the three cells towards the rook are empty and
      the two the king crosses are not attacked. */
  function QueenSideCastle(p: Position, r: int, c: int): (ms: seq<Move>)
    requires Sane(p) && OnBoard(r, c) && c >= 3
    ensures ms == [] || ms == [CastleMove(p, r, c, c - 2)]
  {
    if At(p.grid, r, c - 1) == Empty && At(p.grid, r, c - 2) == Empty && At(p.grid, r, c - 3) == Empty
       && !UnderAttack(p, r, c - 1) && !UnderAttack(p, r, c - 2)
    then [MoveOn(p.grid, Square(r, c), Square(r, c - 2), false, false, true)]
    else []
  }

  /** `getCastleMoves(row, column, moves)`, called with the cached square of the
      king of the side to move: nothing while that square is attacked, else
      the king-side castle when that right is kept, then the queen-side one. */
  function CastleMoves(p: Position, r: int, c: int): (ms: seq<Move>)
    requires Sane(p) && Square(r, c) == KingOf(p, p.whiteToMove)
    ensures ms != [] ==>
              c == 4 && (ms == [CastleMove(p, r, c, c + 2)] || ms == [CastleMove(p, r, c, c - 2)]
                         || ms == [CastleMove(p, r, c, c + 2), CastleMove(p, r, c, c - 2)])
  {
    if UnderAttack(p, r, c) then []
    else
      (if KingSideRight(p) then KingSideCastle(p, r, c) else [])
      + (if QueenSideRight(p) then QueenSideCastle(p, r, c) else [])
  }

  /** A castle is offered exactly when the king is not in check, the right is
      kept, the cells towards the rook are empty and the cells the king crosses
      are not attacked. */
  lemma CastleGate(p: Position, r: int, c: int)
    requires Sane(p) && Square(r, c) == KingOf(p, p.whiteToMove)
    ensures EndsOn(CastleMoves(p, r, c), r, c + 2) <==>
              !UnderAttack(p, r, c) && KingSideRight(p)
              && At(p.grid, r, c + 1) == Empty && At(p.grid, r, c + 2) == Empty
              && !UnderAttack(p, r, c + 1) && !UnderAttack(p, r, c + 2)
    ensures EndsOn(CastleMoves(p, r, c), r, c - 2) <==>
              !UnderAttack(p, r, c) && QueenSideRight(p)
              && At(p.grid, r, c - 1) == Empty && At(p.grid, r, c - 2) == Empty && At(p.grid, r, c - 3) == Empty
              && !UnderAttack(p, r, c - 1) && !UnderAttack(p, r, c - 2)
  {
    var ms := CastleMoves(p, r, c);
    if !UnderAttack(p, r, c) {
      var ks := if KingSideRight(p) then KingSideCastle(p, r, c) else [];
      var qs := if QueenSideRight(p) then QueenSideCastle(p, r, c) else [];
      assert ms == ks + qs;
      EndsOnAppend(ks, qs, r, c + 2);
      EndsOnAppend(ks, qs, r, c - 2);
      KingSideGate(p, r, c);
      QueenSideGate(p, r, c);
    } else {
      EndsOnSingle(ms, r, c + 2);
      EndsOnSingle(ms, r, c - 2);
    }
  }

  /** The king-side list holds the castle onto column c + 2 exactly when its
      cells are free and safe, and never one onto column c - 2. */
  lemma KingSideGate(p: Position, r: int, c: int)
    requires Sane(p) && Square(r, c) == KingOf(p, p.whiteToMove)
    ensures var ks := if KingSideRight(p) then KingSideCastle(p, r, c) else [];
      (EndsOn(ks, r, c + 2) <==>
         KingSideRight(p) && At(p.grid, r, c + 1) == Empty && At(p.grid, r, c + 2) == Empty
         && !UnderAttack(p, r, c + 1) && !UnderAttack(p, r, c + 2))
      && !EndsOn(ks, r, c - 2)
  {
    var ks := if KingSideRight(p) then KingSideCastle(p, r, c) else [];
    EndsOnSingle(ks, r, c + 2);
    EndsOnSingle(ks, r, c - 2);
  }

  /** The queen-side list holds the castle onto column c - 2 exactly when its
      cells are free and safe, and never one onto column c + 2. */
  lemma QueenSideGate(p: Position, r: int, c: int)
    requires Sane(p) && Square(r, c) == KingOf(p, p.whiteToMove)
    ensures var qs := if QueenSideRight(p) then QueenSideCastle(p, r, c) else [];
      (EndsOn(qs, r, c - 2) <==>
         QueenSideRight(p) && At(p.grid, r, c - 1) == Empty && At(p.grid, r, c - 2) == Empty
         && At(p.grid, r, c - 3) == Empty && !UnderAttack(p, r, c - 1) && !UnderAttack(p, r, c - 2))
      && !EndsOn(qs, r, c + 2)
  {
    var qs := if QueenSideRight(p) then QueenSideCastle(p, r, c) else [];
    EndsOnSingle(qs, r, c + 2);
    EndsOnSingle(qs, r, c - 2);
  }

  /** The list `getValidMoves` starts from: `getAllPossibleMoves()` followed by
      the castles of the side to move. */
  function Candidates(p: Position): seq<Move>
    requires Sane(p)
  {
    AllPossibleMoves(p.grid, p.whiteToMove, p.enPassant)
      + CastleMoves(p, KingOf(p, p.whiteToMove).row, KingOf(p, p.whiteToMove).col)
  }

  /** The test of the sweep: after `makeMove(m)` and one turn flip back,
      `inCheck()` holds, i.e. the mover's king square (as cached after the move)
      is attacked by the other side on the new board. */
  predicate IllegalAfter(p: Position, m: Move)
    requires Sane(p) && Applicable(p, m)
  {
    MakePreservesSane(p, m);
    var q := MakePos(p, m);
    Attacked(q.grid, !p.whiteToMove, q.enPassant, KingOf(q, p.whiteToMove).row, KingOf(q, p.whiteToMove).col)
  }

  /** `IllegalAfter` as the verdict the sweep applies; it rejects nothing it
      cannot apply. */
  function InCheckAfter(p: Position): Move -> bool {
    m => Sane(p) && Applicable(p, m) && IllegalAfter(p, m)
  }

  /** The list `getValidMoves` returns in `p`: the candidates after the backward
      sweep with the `IllegalAfter` verdict. */
  function ValidMoves(p: Position): seq<Move>
    requires Sane(p)
  {
    var cs := Candidates(p);
    Sweep(cs, |cs|, InCheckAfter(p))
  }

  predicate AllApplicable(p: Position, ms: seq<Move>)
    requires Sane(p)
  {
    forall m :: m in ms ==> Applicable(p, m)
  }

  /** `inCheck()`: the king of the side to move stands on an attacked square. */
  predicate InCheck(p: Position)
    requires Sane(p)
  {
    UnderAttack(p, KingOf(p, p.whiteToMove).row, KingOf(p, p.whiteToMove).col)
  }

  /** Some element of the list equals `x` under `Move.__eq__`, so that
      `list.index(x)` and `list.remove(x)` do not raise. */
  predicate HasSame(ms: seq<Move>, x: Move) {
    exists i :: 0 <= i < |ms| && SameMove(ms[i], x)
  }

  /** An element equal to `x` that is not the first one is in the tail. */
  lemma InTail(ms: seq<Move>, x: Move)
    requires HasSame(ms, x) && !SameMove(ms[0], x)
    ensures HasSame(ms[1..], x)
  {
    var i :| 0 <= i < |ms| && SameMove(ms[i], x);
    assert i > 0 && ms[1..][i - 1] == ms[i];
  }

  /** The index `list.index(x)` finds: the first element equal to `x` under
      `Move.__eq__`. */
  function FirstSame(ms: seq<Move>, x: Move): (j: nat)
    requires HasSame(ms, x)
    ensures j < |ms| && SameMove(ms[j], x)
    ensures forall k :: 0 <= k < j ==> !SameMove(ms[k], x)
  {
    if SameMove(ms[0], x) then 0
    else
      InTail(ms, x);
      1 + FirstSame(ms[1..], x)
  }

  /** Cutting element `j` out of the tail and putting the head back cuts
      element `j + 1` out of the whole list. */
  lemma SpliceCons(ms: seq<Move>, j: int)
    requires 0 <= j < |ms| - 1
    ensures [ms[0]] + (ms[1..][..j] + ms[1..][j + 1..]) == ms[..j + 1] + ms[j + 2..]
  {
    assert [ms[0]] + ms[1..][..j] == ms[..j + 1];
    assert ms[1..][j + 1..] == ms[j + 2..];
  }

  /** `list.remove(x)`: drops the first element equal to `x` under `Move.__eq__`. */
  function RemoveFirst(ms: seq<Move>, x: Move): (rs: seq<Move>)
    requires HasSame(ms, x)
    ensures rs == ms[..FirstSame(ms, x)] + ms[FirstSame(ms, x) + 1..]
    ensures |rs| == |ms| - 1 && forall m :: m in rs ==> m in ms
  {
    if SameMove(ms[0], x) then ms[1..]
    else
      InTail(ms, x);
      SpliceCons(ms, FirstSame(ms[1..], x));
      [ms[0]] + RemoveFirst(ms[1..], x)
  }

  /** The backward loop of `getValidMoves` from `i` down to 0: each
      `moves[i - 1]` the verdict `bad` rejects is removed with `moves.remove`. */
  function Sweep(ms: seq<Move>, i: nat, bad: Move -> bool): seq<Move>
    requires i <= |ms|
    decreases i
  {
    if i == 0 then ms
    else if bad(ms[i - 1]) then
      assert SameMove(ms[i - 1], ms[i - 1]);
      Sweep(RemoveFirst(ms, ms[i - 1]), i - 1, bad)
    else Sweep(ms, i - 1, bad)
  }

  /** The moves of `ms` that `bad` does not reject, in their order. */
  function Keep(ms: seq<Move>, bad: Move -> bool): (rs: seq<Move>)
    ensures forall m :: m in rs <==> m in ms && !bad(m)
    ensures |rs| <= |ms|
  {
    if ms == [] then []
    else (if bad(ms[0]) then [] else [ms[0]]) + Keep(ms[1..], bad)
  }

  /** No two moves of the list are equal under `Move.__eq__`. */
  predicate Distinct(ms: seq<Move>) {
    forall i, j :: 0 <= i < j < |ms| ==> !SameMove(ms[i], ms[j])
  }

  lemma {:induction false} KeepAppend(a: seq<Move>, b: seq<Move>, bad: Move -> bool)
    ensures Keep(a + b, bad) == Keep(a, bad) + Keep(b, bad)
    decreases |a|
  {
    if a == [] {
      assert a + b == b;
    } else {
      assert (a + b)[0] == a[0] && (a + b)[1..] == a[1..] + b;
      KeepAppend(a[1..], b, bad);
      AppendAssoc(if bad(a[0]) then [] else [a[0]], Keep(a[1..], bad), Keep(b, bad));
    }
  }

  lemma KeepSingle(x: Move, bad: Move -> bool)
    ensures Keep([x], bad) == if bad(x) then [] else [x]
  {
    assert [x][1..] == [];
  }

  lemma DistinctSplice(ms: seq<Move>, j: int)
    requires Distinct(ms) && 0 <= j < |ms|
    ensures Distinct(ms[..j] + ms[j + 1..])
  {
    var rs := ms[..j] + ms[j + 1..];
    forall a, b | 0 <= a < b < |rs|
      ensures !SameMove(rs[a], rs[b])
    {
      var a' := if a < j then a else a + 1;
      var b' := if b < j then b else b + 1;
      assert rs[a] == ms[a'] && rs[b] == ms[b'];
    }
  }

  /** On a list without two equal moves, `list.remove(moves[i])` removes exactly
      the element at `i`. */
  lemma RemoveAtIndex(ms: seq<Move>, i: int)
    requires Distinct(ms) && 0 <= i < |ms|
    ensures HasSame(ms, ms[i])
    ensures RemoveFirst(ms, ms[i]) == ms[..i] + ms[i + 1..]
  {
    assert SameMove(ms[i], ms[i]);
    var j := FirstSame(ms, ms[i]);
    assert SameMove(ms[j], ms[i]);
  }

  /** The backward sweep of `getValidMoves` is a filter: when no two candidates
      are equal under `Move.__eq__`, it keeps exactly the candidates the verdict
      does not reject, in their original order, and leaves the part of the
      list it has not reached yet as it was. */
  lemma {:induction false} SweepIsFilter(ms: seq<Move>, i: nat, bad: Move -> bool)
    requires Distinct(ms) && i <= |ms|
    ensures Sweep(ms, i, bad) == Keep(ms[..i], bad) + ms[i..]
    decreases i
  {
    if i == 0 {
      assert ms[..0] == [];
    } else {
      var x := ms[i - 1];
      SliceSnoc(ms, i - 1);
      KeepAppend(ms[..i - 1], [x], bad);
      KeepSingle(x, bad);
      if bad(x) {
        DropStep(ms, i, bad);
      } else {
        SweepIsFilter(ms, i - 1, bad);
        SliceCons(ms, i - 1);
        AppendAssoc(Keep(ms[..i - 1], bad), [x], ms[i..]);
      }
    }
  }

  /** The case of `SweepIsFilter` where the sweep removes `ms[i - 1]`. */
  lemma {:induction false} DropStep(ms: seq<Move>, i: nat, bad: Move -> bool)
    requires Distinct(ms) && 0 < i <= |ms| && bad(ms[i - 1])
    ensures Sweep(ms, i, bad) == Keep(ms[..i - 1], bad) + ms[i..]
    decreases i, 0
  {
    var rs := ms[..i - 1] + ms[i..];
    RemoveAtIndex(ms, i - 1);
    DistinctSplice(ms, i - 1);
    SweepIsFilter(rs, i - 1, bad);
    assert rs[..i - 1] == ms[..i - 1] && rs[i - 1..] == ms[i..];
  }

  /** The whole sweep keeps exactly the moves `bad` does not reject. */
  lemma SweepKeeps(ms: seq<Move>, bad: Move -> bool)
    requires Distinct(ms)
    ensures Sweep(ms, |ms|, bad) == Keep(ms, bad)
  {
    SweepIsFilter(ms, |ms|, bad);
    assert ms[..|ms|] == ms && ms[|ms|..] == [];
  }

  /** One step of the sweep on a list without two equal moves: `ms[i]` is
      removed exactly when `bad` rejects it, and the part before it is kept. */
  lemma SweepStep(ms: seq<Move>, i: int, bad: Move -> bool)
    requires Distinct(ms) && 0 <= i < |ms|
    ensures var rs := if bad(ms[i]) then ms[..i] + ms[i + 1..] else ms;
              Sweep(ms, i + 1, bad) == Sweep(rs, i, bad) && i <= |rs|
              && Distinct(rs) && forall k :: 0 <= k < i ==> rs[k] == ms[k]
  {
    if bad(ms[i]) {
      RemoveAtIndex(ms, i);
      DistinctSplice(ms, i);
    }
  }
}
