/** Board cells, squares and the 8x8 grid shared by both engines.

    The source stores the board as a list of eight lists of two-letter strings:
    "--" for an empty cell, otherwise a colour letter ('w' or 'b') followed by a
    kind letter ('P', 'N', 'B', 'R', 'Q', 'K'). Here a cell is a `Piece`. */
module Pieces {

  datatype Option<T> = None | Some(value: T)

  datatype Color = White | Black

  datatype Kind = Pawn | Knight | Bishop | Rook | Queen | King

  /** "--" is `Empty`; "wP" is `P(White, Pawn)` and so on. */
  datatype Piece = Empty | P(color: Color, kind: Kind)

  /** A (row, column) pair; row 0 is Black's back rank, row 7 White's. */
  datatype Square = Square(row: int, col: int)

  function Opponent(c: Color): Color {
    if c == White then Black else White
  }

  /** The colour whose pieces move when `whitesMove` has the given value. */
  function Mover(whitesMove: bool): Color {
    if whitesMove then White else Black
  }

  /** `piece[0] == colorLetter`: the cell holds a piece of colour `c`. */
  predicate IsColor(p: Piece, c: Color) {
    p.P? && p.color == c
  }

  predicate OnBoard(r: int, c: int) {
    0 <= r < 8 && 0 <= c < 8
  }

  type Grid = seq<seq<Piece>>

  predicate WellFormed(g: Grid) {
    |g| == 8 && forall r :: 0 <= r < 8 ==> |g[r]| == 8
  }

  /** `board[r][c]` */
  function At(g: Grid, r: int, c: int): Piece
    requires WellFormed(g) && OnBoard(r, c)
  {
    g[r][c]
  }

  /** `board[r][c] = p`, as a value. */
  function Put(g: Grid, r: int, c: int, p: Piece): (h: Grid)
    requires WellFormed(g) && OnBoard(r, c)
    ensures WellFormed(h)
    ensures forall r', c' :: OnBoard(r', c') ==>
      At(h, r', c') == if r' == r && c' == c then p else At(g, r', c')
  {
    g[r := g[r][c := p]]
  }

  /** Two grids that agree on every cell are the same grid. */
  lemma GridExt(g: Grid, h: Grid)
    requires WellFormed(g) && WellFormed(h)
    requires forall r, c :: OnBoard(r, c) ==> At(g, r, c) == At(h, r, c)
    ensures g == h
  {
    forall r | 0 <= r < 8
      ensures g[r] == h[r]
    {
      forall c | 0 <= c < 8
        ensures g[r][c] == h[r][c]
      {
        assert At(g, r, c) == At(h, r, c);
      }
    }
  }

  /** Concatenation is associative; the solver does not always regroup on its own. */
  lemma AppendAssoc<T>(a: seq<T>, b: seq<T>, c: seq<T>)
    ensures (a + b) + c == a + (b + c)
  {
  }

  lemma SliceCons<T>(s: seq<T>, k: int)
    requires 0 <= k < |s|
    ensures s[k..] == [s[k]] + s[k + 1..]
  {
  }

  lemma SliceSnoc<T>(s: seq<T>, k: int)
    requires 0 <= k < |s|
    ensures s[..k + 1] == s[..k] + [s[k]]
  {
  }

  /** The back rank, file by file: R N B Q K B N R. */
  function BackRank(c: int): Kind {
    if c == 0 || c == 7 then Rook
    else if c == 1 || c == 6 then Knight
    else if c == 2 || c == 5 then Bishop
    else if c == 3 then Queen
    else King
  }

  /** The cell at (r, c) in the initial board of `Game.__init__`. */
  function StartPiece(r: int, c: int): Piece {
    if r == 0 then P(Black, BackRank(c))
    else if r == 1 then P(Black, Pawn)
    else if r == 6 then P(White, Pawn)
    else if r == 7 then P(White, BackRank(c))
    else Empty
  }

  function StartGrid(): (g: Grid)
    ensures WellFormed(g)
    ensures forall r, c :: OnBoard(r, c) ==> At(g, r, c) == StartPiece(r, c)
  {
    seq(8, r => seq(8, c => StartPiece(r, c)))
  }
}
