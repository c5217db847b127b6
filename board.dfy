/**
 * The 9x9 board. The source keeps `board[row][col]`, row 0 at the top (the
 * computer's back rank) and column 0 at the left; here the same squares are
 * stored row-major in one sequence of 81 cells, square (r, c) at r * 9 + c.
 */
module Board {
  import opened Wrappers
  import opened Pieces

  /** A square: `null` or a piece. */
  type Cell = Option<Piece>

  /** A board: exactly 81 squares. */
  type Grid = b: seq<Cell> | |b| == 81 witness seq(81, _ => None)

  predicate OnBoard(r: int, c: int)
  {
    0 <= r < 9 && 0 <= c < 9
  }

  function Idx(r: int, c: int): (i: nat)
    requires OnBoard(r, c)
    ensures i < 81
  {
    r * 9 + c
  }

  lemma IdxInjective(r: int, c: int, r': int, c': int)
    requires OnBoard(r, c) && OnBoard(r', c')
    ensures Idx(r, c) == Idx(r', c') <==> r == r' && c == c'
  {
    if r < r' {
      assert Idx(r, c) < (r + 1) * 9 <= Idx(r', c');
    } else if r' < r {
      assert Idx(r', c') < (r' + 1) * 9 <= Idx(r, c);
    }
  }

  function At(b: Grid, r: int, c: int): Cell
    requires OnBoard(r, c)
  {
    b[Idx(r, c)]
  }

  /** `board[r][c] = x`, every other square unchanged. */
  function Put(b: Grid, r: int, c: int, x: Cell): (b': Grid)
    requires OnBoard(r, c)
    ensures At(b', r, c) == x
    ensures forall r', c' :: OnBoard(r', c') && (r' != r || c' != c) ==> At(b', r', c') == At(b, r', c')
  {
    IdxInjectiveAll(r, c);
    b[Idx(r, c) := x]
  }

  lemma IdxInjectiveAll(r: int, c: int)
    requires OnBoard(r, c)
    ensures forall r', c' :: OnBoard(r', c') && (r' != r || c' != c) ==> Idx(r', c') != Idx(r, c)
  {
    forall r', c' | OnBoard(r', c') && (r' != r || c' != c)
      ensures Idx(r', c') != Idx(r, c)
    {
      IdxInjective(r, c, r', c');
    }
  }

  /** The square a row-major index stands for. */
  function RowOf(i: nat): int { i / 9 }
  function ColOf(i: nat): int { i % 9 }

  lemma RowColOf(i: nat)
    requires i < 81
    ensures OnBoard(RowOf(i), ColOf(i)) && Idx(RowOf(i), ColOf(i)) == i
  {
  }

  lemma IdxRowCol(r: int, c: int)
    requires OnBoard(r, c)
    ensures RowOf(Idx(r, c)) == r && ColOf(Idx(r, c)) == c
  {
    RowColOf(Idx(r, c));
    IdxInjective(r, c, RowOf(Idx(r, c)), ColOf(Idx(r, c)));
  }

  function Unpromoted(t: PieceType, s: Side): Cell
  {
    Some(Piece(t, s, false))
  }

  /** The back rank, read left to right, with the side's own king glyph in the middle. */
  function BackRank(c: int, king: PieceType): PieceType
  {
    if c == 0 || c == 8 then Lance
    else if c == 1 || c == 7 then Knight
    else if c == 2 || c == 6 then Silver
    else if c == 3 || c == 5 then Gold
    else king
  }

  /** The square (r, c) of the starting position of `initializeBoard`. */
  function InitialCell(r: int, c: int): Cell
  {
    if r == 0 then Unpromoted(BackRank(c, Jewel), Cpu)
    else if r == 1 && c == 1 then Unpromoted(Rook, Cpu)
    else if r == 1 && c == 7 then Unpromoted(Bishop, Cpu)
    else if r == 2 then Unpromoted(Pawn, Cpu)
    else if r == 6 then Unpromoted(Pawn, Player)
    else if r == 7 && c == 7 then Unpromoted(Rook, Player)
    else if r == 7 && c == 1 then Unpromoted(Bishop, Player)
    else if r == 8 then Unpromoted(BackRank(c, King), Player)
    else None
  }

  function InitialBoard(): (b: Grid)
    ensures forall r, c :: OnBoard(r, c) ==> At(b, r, c) == InitialCell(r, c)
  {
    seq(81, i requires 0 <= i < 81 => InitialCell(i / 9, i % 9))
  }

  /**
   * The starting layout: rows 0-2 hold the computer's pieces and rows 6-8 the
   * player's, rows 3-5 are empty, rows 2 and 6 are all pawns, none is
   * promoted, and the only kings are the computer's 玉 at (0, 4) and the
   * player's 王 at (8, 4).
   */
  lemma InitialLayout()
    ensures var b := InitialBoard();
      forall r, c :: OnBoard(r, c) ==>
        (At(b, r, c).Some? <==> r == 0 || r == 2 || r == 6 || r == 8 || ((r == 1 || r == 7) && (c == 1 || c == 7)))
    ensures var b := InitialBoard();
      forall r, c :: OnBoard(r, c) && At(b, r, c).Some? ==>
        At(b, r, c).value.owner == (if r < 3 then Cpu else Player) && !At(b, r, c).value.promoted
        && ((r == 2 || r == 6) <==> At(b, r, c).value.kind == Pawn)
        && (IsKing(At(b, r, c).value.kind) <==> c == 4 && (r == 0 || r == 8))
    ensures At(InitialBoard(), 0, 4) == Some(Piece(Jewel, Cpu, false))
    ensures At(InitialBoard(), 8, 4) == Some(Piece(King, Player, false))
  {
  }
}
