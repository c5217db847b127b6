/**
 * Concrete positions read through the rule functions: the corner mate by two
 * golds, the position of the checkmate test of the game's test suite.
 */
module Positions {
  import opened Wrappers
  import opened Pieces
  import opened Board
  import opened Rules

  /** The player's 王 in the corner (0, 0), the computer's 金 on (1, 0) and (1, 1), nothing else. */
  function CornerCell(r: int, c: int): Cell
  {
    if r == 0 && c == 0 then Some(Piece(King, Player, false))
    else if r == 1 && (c == 0 || c == 1) then Some(Piece(Gold, Cpu, false))
    else None
  }

  /** A side with a single king: `isKingInCheck` looks at that square. */
  lemma KingFound(b: Grid, s: Side, k: Pos)
    requires OnBoard(k.0, k.1) && IsKingOf(At(b, k.0, k.1), s)
    requires forall r, c :: OnBoard(r, c) && IsKingOf(At(b, r, c), s) ==> (r, c) == k
    ensures FindKing(b, s) == Some(k)
  {
    FindKingSound(b, s);
  }

  /** A piece of the opponent whose offset o lands on the king square found gives check. */
  lemma CheckedBy(b: Grid, s: Side, r: int, c: int, o: Offset)
    requires OnBoard(r, c) && At(b, r, c).Some? && At(b, r, c).value.owner == Opponent(s)
    requires o in Offsets(At(b, r, c).value.kind) && Emits(b, r, c, At(b, r, c).value, o)
    requires FindKing(b, s) == Some(Target(r, c, Opponent(s), o))
    ensures KingInCheck(b, s)
  {
    var p := At(b, r, c).value;
    PseudoMovesIff(b, r, c, Target(r, c, p.owner, o));
    KingInCheckIff(b, s);
    IdxRowCol(r, c);
    assert AttacksFrom(b, Idx(r, c), Opponent(s), FindKing(b, s).value);
  }

  /** No square of the first n holds a move of s: the board-move part of the list is empty. */
  lemma {:induction false} NoBoardMoves(b: Grid, s: Side, n: nat)
    requires n <= 81
    requires forall i :: 0 <= i < n ==> SquareMoves(b, s, i) == []
    ensures BoardMovesPrefix(b, s, n) == []
  {
    if n > 0 {
      NoBoardMoves(b, s, n - 1);
      var last := SquareMoves(b, s, n - 1);
      assert last == [];
      assert BoardMovesPrefix(b, s, n) == [] + last;
    }
  }

  /** The king's destinations from the corner: (0, 1), (1, 0) and (1, 1). */
  lemma CornerKingTargets(b: Grid, t: Pos)
    requires forall r, c :: OnBoard(r, c) ==> At(b, r, c) == CornerCell(r, c)
    requires t in PseudoMoves(b, 0, 0)
    ensures t == (0, 1) || t == (1, 0) || t == (1, 1)
  {
    PseudoMovesIff(b, 0, 0, t);
    var o :| o in KingOffsets() && Emits(b, 0, 0, Piece(King, Player, false), o) && Target(0, 0, Player, o) == t;
  }

  /** The board after the king steps from the corner to t: the king on t, the corner empty. */
  function EscapeCell(t: Pos, r: int, c: int): Cell
  {
    if (r, c) == t then Some(Piece(King, Player, false))
    else if r == 0 && c == 0 then None
    else CornerCell(r, c)
  }

  lemma EscapeBoard(b: Grid, t: Pos)
    requires forall r, c :: OnBoard(r, c) ==> At(b, r, c) == CornerCell(r, c)
    requires t == (0, 1) || t == (1, 0) || t == (1, 1)
    ensures forall r, c :: OnBoard(r, c) ==> At(Swapped(b, 0, 0, t), r, c) == EscapeCell(t, r, c)
  {
  }

  /** After the step the king on t is the player's only king. */
  lemma EscapeKing(e: Grid, t: Pos)
    requires t == (0, 1) || t == (1, 0) || t == (1, 1)
    requires forall r, c :: OnBoard(r, c) ==> At(e, r, c) == EscapeCell(t, r, c)
    ensures FindKing(e, Player) == Some(t)
  {
    assert forall r, c :: OnBoard(r, c) && IsKingOf(EscapeCell(t, r, c), Player) ==> (r, c) == t;
    KingFound(e, Player, t);
  }

  /** A computer gold whose offset o lands on the player's only king gives check. */
  lemma GoldChecks(e: Grid, gr: int, gc: int, o: Offset)
    requires OnBoard(gr, gc) && At(e, gr, gc) == Some(Piece(Gold, Cpu, false))
    requires o in GoldOffsets()
    requires var t := Target(gr, gc, Cpu, o);
      OnBoard(t.0, t.1) && At(e, t.0, t.1) == Some(Piece(King, Player, false)) && FindKing(e, Player) == Some(t)
    ensures KingInCheck(e, Player)
  {
    CheckedBy(e, Player, gr, gc, o);
  }

  /** Every move of the cornered king is answered by a gold: the move leaves the king in check. */
  lemma CornerKingEscapeFails(b: Grid, t: Pos)
    requires forall r, c :: OnBoard(r, c) ==> At(b, r, c) == CornerCell(r, c)
    requires t == (0, 1) || t == (1, 0) || t == (1, 1)
    ensures !LeavesSafe(b, 0, 0, Player, t)
  {
    var e := Swapped(b, 0, 0, t);
    EscapeBoard(b, t);
    EscapeKing(e, t);
    if t == (0, 1) {
      GoldChecks(e, 1, 1, (0, 1));
    } else if t == (1, 0) {
      GoldChecks(e, 1, 1, (1, 0));
    } else {
      GoldChecks(e, 1, 0, (-1, 0));
    }
  }

  /** The king in the corner has no legal destination. */
  lemma CornerKingStuck(b: Grid)
    requires forall r, c :: OnBoard(r, c) ==> At(b, r, c) == CornerCell(r, c)
    ensures ValidMoves(b, 0, 0, false) == []
  {
    var vm := ValidMoves(b, 0, 0, false);
    if |vm| > 0 {
      var t := vm[0];
      ValidMovesIff(b, 0, 0, t);
      CornerKingTargets(b, t);
      CornerKingEscapeFails(b, t);
      assert false;
    }
  }

  /** The king's square holds no move: the king is stuck. */
  lemma CornerKingSquare(b: Grid)
    requires forall r, c :: OnBoard(r, c) ==> At(b, r, c) == CornerCell(r, c)
    ensures SquareMoves(b, Player, 0) == []
  {
    CornerKingStuck(b);
    assert b[0] == At(b, 0, 0);
  }

  /** Every other square is empty or holds a computer gold. */
  lemma CornerOtherSquare(b: Grid, i: nat)
    requires forall r, c :: OnBoard(r, c) ==> At(b, r, c) == CornerCell(r, c)
    requires 0 < i < 81
    ensures SquareMoves(b, Player, i) == []
  {
    CornerNotPlayer(b, i);
  }

  /** Off the corner no square holds a piece of the player. */
  lemma CornerNotPlayer(b: Grid, i: nat)
    requires forall r, c :: OnBoard(r, c) ==> At(b, r, c) == CornerCell(r, c)
    requires 0 < i < 81
    ensures b[i].None? || b[i].value.owner == Cpu
  {
    RowColOf(i);
    var r, c := RowOf(i), ColOf(i);
    assert b[i] == At(b, r, c);
    assert (r, c) != (0, 0);
  }

  /** Only the king's square could hold a move of the player, and the king has none. */
  lemma CornerSquareMoves(b: Grid, i: nat)
    requires forall r, c :: OnBoard(r, c) ==> At(b, r, c) == CornerCell(r, c)
    requires i < 81
    ensures SquareMoves(b, Player, i) == []
  {
    if i == 0 {
      CornerKingSquare(b);
    } else {
      CornerOtherSquare(b, i);
    }
  }

  /** With an empty hand there is nothing to drop. */
  lemma EmptyHandNoDrops(b: Grid, s: Side)
    ensures AllLegalMoves(b, [], [], s) == BoardMovesPrefix(b, s, 81)
  {
    var kinds := Dedup(PoolOf([], [], s));
    assert DropsOfKinds(b, [], [], s, kinds, |kinds|) == [];
  }

  /** The player's only king stands in the corner, a gold right below it. */
  lemma CornerKing(b: Grid)
    requires forall r, c :: OnBoard(r, c) ==> At(b, r, c) == CornerCell(r, c)
    ensures FindKing(b, Player) == Some((0, 0))
  {
    assert forall r, c :: OnBoard(r, c) && IsKingOf(CornerCell(r, c), Player) ==> (r, c) == (0, 0);
    KingFound(b, Player, (0, 0));
  }

  /** The gold on (1, 0) checks the king on (0, 0). */
  lemma CornerInCheck(b: Grid)
    requires forall r, c :: OnBoard(r, c) ==> At(b, r, c) == CornerCell(r, c)
    ensures KingInCheck(b, Player)
  {
    CornerKing(b);
    assert At(b, 1, 0) == Some(Piece(Gold, Cpu, false));
    assert At(b, 0, 0) == Some(Piece(King, Player, false));
    GoldChecks(b, 1, 0, (0, 1));
  }

  /** The player has no legal move in the corner position. */
  lemma CornerNoMoves(b: Grid)
    requires forall r, c :: OnBoard(r, c) ==> At(b, r, c) == CornerCell(r, c)
    ensures |AllLegalMoves(b, [], [], Player)| == 0
  {
    forall i | 0 <= i < 81
      ensures SquareMoves(b, Player, i) == []
    {
      CornerSquareMoves(b, i);
    }
    NoBoardMoves(b, Player, 81);
    EmptyHandNoDrops(b, Player);
  }

  /**
   * The position of the test "頭金の詰み": golds on (1, 0) and (1, 1) mate
   * the player's king on (0, 0) with both hands empty. The king is in
   * check, and neither the king nor a drop escapes it.
   */
  lemma CornerGoldMate(b: Grid)
    requires forall r, c :: OnBoard(r, c) ==> At(b, r, c) == CornerCell(r, c)
    ensures Checkmate(b, [], [], Player)
  {
    CornerInCheck(b);
    CornerNoMoves(b);
  }
}
