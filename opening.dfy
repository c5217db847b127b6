/**
 * The starting position of `initializeBoard` read through the rule
 * functions: the player, to move first with empty hands, has exactly 30
 * legal moves (nine pawn pushes, six rook moves, one for each lance, two for
 * each silver, three for each gold and three for the king).
 */
module Opening {
  import opened Wrappers
  import opened Pieces
  import opened Board
  import opened Rules
  import Positions

  ghost predicate IsInitial(b: Grid)
  {
    forall r, c :: OnBoard(r, c) ==> At(b, r, c) == InitialCell(r, c)
  }

  /** The computer's three rows are as at the start. */
  ghost predicate TopRowsInitial(g: Grid)
  {
    forall r, c :: OnBoard(r, c) && r <= 2 ==> At(g, r, c) == InitialCell(r, c)
  }

  // ---------------------------------------------------------------------
  // The computer's pieces reach no further than row 3
  // ---------------------------------------------------------------------

  lemma RayMember(dx: int, dy: int, o: Offset)
    requires o in Ray(dx, dy)
    ensures exists k :: 1 <= k <= 8 && o == (dx * k, dy * k)
  {
    var j :| 0 <= j < 8 && Ray(dx, dy)[j] == o;
    assert o == (dx * (j + 1), dy * (j + 1));
  }

  /** A lance of the computer in a corner of row 0 is stopped by its own pawn on row 2. */
  lemma LanceReach(g: Grid, c: int, o: Offset)
    requires TopRowsInitial(g) && (c == 0 || c == 8)
    requires o in Ray(0, -1) && Emits(g, 0, c, Piece(Lance, Cpu, false), o)
    ensures Target(0, c, Cpu, o).0 <= 3
  {
    RayMember(0, -1, o);
    var k :| 1 <= k <= 8 && o == (0 * k, -1 * k);
    assert At(g, 2, c) == InitialCell(2, c);
    assert !StepFree(g, 0, c, Cpu, o, 2);
  }

  /** Downwards the computer's rook on (1, 1) runs into its own pawn on (2, 1) at once. */
  lemma RookDownBlocked(g: Grid, o: Offset)
    requires TopRowsInitial(g) && o in Ray(0, -1)
    ensures !Emits(g, 1, 1, Piece(Rook, Cpu, false), o)
  {
    RayMember(0, -1, o);
    var k :| 1 <= k <= 8 && o == (0 * k, -1 * k);
    assert At(g, 2, 1) == InitialCell(2, 1);
    assert !StepFree(g, 1, 1, Cpu, o, 1);
  }

  /** The computer's rook on (1, 1) is stopped downwards by its pawn on (2, 1). */
  lemma RookReach(g: Grid, o: Offset)
    requires TopRowsInitial(g)
    requires o in Offsets(Rook) && Emits(g, 1, 1, Piece(Rook, Cpu, false), o)
    ensures Target(1, 1, Cpu, o).0 <= 3
  {
    if o in Ray(0, -1) {
      RookDownBlocked(g, o);
      assert false;
    } else if o in Ray(0, 1) {
      RayMember(0, 1, o);
    } else if o in Ray(-1, 0) {
      RayMember(-1, 0, o);
    } else {
      assert o in Ray(1, 0);
      RayMember(1, 0, o);
    }
  }

  /** Downwards the computer's bishop on (1, 7) runs into its own pawns on (2, 6) and (2, 8) at once. */
  lemma BishopDownBlocked(g: Grid, o: Offset)
    requires TopRowsInitial(g) && (o in Ray(-1, -1) || o in Ray(1, -1))
    ensures !Emits(g, 1, 7, Piece(Bishop, Cpu, false), o)
  {
    if o in Ray(-1, -1) {
      RayMember(-1, -1, o);
      var k :| 1 <= k <= 8 && o == (-1 * k, -1 * k);
      assert At(g, 2, 8) == InitialCell(2, 8);
      assert !StepFree(g, 1, 7, Cpu, o, 1);
    } else {
      RayMember(1, -1, o);
      var k :| 1 <= k <= 8 && o == (1 * k, -1 * k);
      assert At(g, 2, 6) == InitialCell(2, 6);
      assert !StepFree(g, 1, 7, Cpu, o, 1);
    }
  }

  /** The computer's bishop on (1, 7) is stopped downwards by its pawns on (2, 6) and (2, 8). */
  lemma BishopReach(g: Grid, o: Offset)
    requires TopRowsInitial(g)
    requires o in Offsets(Bishop) && Emits(g, 1, 7, Piece(Bishop, Cpu, false), o)
    ensures Target(1, 7, Cpu, o).0 <= 3
  {
    if o in Ray(-1, -1) || o in Ray(1, -1) {
      BishopDownBlocked(g, o);
      assert false;
    } else if o in Ray(-1, 1) {
      RayMember(-1, 1, o);
    } else {
      assert o in Ray(1, 1);
      RayMember(1, 1, o);
    }
  }

  /** An offset of a computer piece of the starting rows lands on row 3 or above. */
  lemma CpuOffsetReach(g: Grid, r: int, c: int, o: Offset)
    requires TopRowsInitial(g)
    requires OnBoard(r, c) && r <= 2 && At(g, r, c).Some?
    requires o in Offsets(At(g, r, c).value.kind) && Emits(g, r, c, At(g, r, c).value, o)
    ensures Target(r, c, Cpu, o).0 <= 3
  {
    assert At(g, r, c) == InitialCell(r, c);
    if r == 1 {
      if c == 1 {
        RookReach(g, o);
      } else {
        BishopReach(g, o);
      }
    } else if r == 0 && (c == 0 || c == 8) {
      LanceReach(g, c, o);
    }
  }

  /** Every destination of a computer piece of the starting rows lies on row 3 or above. */
  lemma CpuReach(g: Grid, r: int, c: int, t: Pos)
    requires TopRowsInitial(g)
    requires OnBoard(r, c) && r <= 2 && At(g, r, c).Some?
    requires t in PseudoMoves(g, r, c)
    ensures t.0 <= 3
  {
    var p := At(g, r, c).value;
    PseudoMovesIff(g, r, c, t);
    var o :| o in Offsets(p.kind) && Emits(g, r, c, p, o) && Target(r, c, p.owner, o) == t;
    assert At(g, r, c) == InitialCell(r, c);
    CpuOffsetReach(g, r, c, o);
  }

  // ---------------------------------------------------------------------
  // No move of the player from the start exposes the king
  // ---------------------------------------------------------------------

  /** After moving a piece of rows 6..8 to a square of row 4 or below, the king stands alone on row 4 or below. */
  lemma SwappedKing(b: Grid, r: int, c: int, t: Pos)
    requires IsInitial(b) && OnBoard(r, c) && r >= 6 && OnBoard(t.0, t.1) && t.0 >= 4 && At(b, t.0, t.1).None?
    ensures var g := Swapped(b, r, c, t);
      FindKing(g, Player) == Some(if (r, c) == (8, 4) then t else (8, 4))
  {
    var g := Swapped(b, r, c, t);
    var k := if (r, c) == (8, 4) then t else (8, 4);
    assert At(b, r, c) == InitialCell(r, c);
    assert At(b, 8, 4) == InitialCell(8, 4);
    forall rr, cc | OnBoard(rr, cc) && IsKingOf(At(g, rr, cc), Player)
      ensures (rr, cc) == k
    {
      if (rr, cc) != t {
        assert At(b, rr, cc) == InitialCell(rr, cc);
      }
    }
    Positions.KingFound(g, Player, k);
  }

  /** A move of the player from the start to row 4 or below leaves the king out of check. */
  lemma OpeningSwapSafe(b: Grid, r: int, c: int, t: Pos)
    requires IsInitial(b) && OnBoard(r, c) && r >= 6 && OnBoard(t.0, t.1) && t.0 >= 4 && At(b, t.0, t.1).None?
    ensures LeavesSafe(b, r, c, Player, t)
  {
    var g := Swapped(b, r, c, t);
    assert TopRowsInitial(g) by {
      forall rr, cc | OnBoard(rr, cc) && rr <= 2
        ensures At(g, rr, cc) == InitialCell(rr, cc)
      {
        assert At(b, rr, cc) == InitialCell(rr, cc);
      }
    }
    SwappedKing(b, r, c, t);
    var k := FindKing(g, Player).value;
    KingInCheckIff(g, Player);
    if KingInCheck(g, Player) {
      var i :| 0 <= i < 81 && AttacksFrom(g, i, Cpu, k);
      RowColOf(i);
      var rr, cc := RowOf(i), ColOf(i);
      assert At(g, rr, cc) == g[i];
      CpuReach(g, rr, cc, k);
      assert false;
    }
  }

  // ---------------------------------------------------------------------
  // The destinations of the player's pieces at the start
  // ---------------------------------------------------------------------

  /** The k-th square from (r, c) in direction (dx, dy), seen from side s. */
  function RaySquare(r: int, c: int, s: Side, dx: int, dy: int, k: int): Pos
  {
    (r + Dir(s, Scale(dy, k)), c + Dir(s, Scale(dx, k)))
  }

  /** The first f squares of a ray. */
  function RayTargets(r: int, c: int, s: Side, dx: int, dy: int, f: nat): (ts: seq<Pos>)
    ensures |ts| == f && forall j :: 0 <= j < f ==> ts[j] == RaySquare(r, c, s, dx, dy, j + 1)
  {
    seq(f, j => RaySquare(r, c, s, dx, dy, j + 1))
  }

  predicate SquareFree(b: Grid, t: Pos)
  {
    OnBoard(t.0, t.1) && At(b, t.0, t.1) == None
  }

  /** A ray of side s ends before t: t is off the board or holds a piece of s. */
  predicate SquareStops(b: Grid, t: Pos, s: Side)
  {
    !OnBoard(t.0, t.1) || (At(b, t.0, t.1).Some? && At(b, t.0, t.1).value.owner == s)
  }

  /** Offset m of a ray: its target is the m-th square, and its steps are the squares before it. */
  lemma RayOffset(b: Grid, r: int, c: int, s: Side, dx: int, dy: int, m: int)
    requires -1 <= dx <= 1 && -1 <= dy <= 1 && (dx != 0 || dy != 0) && 1 <= m <= 8
    ensures var o := Ray(dx, dy)[m - 1];
      Steps(o) == m && Target(r, c, s, o) == RaySquare(r, c, s, dx, dy, m)
      && forall k :: StepFree(b, r, c, s, o, k) <==> SquareFree(b, RaySquare(r, c, s, dx, dy, k))
  {
    RayEntry(dx, dy, m);
    ScaledOffset(b, r, c, s, dx, dy, m);
  }

  lemma RayEntry(dx: int, dy: int, m: int)
    requires -1 <= dx <= 1 && -1 <= dy <= 1 && 1 <= m <= 8
    ensures Ray(dx, dy)[m - 1] == (Scale(dx, m), Scale(dy, m))
  {
  }

  /** The offset m squares along (dx, dy) takes m steps, and its k-th step is the k-th square of the ray. */
  lemma ScaledOffset(b: Grid, r: int, c: int, s: Side, dx: int, dy: int, m: int)
    requires -1 <= dx <= 1 && -1 <= dy <= 1 && (dx != 0 || dy != 0) && 1 <= m <= 8
    ensures var o := (Scale(dx, m), Scale(dy, m));
      Steps(o) == m && Target(r, c, s, o) == RaySquare(r, c, s, dx, dy, m)
      && forall k :: StepFree(b, r, c, s, o, k) <==> SquareFree(b, RaySquare(r, c, s, dx, dy, k))
  {
    UnitScale(dx, m);
    UnitScale(dy, m);
    ScaledSteps(dx, dy, m);
    StepsAlong(b, r, c, s, (Scale(dx, m), Scale(dy, m)), dx, dy);
  }

  /** The offset m squares along a unit direction takes m steps. */
  lemma ScaledSteps(dx: int, dy: int, m: int)
    requires -1 <= dx <= 1 && -1 <= dy <= 1 && (dx != 0 || dy != 0) && 1 <= m <= 8
    ensures Steps((Scale(dx, m), Scale(dy, m))) == m
  {
    UnitScale(dx, m);
    UnitScale(dy, m);
  }

  /** An offset pointing along (dx, dy) steps over the squares of that ray. */
  lemma StepsAlong(b: Grid, r: int, c: int, s: Side, o: Offset, dx: int, dy: int)
    requires Unit(o.0) == dx && Unit(o.1) == dy
    ensures forall k :: StepFree(b, r, c, s, o, k) <==> SquareFree(b, RaySquare(r, c, s, dx, dy, k))
  {
  }

  lemma UnitScale(u: int, m: int)
    requires -1 <= u <= 1 && m >= 1
    ensures Unit(Scale(u, m)) == u && Abs(Scale(u, m)) == (if u == 0 then 0 else m)
  {
  }

  /** Offset m of a ray emits exactly when it does not pass the f free squares. */
  lemma RayStep(b: Grid, r: int, c: int, p: Piece, dx: int, dy: int, f: nat, m: int)
    requires OnBoard(r, c) && IsSliding(p.kind)
    requires -1 <= dx <= 1 && -1 <= dy <= 1 && (dx != 0 || dy != 0) && 1 <= m <= 8 && f < 8
    requires forall k :: 1 <= k <= f ==> SquareFree(b, RaySquare(r, c, p.owner, dx, dy, k))
    requires SquareStops(b, RaySquare(r, c, p.owner, dx, dy, f + 1), p.owner)
    ensures var o := Ray(dx, dy)[m - 1];
      Emits(b, r, c, p, o) <==> m <= f
    ensures Target(r, c, p.owner, Ray(dx, dy)[m - 1]) == RaySquare(r, c, p.owner, dx, dy, m)
  {
    var o := Ray(dx, dy)[m - 1];
    RayOffset(b, r, c, p.owner, dx, dy, m);
    if m > f + 1 {
      assert !StepFree(b, r, c, p.owner, o, f + 1);
    }
  }

  /**
   * The eight offsets of a ray starting at index base of a sliding piece's
   * table add the f free squares before the first square that stops it.
   */
  lemma {:induction false} RayPrefix(b: Grid, r: int, c: int, p: Piece, base: nat, dx: int, dy: int, f: nat, m: nat)
    requires OnBoard(r, c) && IsSliding(p.kind)
    requires -1 <= dx <= 1 && -1 <= dy <= 1 && (dx != 0 || dy != 0)
    requires base + 8 <= |Offsets(p.kind)| && m <= 8 && f < 8
    requires forall j :: 0 <= j < 8 ==> Offsets(p.kind)[base + j] == Ray(dx, dy)[j]
    requires forall k :: 1 <= k <= f ==> SquareFree(b, RaySquare(r, c, p.owner, dx, dy, k))
    requires SquareStops(b, RaySquare(r, c, p.owner, dx, dy, f + 1), p.owner)
    ensures PseudoPrefix(b, r, c, p, base + m)
      == PseudoPrefix(b, r, c, p, base) + RayTargets(r, c, p.owner, dx, dy, if m < f then m else f)
    decreases m
  {
    if m > 0 {
      RayPrefix(b, r, c, p, base, dx, dy, f, m - 1);
      RayPrefixStep(b, r, c, p, base, dx, dy, f, m);
    }
  }

  /** One offset further along the ray: its target is added while it is within the f free squares. */
  lemma RayPrefixStep(b: Grid, r: int, c: int, p: Piece, base: nat, dx: int, dy: int, f: nat, m: nat)
    requires OnBoard(r, c) && IsSliding(p.kind)
    requires -1 <= dx <= 1 && -1 <= dy <= 1 && (dx != 0 || dy != 0)
    requires base + 8 <= |Offsets(p.kind)| && 1 <= m <= 8 && f < 8
    requires forall j :: 0 <= j < 8 ==> Offsets(p.kind)[base + j] == Ray(dx, dy)[j]
    requires forall k :: 1 <= k <= f ==> SquareFree(b, RaySquare(r, c, p.owner, dx, dy, k))
    requires SquareStops(b, RaySquare(r, c, p.owner, dx, dy, f + 1), p.owner)
    requires PseudoPrefix(b, r, c, p, base + m - 1)
      == PseudoPrefix(b, r, c, p, base) + RayTargets(r, c, p.owner, dx, dy, if m - 1 < f then m - 1 else f)
    ensures PseudoPrefix(b, r, c, p, base + m)
      == PseudoPrefix(b, r, c, p, base) + RayTargets(r, c, p.owner, dx, dy, if m < f then m else f)
  {
    assert Offsets(p.kind)[base + m - 1] == Ray(dx, dy)[m - 1];
    RayStep(b, r, c, p, dx, dy, f, m);
    if m <= f {
      RayTargetsSnoc(r, c, p.owner, dx, dy, m);
    }
  }

  lemma RayTargetsSnoc(r: int, c: int, s: Side, dx: int, dy: int, m: nat)
    requires m >= 1
    ensures RayTargets(r, c, s, dx, dy, m) == RayTargets(r, c, s, dx, dy, m - 1) + [RaySquare(r, c, s, dx, dy, m)]
  {
    assert RayTargets(r, c, s, dx, dy, m) == RayTargets(r, c, s, dx, dy, m - 1) + [RaySquare(r, c, s, dx, dy, m)];
  }

  /** The player's rook on (7, 7): five squares to the left, one to the right. */
  lemma RookTargets(b: Grid)
    requires IsInitial(b)
    ensures PseudoMoves(b, 7, 7) == RayTargets(7, 7, Player, -1, 0, 5) + RayTargets(7, 7, Player, 1, 0, 1)
  {
    assert At(b, 7, 7) == InitialCell(7, 7) && At(b, 6, 7) == InitialCell(6, 7) && At(b, 8, 7) == InitialCell(8, 7);
    assert At(b, 7, 6) == InitialCell(7, 6) && At(b, 7, 5) == InitialCell(7, 5) && At(b, 7, 4) == InitialCell(7, 4);
    assert At(b, 7, 3) == InitialCell(7, 3) && At(b, 7, 2) == InitialCell(7, 2) && At(b, 7, 1) == InitialCell(7, 1);
    assert At(b, 7, 8) == InitialCell(7, 8);
    RookRays(b);
  }

  lemma RookTableLength()
    ensures |Offsets(Rook)| == 32
  {
  }

  lemma RookTable(j: int)
    requires 0 <= j < 8
    ensures Offsets(Rook)[j] == Ray(0, -1)[j] && Offsets(Rook)[8 + j] == Ray(0, 1)[j]
    ensures Offsets(Rook)[16 + j] == Ray(-1, 0)[j] && Offsets(Rook)[24 + j] == Ray(1, 0)[j]
  {
  }

  lemma BishopTable(j: int)
    requires 0 <= j < 8
    ensures Offsets(Bishop)[j] == Ray(-1, -1)[j] && Offsets(Bishop)[8 + j] == Ray(1, -1)[j]
    ensures Offsets(Bishop)[16 + j] == Ray(-1, 1)[j] && Offsets(Bishop)[24 + j] == Ray(1, 1)[j]
  {
  }

  /** A ray of the player's whose first square stops it adds nothing. */
  lemma RayShut(b: Grid, r: int, c: int, p: Piece, base: nat, dx: int, dy: int)
    requires OnBoard(r, c) && IsSliding(p.kind) && p.owner == Player
    requires -1 <= dx <= 1 && -1 <= dy <= 1 && (dx != 0 || dy != 0)
    requires base + 8 <= |Offsets(p.kind)|
    requires forall j :: 0 <= j < 8 ==> Offsets(p.kind)[base + j] == Ray(dx, dy)[j]
    requires SquareStops(b, (r + dy, c + dx), Player)
    ensures PseudoPrefix(b, r, c, p, base + 8) == PseudoPrefix(b, r, c, p, base)
  {
    assert RaySquare(r, c, Player, dx, dy, 1) == (r + dy, c + dx);
    RayPrefix(b, r, c, p, base, dx, dy, 0, 8);
  }

  lemma RookLeft(b: Grid)
    requires At(b, 7, 7) == Some(Piece(Rook, Player, false))
    requires At(b, 7, 1).Some? && At(b, 7, 1).value.owner == Player
    requires forall k :: 2 <= k <= 6 ==> At(b, 7, k).None?
    ensures PseudoPrefix(b, 7, 7, Piece(Rook, Player, false), 24)
      == PseudoPrefix(b, 7, 7, Piece(Rook, Player, false), 16) + RayTargets(7, 7, Player, -1, 0, 5)
  {
    forall j | 0 <= j < 8
      ensures Offsets(Rook)[16 + j] == Ray(-1, 0)[j]
    {
      RookTable(j);
    }
    forall k | 1 <= k <= 5
      ensures SquareFree(b, RaySquare(7, 7, Player, -1, 0, k))
    {
      assert RaySquare(7, 7, Player, -1, 0, k) == (7, 7 - k);
    }
    assert RaySquare(7, 7, Player, -1, 0, 6) == (7, 1);
    RayPrefix(b, 7, 7, Piece(Rook, Player, false), 16, -1, 0, 5, 8);
  }

  lemma RookRight(b: Grid)
    requires At(b, 7, 7) == Some(Piece(Rook, Player, false))
    requires At(b, 7, 8).None?
    ensures PseudoPrefix(b, 7, 7, Piece(Rook, Player, false), 32)
      == PseudoPrefix(b, 7, 7, Piece(Rook, Player, false), 24) + RayTargets(7, 7, Player, 1, 0, 1)
  {
    forall j | 0 <= j < 8
      ensures Offsets(Rook)[24 + j] == Ray(1, 0)[j]
    {
      RookTable(j);
    }
    assert RaySquare(7, 7, Player, 1, 0, 1) == (7, 8);
    assert RaySquare(7, 7, Player, 1, 0, 2) == (7, 9);
    RayPrefix(b, 7, 7, Piece(Rook, Player, false), 24, 1, 0, 1, 8);
  }

  lemma RookRays(b: Grid)
    requires At(b, 7, 7) == Some(Piece(Rook, Player, false))
    requires At(b, 6, 7).Some? && At(b, 6, 7).value.owner == Player
    requires At(b, 8, 7).Some? && At(b, 8, 7).value.owner == Player
    requires At(b, 7, 1).Some? && At(b, 7, 1).value.owner == Player
    requires forall k :: 2 <= k <= 6 ==> At(b, 7, k).None?
    requires At(b, 7, 8).None?
    ensures PseudoMoves(b, 7, 7) == RayTargets(7, 7, Player, -1, 0, 5) + RayTargets(7, 7, Player, 1, 0, 1)
  {
    RookShut(b);
    RookLeft(b);
    RookRight(b);
    RookTableLength();
  }

  /** Up and down the player's rook on (7, 7) is boxed in by its own pieces. */
  lemma RookShut(b: Grid)
    requires At(b, 6, 7).Some? && At(b, 6, 7).value.owner == Player
    requires At(b, 8, 7).Some? && At(b, 8, 7).value.owner == Player
    ensures PseudoPrefix(b, 7, 7, Piece(Rook, Player, false), 16) == []
  {
    var p := Piece(Rook, Player, false);
    forall j | 0 <= j < 8
      ensures Offsets(Rook)[j] == Ray(0, -1)[j] && Offsets(Rook)[8 + j] == Ray(0, 1)[j]
    {
      RookTable(j);
    }
    RayShut(b, 7, 7, p, 0, 0, -1);
    RayShut(b, 7, 7, p, 8, 0, 1);
  }

  lemma BishopRays(b: Grid)
    requires At(b, 7, 1) == Some(Piece(Bishop, Player, false))
    requires At(b, 6, 0).Some? && At(b, 6, 0).value.owner == Player
    requires At(b, 6, 2).Some? && At(b, 6, 2).value.owner == Player
    requires At(b, 8, 0).Some? && At(b, 8, 0).value.owner == Player
    requires At(b, 8, 2).Some? && At(b, 8, 2).value.owner == Player
    ensures PseudoMoves(b, 7, 1) == []
  {
    var p := Piece(Bishop, Player, false);
    forall j | 0 <= j < 8
      ensures Offsets(Bishop)[j] == Ray(-1, -1)[j] && Offsets(Bishop)[8 + j] == Ray(1, -1)[j]
      ensures Offsets(Bishop)[16 + j] == Ray(-1, 1)[j] && Offsets(Bishop)[24 + j] == Ray(1, 1)[j]
    {
      BishopTable(j);
    }
    RayShut(b, 7, 1, p, 0, -1, -1);
    RayShut(b, 7, 1, p, 8, 1, -1);
    RayShut(b, 7, 1, p, 16, -1, 1);
    RayShut(b, 7, 1, p, 24, 1, 1);
  }

  /** The player's bishop on (7, 1) is boxed in by its own pieces. */
  lemma BishopTargets(b: Grid)
    requires IsInitial(b)
    ensures PseudoMoves(b, 7, 1) == []
  {
    assert At(b, 7, 1) == InitialCell(7, 1) && At(b, 6, 0) == InitialCell(6, 0) && At(b, 6, 2) == InitialCell(6, 2);
    assert At(b, 8, 0) == InitialCell(8, 0) && At(b, 8, 2) == InitialCell(8, 2);
    BishopRays(b);
  }

  /** A player's lance in a corner of row 8 reaches only row 7. */
  lemma LanceTargets(b: Grid, c: int)
    requires IsInitial(b) && (c == 0 || c == 8)
    ensures PseudoMoves(b, 8, c) == [(7, c)]
  {
    assert At(b, 8, c) == InitialCell(8, c) && At(b, 7, c) == InitialCell(7, c) && At(b, 6, c) == InitialCell(6, c);
    LanceRay(b, c);
  }

  lemma LanceRay(b: Grid, c: int)
    requires 0 <= c < 9
    requires At(b, 8, c) == Some(Piece(Lance, Player, false)) && At(b, 7, c).None?
    requires At(b, 6, c).Some? && At(b, 6, c).value.owner == Player
    ensures PseudoMoves(b, 8, c) == [(7, c)]
  {
    var p := Piece(Lance, Player, false);
    assert RaySquare(8, c, Player, 0, -1, 1) == (7, c);
    assert RaySquare(8, c, Player, 0, -1, 2) == (6, c);
    assert forall j :: 0 <= j < 8 ==> Offsets(p.kind)[0 + j] == Ray(0, -1)[j];
    assert forall k :: 1 <= k <= 1 ==> SquareFree(b, RaySquare(8, c, p.owner, 0, -1, k));
    assert SquareStops(b, RaySquare(8, c, p.owner, 0, -1, 1 + 1), p.owner);
    RayPrefix(b, 8, c, p, 0, 0, -1, 1, 8);
    assert RayTargets(8, c, Player, 0, -1, 1) == [(7, c)];
  }

  /** A player's pawn advances one square. */
  lemma PawnTargets(b: Grid, c: int)
    requires IsInitial(b) && 0 <= c < 9
    ensures PseudoMoves(b, 6, c) == [(5, c)]
  {
    var p := Piece(Pawn, Player, false);
    assert At(b, 6, c) == InitialCell(6, c);
    assert At(b, 5, c) == InitialCell(5, c);
    assert Emits(b, 6, c, p, (0, -1));
    assert PseudoPrefix(b, 6, c, p, 1) == [(5, c)];
  }

  /** A player's knight lands only on its own pawns. */
  lemma KnightTargets(b: Grid, c: int)
    requires IsInitial(b) && (c == 1 || c == 7)
    ensures PseudoMoves(b, 8, c) == []
  {
    var p := Piece(Knight, Player, false);
    assert At(b, 8, c) == InitialCell(8, c);
    assert At(b, 6, c - 1) == InitialCell(6, c - 1);
    assert At(b, 6, c + 1) == InitialCell(6, c + 1);
    assert !Emits(b, 8, c, p, (-1, -2));
    assert !Emits(b, 8, c, p, (1, -2));
    assert PseudoPrefix(b, 8, c, p, 1) == [];
  }

  /** The player's silver on (8, 2): the bishop blocks the left diagonal. */
  lemma LeftSilverTargets(b: Grid)
    requires IsInitial(b)
    ensures PseudoMoves(b, 8, 2) == [(7, 2), (7, 3)]
  {
    var p := Piece(Silver, Player, false);
    assert At(b, 8, 2) == InitialCell(8, 2);
    assert At(b, 7, 1) == InitialCell(7, 1) && At(b, 7, 2) == InitialCell(7, 2) && At(b, 7, 3) == InitialCell(7, 3);
    assert PseudoPrefix(b, 8, 2, p, 1) == [];
    assert PseudoPrefix(b, 8, 2, p, 2) == [(7, 2)];
    assert PseudoPrefix(b, 8, 2, p, 3) == [(7, 2), (7, 3)];
    assert PseudoPrefix(b, 8, 2, p, 4) == [(7, 2), (7, 3)];
  }

  /** The player's silver on (8, 6): the rook blocks the right diagonal. */
  lemma RightSilverTargets(b: Grid)
    requires IsInitial(b)
    ensures PseudoMoves(b, 8, 6) == [(7, 5), (7, 6)]
  {
    var p := Piece(Silver, Player, false);
    assert At(b, 8, 6) == InitialCell(8, 6);
    assert At(b, 7, 5) == InitialCell(7, 5) && At(b, 7, 6) == InitialCell(7, 6) && At(b, 7, 7) == InitialCell(7, 7);
    assert PseudoPrefix(b, 8, 6, p, 1) == [(7, 5)];
    assert PseudoPrefix(b, 8, 6, p, 2) == [(7, 5), (7, 6)];
    assert PseudoPrefix(b, 8, 6, p, 3) == [(7, 5), (7, 6)];
    assert PseudoPrefix(b, 8, 6, p, 4) == [(7, 5), (7, 6)];
  }

  /** A player's gold on (8, 3) or (8, 5): the three squares in front. */
  lemma GoldTargets(b: Grid, c: int)
    requires IsInitial(b) && (c == 3 || c == 5)
    ensures PseudoMoves(b, 8, c) == [(7, c - 1), (7, c), (7, c + 1)]
  {
    var p := Piece(Gold, Player, false);
    assert At(b, 8, c) == InitialCell(8, c);
    assert At(b, 7, c - 1) == InitialCell(7, c - 1) && At(b, 7, c) == InitialCell(7, c) && At(b, 7, c + 1) == InitialCell(7, c + 1);
    assert At(b, 8, c - 1) == InitialCell(8, c - 1) && At(b, 8, c + 1) == InitialCell(8, c + 1);
    assert PseudoPrefix(b, 8, c, p, 1) == [(7, c - 1)];
    assert PseudoPrefix(b, 8, c, p, 2) == [(7, c - 1), (7, c)];
    assert PseudoPrefix(b, 8, c, p, 3) == [(7, c - 1), (7, c), (7, c + 1)];
    assert PseudoPrefix(b, 8, c, p, 4) == [(7, c - 1), (7, c), (7, c + 1)];
    assert PseudoPrefix(b, 8, c, p, 5) == [(7, c - 1), (7, c), (7, c + 1)];
  }

  /** The player's king on (8, 4): the three squares in front. */
  lemma KingTargets(b: Grid)
    requires IsInitial(b)
    ensures PseudoMoves(b, 8, 4) == [(7, 3), (7, 4), (7, 5)]
  {
    var p := Piece(King, Player, false);
    assert At(b, 8, 4) == InitialCell(8, 4);
    assert At(b, 7, 3) == InitialCell(7, 3) && At(b, 7, 4) == InitialCell(7, 4) && At(b, 7, 5) == InitialCell(7, 5);
    assert At(b, 8, 3) == InitialCell(8, 3) && At(b, 8, 5) == InitialCell(8, 5);
    assert PseudoPrefix(b, 8, 4, p, 1) == [(7, 3)];
    assert PseudoPrefix(b, 8, 4, p, 2) == [(7, 3), (7, 4)];
    assert PseudoPrefix(b, 8, 4, p, 3) == [(7, 3), (7, 4), (7, 5)];
    assert PseudoPrefix(b, 8, 4, p, 4) == [(7, 3), (7, 4), (7, 5)];
    assert PseudoPrefix(b, 8, 4, p, 5) == [(7, 3), (7, 4), (7, 5)];
    assert PseudoPrefix(b, 8, 4, p, 6) == [(7, 3), (7, 4), (7, 5)];
    assert PseudoPrefix(b, 8, 4, p, 7) == [(7, 3), (7, 4), (7, 5)];
  }

  // ---------------------------------------------------------------------
  // Counting the moves
  // ---------------------------------------------------------------------

  lemma {:induction false} AllSafePrefix(b: Grid, r: int, c: int, s: Side, ms: seq<Pos>, n: nat)
    requires OnBoard(r, c) && n <= |ms|
    requires forall j :: 0 <= j < n ==> LeavesSafe(b, r, c, s, ms[j])
    ensures LegalPrefix(b, r, c, s, ms, n) == ms[..n]
  {
    if n > 0 {
      AllSafePrefix(b, r, c, s, ms, n - 1);
      assert LeavesSafe(b, r, c, s, ms[n - 1]);
      assert LegalPrefix(b, r, c, s, ms, n) == ms[..n - 1] + [ms[n - 1]];
      assert ms[..n] == ms[..n - 1] + [ms[n - 1]];
    }
  }

  /** From the start, a player's piece keeps every destination that is an empty square of row 4 or below. */
  lemma OpeningValid(b: Grid, r: int, c: int)
    requires IsInitial(b) && OnBoard(r, c) && r >= 6 && At(b, r, c).Some? && At(b, r, c).value.owner == Player
    requires forall j :: 0 <= j < |PseudoMoves(b, r, c)| ==>
      OnBoard(PseudoMoves(b, r, c)[j].0, PseudoMoves(b, r, c)[j].1) && PseudoMoves(b, r, c)[j].0 >= 4
      && At(b, PseudoMoves(b, r, c)[j].0, PseudoMoves(b, r, c)[j].1).None?
    ensures ValidMoves(b, r, c, false) == PseudoMoves(b, r, c)
  {
    var ms := PseudoMoves(b, r, c);
    forall j | 0 <= j < |ms|
      ensures LeavesSafe(b, r, c, Player, ms[j])
    {
      OpeningSwapSafe(b, r, c, ms[j]);
    }
    AllSafePrefix(b, r, c, Player, ms, |ms|);
    assert ms[..|ms|] == ms;
  }

  /** The number of the player's moves from square (r, c) at the start. */
  function StartCount(r: int, c: int): nat
  {
    if r == 6 then 1
    else if r == 7 && c == 7 then 6
    else if r == 8 && (c == 0 || c == 8) then 1
    else if r == 8 && (c == 2 || c == 6) then 2
    else if r == 8 && 3 <= c <= 5 then 3
    else 0
  }

  function StartSum(n: nat): nat
  {
    if n == 0 then 0 else StartSum(n - 1) + StartCount(RowOf(n - 1), ColOf(n - 1))
  }

  lemma RookCount(b: Grid)
    requires IsInitial(b)
    ensures |ValidMoves(b, 7, 7, false)| == 6
  {
    RookTargets(b);
    assert At(b, 7, 7) == InitialCell(7, 7);
    OpeningValid(b, 7, 7);
  }

  lemma BackRankCount(b: Grid, c: int)
    requires IsInitial(b) && 0 <= c < 9 && c != 1 && c != 7
    ensures |ValidMoves(b, 8, c, false)| == StartCount(8, c)
  {
    assert At(b, 8, c) == InitialCell(8, c);
    if c == 0 || c == 8 {
      LanceTargets(b, c);
    } else if c == 2 {
      LeftSilverTargets(b);
    } else if c == 6 {
      RightSilverTargets(b);
    } else if c == 4 {
      KingTargets(b);
    } else {
      GoldTargets(b, c);
    }
    OpeningValid(b, 8, c);
  }

  lemma PawnCount(b: Grid, c: int)
    requires IsInitial(b) && 0 <= c < 9
    ensures |ValidMoves(b, 6, c, false)| == 1
  {
    PawnTargets(b, c);
    assert At(b, 6, c) == InitialCell(6, c) && At(b, 5, c) == InitialCell(5, c);
    OpeningValid(b, 6, c);
  }

  lemma BishopCount(b: Grid)
    requires IsInitial(b)
    ensures |ValidMoves(b, 7, 1, false)| == 0
  {
    BishopTargets(b);
    assert At(b, 7, 1) == InitialCell(7, 1);
    OpeningValid(b, 7, 1);
  }

  lemma KnightCount(b: Grid, c: int)
    requires IsInitial(b) && (c == 1 || c == 7)
    ensures |ValidMoves(b, 8, c, false)| == 0
  {
    KnightTargets(b, c);
    assert At(b, 8, c) == InitialCell(8, c);
    OpeningValid(b, 8, c);
  }

  /** The moves of the player's piece on (r, c) at the start. */
  lemma PieceCount(b: Grid, r: int, c: int)
    requires IsInitial(b) && OnBoard(r, c) && InitialCell(r, c).Some? && InitialCell(r, c).value.owner == Player
    ensures |ValidMoves(b, r, c, false)| == StartCount(r, c)
  {
    if r == 6 {
      PawnCount(b, c);
    } else if r == 7 && c == 7 {
      RookCount(b);
    } else if r == 7 {
      BishopCount(b);
    } else if c == 1 || c == 7 {
      KnightCount(b, c);
    } else {
      BackRankCount(b, c);
    }
  }

  lemma SquareCount(b: Grid, i: nat)
    requires IsInitial(b) && i < 81
    ensures |SquareMoves(b, Player, i)| == StartCount(RowOf(i), ColOf(i))
  {
    RowColOf(i);
    var r, c := RowOf(i), ColOf(i);
    assert b[i] == At(b, r, c) == InitialCell(r, c);
    SquareMovesLength(b, Player, i);
    if b[i].Some? && b[i].value.owner == Player {
      PieceCount(b, r, c);
    } else {
      IdleCount(r, c);
    }
  }

  /** A square's list has one move per legal destination of a piece of s standing on it. */
  lemma SquareMovesLength(b: Grid, s: Side, i: nat)
    requires i < 81
    ensures |SquareMoves(b, s, i)| ==
      if b[i].Some? && b[i].value.owner == s then |ValidMoves(b, RowOf(i), ColOf(i), false)| else 0
  {
  }

  /** A square without a piece of the player at the start counts no move. */
  lemma IdleCount(r: int, c: int)
    requires OnBoard(r, c) && !(InitialCell(r, c).Some? && InitialCell(r, c).value.owner == Player)
    ensures StartCount(r, c) == 0
  {
  }

  lemma {:induction false} BoardCount(b: Grid, n: nat)
    requires IsInitial(b) && n <= 81
    ensures |BoardMovesPrefix(b, Player, n)| == StartSum(n)
  {
    if n > 0 {
      BoardCount(b, n - 1);
      SquareCount(b, n - 1);
    }
  }

  lemma StartTotal()
    ensures StartSum(81) == 30
  {
    assert StartSum(9) == 0;
    assert StartSum(18) == 0;
    assert StartSum(27) == 0;
    assert StartSum(36) == 0;
    assert StartSum(45) == 0;
    assert StartSum(54) == 0;
    assert StartSum(63) == 9;
    assert StartSum(72) == 15;
  }

  /**
   * The test "初期配置で30手の合法手がある": in the starting position the
   * player, to move with empty hands, has exactly 30 legal moves.
   */
  lemma OpeningMoveCount()
    ensures |AllLegalMoves(InitialBoard(), [], [], Player)| == 30
  {
    var b := InitialBoard();
    BoardCount(b, 81);
    Positions.EmptyHandNoDrops(b, Player);
    StartTotal();
  }
}
