/**
 * The rules of `ShogiGame` as functions of a board value: move generation,
 * check detection, drop legality (including uchifuzume, the pawn-drop mate)
 * and the legal-move list. The class in module Game runs the same logic on
 * its mutable board and is proved equal to these functions.
 */
module Rules {
  import opened Wrappers
  import opened Pieces
  import opened Board

  /** A square as (row, col): `{ row, col }` in the source. */
  type Pos = (int, int)

  /** The player's offsets are used as written; the computer's are negated. */
  function Dir(s: Side, d: int): int
  {
    if s == Player then d else -d
  }

  function Abs(x: int): nat
  {
    if x < 0 then -x else x
  }

  /** `dx / Math.abs(dx)` with 0 for 0. */
  function Unit(d: int): int
  {
    if d == 0 then 0 else if d > 0 then 1 else -1
  }

  /** `u * k` for a unit u in {-1, 0, 1}, written without multiplication. */
  function Scale(u: int, k: int): (r: int)
    ensures -1 <= u <= 1 ==> r == u * k
  {
    if u == 0 then 0 else if u > 0 then k else -k
  }

  /** `Math.max(Math.abs(dx), Math.abs(dy))`. */
  function Steps(o: Offset): nat
  {
    if Abs(o.0) < Abs(o.1) then Abs(o.1) else Abs(o.0)
  }

  /** The square an offset leads to from (r, c) for side s. */
  function Target(r: int, c: int, s: Side, o: Offset): Pos
  {
    (r + Dir(s, o.1), c + Dir(s, o.0))
  }

  /** The k-th square along the ray of `o` is on the board and empty. */
  predicate StepFree(b: Grid, r: int, c: int, s: Side, o: Offset, k: int)
  {
    var rr := r + Dir(s, Scale(Unit(o.1), k));
    var cc := c + Dir(s, Scale(Unit(o.0), k));
    OnBoard(rr, cc) && At(b, rr, cc) == None
  }

  /** Every square strictly between the piece and the target of `o` is free. */
  predicate RayClear(b: Grid, r: int, c: int, s: Side, o: Offset)
  {
    forall k :: 1 <= k < Steps(o) ==> StepFree(b, r, c, s, o, k)
  }

  /** A non-sliding piece jumps; a sliding one needs a clear ray. */
  predicate PathOk(b: Grid, r: int, c: int, p: Piece, o: Offset)
  {
    IsSliding(p.kind) ==> RayClear(b, r, c, p.owner, o)
  }

  /** The target square is empty or holds a piece of the other side. */
  predicate TargetOk(b: Grid, t: Pos, s: Side)
    requires OnBoard(t.0, t.1)
  {
    At(b, t.0, t.1).None? || At(b, t.0, t.1).value.owner != s
  }

  /** Offset `o` of piece p standing on (r, c) yields a destination. */
  predicate Emits(b: Grid, r: int, c: int, p: Piece, o: Offset)
  {
    var t := Target(r, c, p.owner, o);
    OnBoard(t.0, t.1) && PathOk(b, r, c, p, o) && TargetOk(b, t, p.owner)
  }

  /** The destinations produced by the first n offsets of p's table, in table order. */
  function PseudoPrefix(b: Grid, r: int, c: int, p: Piece, n: nat): seq<Pos>
    requires n <= |Offsets(p.kind)|
  {
    if n == 0 then []
    else
      var o := Offsets(p.kind)[n - 1];
      PseudoPrefix(b, r, c, p, n - 1) + (if Emits(b, r, c, p, o) then [Target(r, c, p.owner, o)] else [])
  }

  /** `getValidMoves(r, c, true)`: the destinations before the self-check filter. */
  function PseudoMoves(b: Grid, r: int, c: int): seq<Pos>
    requires OnBoard(r, c)
  {
    match At(b, r, c)
    case None => []
    case Some(p) => PseudoPrefix(b, r, c, p, |Offsets(p.kind)|)
  }

  /** The board after the temporary swap of `getValidMoves`: the piece stands on t, (r, c) is empty. */
  function Swapped(b: Grid, r: int, c: int, t: Pos): Grid
    requires OnBoard(r, c) && OnBoard(t.0, t.1)
  {
    Put(Put(b, t.0, t.1, At(b, r, c)), r, c, None)
  }

  predicate OnBoardAll(ms: seq<Pos>)
  {
    forall j :: 0 <= j < |ms| ==> OnBoard(ms[j].0, ms[j].1)
  }

  /** Moving the piece on (r, c) to t leaves side s out of check. */
  predicate LeavesSafe(b: Grid, r: int, c: int, s: Side, t: Pos)
    requires OnBoard(r, c)
  {
    OnBoard(t.0, t.1) && !KingInCheck(Swapped(b, r, c, t), s)
  }

  /** The destinations among the first n of ms after which side s is not in check. */
  function LegalPrefix(b: Grid, r: int, c: int, s: Side, ms: seq<Pos>, n: nat): seq<Pos>
    requires OnBoard(r, c) && n <= |ms|
  {
    if n == 0 then []
    else
      LegalPrefix(b, r, c, s, ms, n - 1)
      + (if LeavesSafe(b, r, c, s, ms[n - 1]) then [ms[n - 1]] else [])
  }

  /** `getValidMoves(r, c, ignoreCheck)`. */
  function ValidMoves(b: Grid, r: int, c: int, ignoreCheck: bool): seq<Pos>
    requires OnBoard(r, c)
  {
    match At(b, r, c)
    case None => []
    case Some(p) =>
      var ms := PseudoMoves(b, r, c);
      if ignoreCheck then ms else LegalPrefix(b, r, c, p.owner, ms, |ms|)
  }

  predicate IsKingOf(x: Cell, s: Side)
  {
    x.Some? && x.value.owner == s && IsKing(x.value.kind)
  }

  /** The first column at or after c in row r holding a king of s. */
  function FirstKingInRow(b: Grid, s: Side, r: int, c: nat): (k: Option<int>)
    requires 0 <= r < 9 && c <= 9
    ensures k.Some? ==> c <= k.value < 9 && IsKingOf(At(b, r, k.value), s)
    ensures k.None? <==> forall c' :: c <= c' < 9 ==> !IsKingOf(At(b, r, c'), s)
    decreases b, 9 - c
  {
    if c == 9 then None
    else if IsKingOf(At(b, r, c), s) then Some(c)
    else FirstKingInRow(b, s, r, c + 1)
  }

  /**
   * The king square recorded after scanning rows 0..n-1: the inner loop stops
   * at the first king of a row, the outer loop does not stop, so a later row
   * overrides an earlier one.
   */
  function KingAfterRows(b: Grid, s: Side, n: nat): Option<Pos>
    requires n <= 9
  {
    if n == 0 then None
    else match FirstKingInRow(b, s, n - 1, 0)
      case Some(c) => Some((n - 1, c))
      case None => KingAfterRows(b, s, n - 1)
  }

  /** The square `isKingInCheck` takes as s's king, if any. */
  function FindKing(b: Grid, s: Side): Option<Pos>
  {
    KingAfterRows(b, s, 9)
  }

  /** The piece on square i belongs to s and reaches k, ignoring self-check. */
  predicate AttacksFrom(b: Grid, i: int, s: Side, k: Pos)
  {
    0 <= i < 81 && b[i].Some? && b[i].value.owner == s && k in PseudoMoves(b, RowOf(i), ColOf(i))
  }

  /** One of the first n squares holds a piece of s that reaches k. */
  predicate AttackedBefore(b: Grid, s: Side, k: Pos, n: nat)
    requires n <= 81
  {
    n > 0 && (AttackedBefore(b, s, k, n - 1) || AttacksFrom(b, n - 1, s, k))
  }

  /** `isKingInCheck(s)`: some piece of the opponent reaches the king square found by `FindKing`. */
  predicate KingInCheck(b: Grid, s: Side)
  {
    match FindKing(b, s)
    case None => false
    case Some(k) => AttackedBefore(b, Opponent(s), k, 81)
  }

  /** An unpromoted pawn of s on (r, c): what the nifu scan looks for. */
  predicate OwnPawn(b: Grid, r: int, c: int, s: Side)
    requires OnBoard(r, c)
  {
    var x := At(b, r, c);
    x.Some? && x.value.owner == s && x.value.kind == Pawn && !x.value.promoted
  }

  predicate NifuBlocked(b: Grid, c: int, s: Side)
    requires 0 <= c < 9
  {
    exists r :: 0 <= r < 9 && OwnPawn(b, r, c, s)
  }

  /** A pawn or lance on the farthest rank, a knight on the farthest two. */
  predicate DeadDrop(t: PieceType, r: int, s: Side)
  {
    if s == Player then
      (t == Pawn && r == 0) || (t == Lance && r == 0) || (t == Knight && (r == 0 || r == 1))
    else
      (t == Pawn && r == 8) || (t == Lance && r == 8) || (t == Knight && (r == 8 || r == 7))
  }

  /** The board with an unpromoted t of s placed on (r, c). */
  function Dropped(b: Grid, t: PieceType, r: int, c: int, s: Side): Grid
    requires OnBoard(r, c)
  {
    Put(b, r, c, Some(Piece(t, s, false)))
  }

  /** `canPlaceCapturedPieceWithoutUchifuzume(t, r, c, s)`. */
  predicate CanDropNoUchi(b: Grid, t: PieceType, r: int, c: int, s: Side)
    requires OnBoard(r, c)
  {
    At(b, r, c).None?
    && !(t == Pawn && NifuBlocked(b, c, s))
    && !DeadDrop(t, r, s)
    && !KingInCheck(Dropped(b, t, r, c, s), s)
  }

  /** The captured pool of side s. */
  function PoolOf(pp: seq<PieceType>, cp: seq<PieceType>, s: Side): seq<PieceType>
  {
    if s == Player then pp else cp
  }

  /** The piece on square i belongs to s and has a legal move. */
  predicate HasMoveFrom(b: Grid, i: int, s: Side)
  {
    0 <= i < 81 && b[i].Some? && b[i].value.owner == s && |ValidMoves(b, RowOf(i), ColOf(i), false)| > 0
  }

  /** Kind t may be dropped (without the uchifuzume test) on square i. */
  predicate DropNoUchiAt(b: Grid, t: PieceType, i: int, s: Side)
  {
    0 <= i < 81 && CanDropNoUchi(b, t, RowOf(i), ColOf(i), s)
  }

  /** `hasAnyLegalMove(s)` with s's pool `pool`. */
  predicate HasAnyLegalMove(b: Grid, pool: seq<PieceType>, s: Side)
  {
    (exists i :: 0 <= i < 81 && HasMoveFrom(b, i, s))
    || (exists t, i :: t in pool && 0 <= i < 81 && DropNoUchiAt(b, t, i, s))
  }

  /** The square in front of (r, c) for s: row - 1 for the player, row + 1 for the computer. */
  function FrontRow(r: int, s: Side): int
  {
    if s == Player then r - 1 else r + 1
  }

  /** `isUchifuzume(t, r, c, s)`: the drop checks the king in front of it and leaves it no legal move. */
  predicate IsUchifuzume(b: Grid, pp: seq<PieceType>, cp: seq<PieceType>, t: PieceType, r: int, c: int, s: Side)
    requires OnBoard(r, c)
  {
    var fr := FrontRow(r, s);
    var opp := Opponent(s);
    0 <= fr < 9
    && IsKingOf(At(b, fr, c), opp)
    && KingInCheck(Dropped(b, t, r, c, s), opp)
    && !HasAnyLegalMove(Dropped(b, t, r, c, s), PoolOf(pp, cp, opp), opp)
  }

  /** `canPlaceCapturedPiece(t, r, c, s)`. */
  predicate CanDrop(b: Grid, pp: seq<PieceType>, cp: seq<PieceType>, t: PieceType, r: int, c: int, s: Side)
    requires OnBoard(r, c)
  {
    At(b, r, c).None?
    && !(t == Pawn && NifuBlocked(b, c, s))
    && !DeadDrop(t, r, s)
    && !(t == Pawn && IsUchifuzume(b, pp, cp, t, r, c, s))
    && !KingInCheck(Dropped(b, t, r, c, s), s)
  }

  /** A candidate move of `getAllLegalMoves`; a board move carries the moving piece, a drop its owner. */
  datatype Move =
    | BoardMove(fromRow: int, fromCol: int, toRow: int, toCol: int, piece: Piece)
    | DropMove(kind: PieceType, toRow: int, toCol: int, owner: Side)

  /** The moves of the piece on (r, c) to the listed destinations. */
  function MovesTo(r: int, c: int, p: Piece, ts: seq<Pos>): (ms: seq<Move>)
    ensures |ms| == |ts|
    ensures forall j :: 0 <= j < |ts| ==> ms[j] == BoardMove(r, c, ts[j].0, ts[j].1, p)
  {
    seq(|ts|, j requires 0 <= j < |ts| => BoardMove(r, c, ts[j].0, ts[j].1, p))
  }

  /** The moves of square i for side s. */
  function SquareMoves(b: Grid, s: Side, i: nat): seq<Move>
    requires i < 81
  {
    if b[i].Some? && b[i].value.owner == s then
      MovesTo(RowOf(i), ColOf(i), b[i].value, ValidMoves(b, RowOf(i), ColOf(i), false))
    else []
  }

  /** The board moves of the first n squares, row-major. */
  function BoardMovesPrefix(b: Grid, s: Side, n: nat): seq<Move>
    requires n <= 81
  {
    if n == 0 then [] else BoardMovesPrefix(b, s, n - 1) + SquareMoves(b, s, n - 1)
  }

  /** The drops of kind t on the first n squares, row-major. */
  function DropsPrefix(b: Grid, pp: seq<PieceType>, cp: seq<PieceType>, s: Side, t: PieceType, n: nat): seq<Move>
    requires n <= 81
  {
    if n == 0 then []
    else
      DropsPrefix(b, pp, cp, s, t, n - 1)
      + (if CanDrop(b, pp, cp, t, RowOf(n - 1), ColOf(n - 1), s) then [DropMove(t, RowOf(n - 1), ColOf(n - 1), s)] else [])
  }

  /** The drops of the first n kinds of ts. */
  function DropsOfKinds(b: Grid, pp: seq<PieceType>, cp: seq<PieceType>, s: Side, ts: seq<PieceType>, n: nat): seq<Move>
    requires n <= |ts|
  {
    if n == 0 then [] else DropsOfKinds(b, pp, cp, s, ts, n - 1) + DropsPrefix(b, pp, cp, s, ts[n - 1], 81)
  }

  /** `[...new Set(xs)]`: the distinct elements in order of first occurrence. */
  function Dedup(xs: seq<PieceType>): (r: seq<PieceType>)
    ensures forall x :: x in r <==> x in xs
    ensures forall i, j :: 0 <= i < j < |r| ==> r[i] != r[j]
  {
    DedupFrom(xs, [])
  }

  function DedupFrom(xs: seq<PieceType>, seen: seq<PieceType>): (r: seq<PieceType>)
    requires forall i, j :: 0 <= i < j < |seen| ==> seen[i] != seen[j]
    ensures forall x :: x in r <==> x in seen || x in xs
    ensures forall i, j :: 0 <= i < j < |r| ==> r[i] != r[j]
    ensures |seen| <= |r| && r[..|seen|] == seen
    decreases |xs|
  {
    if |xs| == 0 then seen
    else if xs[0] in seen then DedupFrom(xs[1..], seen)
    else DedupFrom(xs[1..], seen + [xs[0]])
  }

  /** `getAllLegalMoves(s)`. */
  function AllLegalMoves(b: Grid, pp: seq<PieceType>, cp: seq<PieceType>, s: Side): seq<Move>
  {
    var kinds := Dedup(PoolOf(pp, cp, s));
    BoardMovesPrefix(b, s, 81) + DropsOfKinds(b, pp, cp, s, kinds, |kinds|)
  }

  /** `isCheckmate(s)`. */
  predicate Checkmate(b: Grid, pp: seq<PieceType>, cp: seq<PieceType>, s: Side)
  {
    KingInCheck(b, s) && |AllLegalMoves(b, pp, cp, s)| == 0
  }

  /** `isStalemate(s)`. */
  predicate Stalemate(b: Grid, pp: seq<PieceType>, cp: seq<PieceType>, s: Side)
  {
    !KingInCheck(b, s) && |AllLegalMoves(b, pp, cp, s)| == 0
  }

  // ---------------------------------------------------------------------
  // Properties of move generation
  // ---------------------------------------------------------------------

  lemma {:induction false} PseudoPrefixOnBoard(b: Grid, r: int, c: int, p: Piece, n: nat)
    requires n <= |Offsets(p.kind)|
    ensures OnBoardAll(PseudoPrefix(b, r, c, p, n))
    decreases n
  {
    if n > 0 {
      PseudoPrefixOnBoard(b, r, c, p, n - 1);
    }
  }

  lemma PseudoOnBoard(b: Grid, r: int, c: int)
    requires OnBoard(r, c)
    ensures OnBoardAll(PseudoMoves(b, r, c))
  {
    if At(b, r, c).Some? {
      PseudoPrefixOnBoard(b, r, c, At(b, r, c).value, |Offsets(At(b, r, c).value.kind)|);
    }
  }

  /** Offset number j of p's table emits destination t. */
  predicate EmitsTo(b: Grid, r: int, c: int, p: Piece, j: int, t: Pos)
  {
    0 <= j < |Offsets(p.kind)|
    && Emits(b, r, c, p, Offsets(p.kind)[j]) && Target(r, c, p.owner, Offsets(p.kind)[j]) == t
  }

  /** A destination is produced exactly when one of the first n offsets emits it. */
  lemma {:induction false} PseudoPrefixIff(b: Grid, r: int, c: int, p: Piece, n: nat, t: Pos)
    requires n <= |Offsets(p.kind)|
    ensures t in PseudoPrefix(b, r, c, p, n) <==> exists j :: 0 <= j < n && EmitsTo(b, r, c, p, j, t)
    decreases n
  {
    if n > 0 {
      PseudoPrefixIff(b, r, c, p, n - 1, t);
      var o := Offsets(p.kind)[n - 1];
      var tail := if Emits(b, r, c, p, o) then [Target(r, c, p.owner, o)] else [];
      assert PseudoPrefix(b, r, c, p, n) == PseudoPrefix(b, r, c, p, n - 1) + tail;
      if EmitsTo(b, r, c, p, n - 1, t) {
        assert t in tail;
      } else {
        assert t !in tail;
        if exists j :: 0 <= j < n && EmitsTo(b, r, c, p, j, t) {
          var j :| 0 <= j < n && EmitsTo(b, r, c, p, j, t);
          assert j < n - 1;
        }
      }
    }
  }

  /**
   * The destinations of `getValidMoves(r, c, true)` are exactly the targets
   * of the piece's offsets (mirrored for the computer) that are on the board,
   * not occupied by a piece of the mover, and, for 飛 角 香 !馬 !竜, reached
   * over empty squares only.
   */
  lemma PseudoMovesIff(b: Grid, r: int, c: int, t: Pos)
    requires OnBoard(r, c) && At(b, r, c).Some?
    ensures var p := At(b, r, c).value;
      t in PseudoMoves(b, r, c) <==>
        exists o :: o in Offsets(p.kind) && Emits(b, r, c, p, o) && Target(r, c, p.owner, o) == t
  {
    var p := At(b, r, c).value;
    var offs := Offsets(p.kind);
    PseudoPrefixIff(b, r, c, p, |offs|, t);
    if t in PseudoMoves(b, r, c) {
      var j :| 0 <= j < |offs| && EmitsTo(b, r, c, p, j, t);
      assert offs[j] in offs;
    }
    if exists o :: o in offs && Emits(b, r, c, p, o) && Target(r, c, p.owner, o) == t {
      var o :| o in offs && Emits(b, r, c, p, o) && Target(r, c, p.owner, o) == t;
      var j :| 0 <= j < |offs| && offs[j] == o;
      assert EmitsTo(b, r, c, p, j, t);
    }
  }

  /**
   * A sliding piece's destination has every intermediate square empty, no
   * destination holds a piece of the mover, and an enemy piece at the end of a
   * clear ray is offered.
   */
  lemma SlidingMoves(b: Grid, r: int, c: int, t: Pos)
    requires OnBoard(r, c) && At(b, r, c).Some?
    ensures var p := At(b, r, c).value;
      t in PseudoMoves(b, r, c) ==>
        OnBoard(t.0, t.1) && (At(b, t.0, t.1).None? || At(b, t.0, t.1).value.owner != p.owner)
        && (IsSliding(p.kind) ==> exists o :: o in Offsets(p.kind) && Target(r, c, p.owner, o) == t && RayClear(b, r, c, p.owner, o))
    ensures var p := At(b, r, c).value;
      forall o :: o in Offsets(p.kind) && OnBoard(Target(r, c, p.owner, o).0, Target(r, c, p.owner, o).1)
        && RayClear(b, r, c, p.owner, o)
        && At(b, Target(r, c, p.owner, o).0, Target(r, c, p.owner, o).1).Some?
        && At(b, Target(r, c, p.owner, o).0, Target(r, c, p.owner, o).1).value.owner != p.owner
        ==> Target(r, c, p.owner, o) in PseudoMoves(b, r, c)
  {
    var p := At(b, r, c).value;
    PseudoMovesIff(b, r, c, t);
    forall o | o in Offsets(p.kind) && OnBoard(Target(r, c, p.owner, o).0, Target(r, c, p.owner, o).1)
        && RayClear(b, r, c, p.owner, o)
        && At(b, Target(r, c, p.owner, o).0, Target(r, c, p.owner, o).1).Some?
        && At(b, Target(r, c, p.owner, o).0, Target(r, c, p.owner, o).1).value.owner != p.owner
      ensures Target(r, c, p.owner, o) in PseudoMoves(b, r, c)
    {
      PseudoMovesIff(b, r, c, Target(r, c, p.owner, o));
    }
  }

  lemma {:induction false} LegalPrefixIff(b: Grid, r: int, c: int, s: Side, ms: seq<Pos>, n: nat, t: Pos)
    requires OnBoard(r, c) && n <= |ms|
    ensures t in LegalPrefix(b, r, c, s, ms, n) <==> t in ms[..n] && LeavesSafe(b, r, c, s, t)
    decreases n
  {
    if n > 0 {
      LegalPrefixIff(b, r, c, s, ms, n - 1, t);
      var m := ms[n - 1];
      var prev := LegalPrefix(b, r, c, s, ms, n - 1);
      var tail := if LeavesSafe(b, r, c, s, m) then [m] else [];
      assert LegalPrefix(b, r, c, s, ms, n) == prev + tail;
      assert ms[..n] == ms[..n - 1] + [m];
      assert t in prev + tail <==> t in prev || t in tail;
      assert t in ms[..n] <==> t in ms[..n - 1] || t == m;
    }
  }

  /**
   * `getValidMoves(r, c)` returns exactly the pseudo-legal destinations after
   * which the mover's own king is not in check.
   */
  lemma ValidMovesIff(b: Grid, r: int, c: int, t: Pos)
    requires OnBoard(r, c) && At(b, r, c).Some?
    ensures t in ValidMoves(b, r, c, false) <==>
      t in PseudoMoves(b, r, c) && LeavesSafe(b, r, c, At(b, r, c).value.owner, t)
  {
    var ms := PseudoMoves(b, r, c);
    PseudoOnBoard(b, r, c);
    LegalPrefixIff(b, r, c, At(b, r, c).value.owner, ms, |ms|, t);
    assert ms[..|ms|] == ms;
  }

  // ---------------------------------------------------------------------
  // Properties of check detection
  // ---------------------------------------------------------------------

  lemma {:induction false} KingAfterRowsSound(b: Grid, s: Side, n: nat)
    requires n <= 9
    ensures KingAfterRows(b, s, n).Some? ==>
      var k := KingAfterRows(b, s, n).value; OnBoard(k.0, k.1) && IsKingOf(At(b, k.0, k.1), s)
    ensures KingAfterRows(b, s, n).None? <==> forall r, c :: 0 <= r < n && 0 <= c < 9 ==> !IsKingOf(At(b, r, c), s)
    decreases n
  {
    if n > 0 {
      KingAfterRowsSound(b, s, n - 1);
    }
  }

  /**
   * The king `isKingInCheck` looks at is a king of that side; it finds none
   * exactly when the side has no king, and a side without a king is never in
   * check.
   */
  lemma FindKingSound(b: Grid, s: Side)
    ensures FindKing(b, s).Some? ==> var k := FindKing(b, s).value; OnBoard(k.0, k.1) && IsKingOf(At(b, k.0, k.1), s)
    ensures FindKing(b, s).None? <==> forall r, c :: OnBoard(r, c) ==> !IsKingOf(At(b, r, c), s)
    ensures FindKing(b, s).None? ==> !KingInCheck(b, s)
  {
    KingAfterRowsSound(b, s, 9);
  }

  lemma {:induction false} AttackedBeforeIff(b: Grid, s: Side, k: Pos, n: nat)
    requires n <= 81
    ensures AttackedBefore(b, s, k, n) <==> exists i :: 0 <= i < n && AttacksFrom(b, i, s, k)
  {
    if n > 0 {
      AttackedBeforeIff(b, s, k, n - 1);
      if AttackedBefore(b, s, k, n) {
        if !AttacksFrom(b, n - 1, s, k) {
          assert AttackedBefore(b, s, k, n - 1);
          var i :| 0 <= i < n - 1 && AttacksFrom(b, i, s, k);
          assert 0 <= i < n && AttacksFrom(b, i, s, k);
        }
      } else {
        forall i | 0 <= i < n
          ensures !AttacksFrom(b, i, s, k)
        {
          if i < n - 1 {
            assert !AttackedBefore(b, s, k, n - 1);
          }
        }
      }
    }
  }

  /**
   * `isKingInCheck(s)` holds exactly when s has a king and some piece of the
   * opponent, ignoring the self-check filter, reaches the square `FindKing`
   * chooses.
   */
  lemma KingInCheckIff(b: Grid, s: Side)
    ensures KingInCheck(b, s) <==>
      FindKing(b, s).Some? && exists i :: 0 <= i < 81 && AttacksFrom(b, i, Opponent(s), FindKing(b, s).value)
  {
    if FindKing(b, s).Some? {
      AttackedBeforeIff(b, Opponent(s), FindKing(b, s).value, 81);
    }
  }

  // ---------------------------------------------------------------------
  // Properties of drops
  // ---------------------------------------------------------------------

  /**
   * The dead-drop rule forbids exactly the drops of 歩, 香 and 桂 from which
   * none of the piece's own offsets lands on the board.
   */
  lemma DeadDropMeansNoMove(t: PieceType, r: int, c: int, s: Side)
    requires t in {Pawn, Lance, Knight} && OnBoard(r, c)
    ensures DeadDrop(t, r, s) <==> forall o :: o in Offsets(t) ==> !OnBoard(Target(r, c, s, o).0, Target(r, c, s, o).1)
  {
    if t == Lance && !DeadDrop(t, r, s) {
      assert Offsets(t)[0] == (0, -1);
    } else if t == Knight && !DeadDrop(t, r, s) {
      assert Offsets(t) == [(-1, -2), (1, -2)];
      var o: Offset := if (s == Player) == (c == 0) then (1, -2) else (-1, -2);
      assert o in Offsets(t);
      assert OnBoard(Target(r, c, s, o).0, Target(r, c, s, o).1);
    } else if t == Lance {
      assert Offsets(t) == Ray(0, -1);
      forall o | o in Offsets(t)
        ensures !OnBoard(Target(r, c, s, o).0, Target(r, c, s, o).1)
      {
        var k :| 0 <= k < 8 && Ray(0, -1)[k] == o;
        assert o == (0, -(k + 1));
      }
    } else if t == Knight {
      assert Offsets(t) == [(-1, -2), (1, -2)];
    } else {
      assert Offsets(t) == [(0, -1)];
      assert (0, -1) in Offsets(t);
    }
  }

  /** A pawn drop that is accepted leaves exactly one unpromoted pawn of the dropper on that file. */
  lemma PawnDropKeepsOnePerFile(b: Grid, pp: seq<PieceType>, cp: seq<PieceType>, r: int, c: int, s: Side)
    requires OnBoard(r, c) && CanDrop(b, pp, cp, Pawn, r, c, s)
    ensures forall r' :: 0 <= r' < 9 ==> (OwnPawn(Dropped(b, Pawn, r, c, s), r', c, s) <==> r' == r)
  {
    forall r' | 0 <= r' < 9
      ensures OwnPawn(Dropped(b, Pawn, r, c, s), r', c, s) <==> r' == r
    {
      if r' != r {
        assert !OwnPawn(b, r', c, s);
      }
    }
  }

  /**
   * Helper, read off the definitions: an empty list of legal moves is
   * checkmate or stalemate, never both.
   */
  lemma NoMovesIsMateOrStalemate(b: Grid, pp: seq<PieceType>, cp: seq<PieceType>, s: Side)
    ensures |AllLegalMoves(b, pp, cp, s)| == 0 <==> Checkmate(b, pp, cp, s) || Stalemate(b, pp, cp, s)
    ensures !(Checkmate(b, pp, cp, s) && Stalemate(b, pp, cp, s))
  {
  }

  // ---------------------------------------------------------------------
  // hasAnyLegalMove against getAllLegalMoves
  // ---------------------------------------------------------------------

  lemma {:induction false} BoardMovesHaveSource(b: Grid, s: Side, n: nat)
    requires n <= 81
    ensures |BoardMovesPrefix(b, s, n)| > 0 ==> exists i :: 0 <= i < n && HasMoveFrom(b, i, s)
  {
    if n > 0 {
      BoardMovesHaveSource(b, s, n - 1);
      if |SquareMoves(b, s, n - 1)| > 0 {
        assert HasMoveFrom(b, n - 1, s);
      }
    }
  }

  lemma BoardMovesSnoc(b: Grid, s: Side, i: nat)
    requires i < 81
    ensures BoardMovesPrefix(b, s, i + 1) == BoardMovesPrefix(b, s, i) + SquareMoves(b, s, i)
  {
  }

  /** A piece with a legal destination puts its first move on the board-move list. */
  lemma SourceMoveListed(b: Grid, s: Side, i: nat)
    requires i < 81 && HasMoveFrom(b, i, s)
    ensures |BoardMovesPrefix(b, s, 81)| > 0
  {
    RowColOf(i);
    var r, c := RowOf(i), ColOf(i);
    var t := ValidMoves(b, r, c, false)[0];
    var m := BoardMove(r, c, t.0, t.1, b[i].value);
    assert At(b, r, c) == b[i];
    BoardMovesPrefixIff(b, s, 81, m);
  }

  lemma {:induction false} DropsPrefixHaveSource(b: Grid, pp: seq<PieceType>, cp: seq<PieceType>, s: Side, t: PieceType, n: nat)
    requires n <= 81
    ensures |DropsPrefix(b, pp, cp, s, t, n)| > 0 ==> exists i :: 0 <= i < n && DropNoUchiAt(b, t, i, s)
  {
    if n > 0 {
      DropsPrefixHaveSource(b, pp, cp, s, t, n - 1);
      RowColOf(n - 1);
      if CanDrop(b, pp, cp, t, RowOf(n - 1), ColOf(n - 1), s) {
        assert DropNoUchiAt(b, t, n - 1, s);
      }
    }
  }

  lemma {:induction false} DropsOfKindsHaveSource(b: Grid, pp: seq<PieceType>, cp: seq<PieceType>, s: Side, ts: seq<PieceType>, n: nat)
    requires n <= |ts|
    ensures |DropsOfKinds(b, pp, cp, s, ts, n)| > 0 ==> exists t, i :: t in ts && 0 <= i < 81 && DropNoUchiAt(b, t, i, s)
  {
    if n > 0 {
      DropsOfKindsHaveSource(b, pp, cp, s, ts, n - 1);
      DropsPrefixHaveSource(b, pp, cp, s, ts[n - 1], 81);
    }
  }

  /**
   * `hasAnyLegalMove` finds a move whenever `getAllLegalMoves` lists one,
   * and a piece with a legal move puts a move on the list.
   */
  lemma LegalMovesFound(b: Grid, pp: seq<PieceType>, cp: seq<PieceType>, s: Side)
    ensures |AllLegalMoves(b, pp, cp, s)| > 0 ==> HasAnyLegalMove(b, PoolOf(pp, cp, s), s)
    ensures (exists i :: 0 <= i < 81 && HasMoveFrom(b, i, s)) ==> |AllLegalMoves(b, pp, cp, s)| > 0
  {
    var kinds := Dedup(PoolOf(pp, cp, s));
    BoardMovesHaveSource(b, s, 81);
    DropsOfKindsHaveSource(b, pp, cp, s, kinds, |kinds|);
    if i :| 0 <= i < 81 && HasMoveFrom(b, i, s) {
      SourceMoveListed(b, s, i);
    }
  }

  /**
   * A pawn drop that the uchifuzume test rejects would be mate: the enemy
   * is in check and `getAllLegalMoves` has nothing for it.
   */
  lemma UchifuzumeMates(b: Grid, pp: seq<PieceType>, cp: seq<PieceType>, r: int, c: int, s: Side)
    requires OnBoard(r, c) && IsUchifuzume(b, pp, cp, Pawn, r, c, s)
    ensures Checkmate(Dropped(b, Pawn, r, c, s), pp, cp, Opponent(s))
  {
    LegalMovesFound(Dropped(b, Pawn, r, c, s), pp, cp, Opponent(s));
  }

  // ---------------------------------------------------------------------
  // Shape of the generated moves
  // ---------------------------------------------------------------------

  /**
   * What every move of `getAllLegalMoves(s)` satisfies: a board move carries
   * the piece standing on its origin, which belongs to s, and goes to a square
   * that is empty or holds an enemy piece; a drop goes to an empty square with
   * a type from s's pool.
   */
  predicate WellFormed(b: Grid, pool: seq<PieceType>, s: Side, m: Move)
  {
    OnBoard(m.toRow, m.toCol)
    && match m
       case BoardMove(fr, fc, tr, tc, p) =>
         OnBoard(fr, fc) && At(b, fr, fc) == Some(p) && p.owner == s
         && (At(b, tr, tc).None? || At(b, tr, tc).value.owner != s)
       case DropMove(t, tr, tc, o) => At(b, tr, tc).None? && o == s && t in pool
  }

  lemma SquareMovesWellFormed(b: Grid, pool: seq<PieceType>, s: Side, i: nat)
    requires i < 81
    ensures forall m :: m in SquareMoves(b, s, i) ==> WellFormed(b, pool, s, m)
  {
    if b[i].Some? && b[i].value.owner == s {
      var r, c, p := RowOf(i), ColOf(i), b[i].value;
      RowColOf(i);
      var ts := ValidMoves(b, r, c, false);
      forall m | m in SquareMoves(b, s, i)
        ensures WellFormed(b, pool, s, m)
      {
        var j :| 0 <= j < |ts| && MovesTo(r, c, p, ts)[j] == m;
        var t := ts[j];
        ValidMovesIff(b, r, c, t);
        PseudoMovesIff(b, r, c, t);
        var o :| o in Offsets(p.kind) && Emits(b, r, c, p, o) && Target(r, c, p.owner, o) == t;
      }
    }
  }

  lemma {:induction false} BoardMovesWellFormed(b: Grid, pool: seq<PieceType>, s: Side, n: nat)
    requires n <= 81
    ensures forall m :: m in BoardMovesPrefix(b, s, n) ==> WellFormed(b, pool, s, m)
  {
    if n > 0 {
      BoardMovesWellFormed(b, pool, s, n - 1);
      SquareMovesWellFormed(b, pool, s, n - 1);
    }
  }

  lemma {:induction false} DropsPrefixWellFormed(b: Grid, pp: seq<PieceType>, cp: seq<PieceType>, s: Side, t: PieceType, n: nat)
    requires n <= 81 && t in PoolOf(pp, cp, s)
    ensures forall m :: m in DropsPrefix(b, pp, cp, s, t, n) ==> WellFormed(b, PoolOf(pp, cp, s), s, m)
  {
    if n > 0 {
      DropsPrefixWellFormed(b, pp, cp, s, t, n - 1);
      RowColOf(n - 1);
    }
  }

  lemma {:induction false} DropsOfKindsWellFormed(b: Grid, pp: seq<PieceType>, cp: seq<PieceType>, s: Side, ts: seq<PieceType>, n: nat)
    requires n <= |ts| && forall t :: t in ts ==> t in PoolOf(pp, cp, s)
    ensures forall m :: m in DropsOfKinds(b, pp, cp, s, ts, n) ==> WellFormed(b, PoolOf(pp, cp, s), s, m)
  {
    if n > 0 {
      DropsOfKindsWellFormed(b, pp, cp, s, ts, n - 1);
      DropsPrefixWellFormed(b, pp, cp, s, ts[n - 1], 81);
    }
  }

  /** Every move `getAllLegalMoves(s)` returns is well formed. */
  lemma AllLegalMovesWellFormed(b: Grid, pp: seq<PieceType>, cp: seq<PieceType>, s: Side)
    ensures forall m :: m in AllLegalMoves(b, pp, cp, s) ==> WellFormed(b, PoolOf(pp, cp, s), s, m)
  {
    var kinds := Dedup(PoolOf(pp, cp, s));
    BoardMovesWellFormed(b, PoolOf(pp, cp, s), s, 81);
    DropsOfKindsWellFormed(b, pp, cp, s, kinds, |kinds|);
  }

  /**
   * What makes a move one of `getAllLegalMoves(s)`: a board move of s's
   * piece on its origin to one of `getValidMoves` of that square, or a drop
   * of a type from s's hand that `canPlaceCapturedPiece` allows.
   */
  predicate Generated(b: Grid, pp: seq<PieceType>, cp: seq<PieceType>, s: Side, m: Move)
  {
    match m
    case BoardMove(fr, fc, tr, tc, p) =>
      OnBoard(fr, fc) && At(b, fr, fc) == Some(p) && p.owner == s && (tr, tc) in ValidMoves(b, fr, fc, false)
    case DropMove(t, tr, tc, o) =>
      o == s && t in PoolOf(pp, cp, s) && OnBoard(tr, tc) && CanDrop(b, pp, cp, t, tr, tc, s)
  }

  lemma SquareMovesIff(b: Grid, s: Side, i: nat, m: Move)
    requires i < 81
    ensures m in SquareMoves(b, s, i) <==>
      m.BoardMove? && OnBoard(m.fromRow, m.fromCol) && Idx(m.fromRow, m.fromCol) == i
      && At(b, m.fromRow, m.fromCol) == Some(m.piece) && m.piece.owner == s
      && (m.toRow, m.toCol) in ValidMoves(b, m.fromRow, m.fromCol, false)
  {
    RowColOf(i);
    if m.BoardMove? && OnBoard(m.fromRow, m.fromCol) && Idx(m.fromRow, m.fromCol) == i {
      IdxInjective(m.fromRow, m.fromCol, RowOf(i), ColOf(i));
      if b[i].Some? && b[i].value.owner == s && b[i] == Some(m.piece)
         && (m.toRow, m.toCol) in ValidMoves(b, m.fromRow, m.fromCol, false) {
        var ts := ValidMoves(b, RowOf(i), ColOf(i), false);
        var j :| 0 <= j < |ts| && ts[j] == (m.toRow, m.toCol);
        assert MovesTo(RowOf(i), ColOf(i), b[i].value, ts)[j] == m;
      }
    }
  }

  lemma {:induction false} BoardMovesPrefixIff(b: Grid, s: Side, n: nat, m: Move)
    requires n <= 81
    ensures m in BoardMovesPrefix(b, s, n) <==>
      m.BoardMove? && OnBoard(m.fromRow, m.fromCol) && Idx(m.fromRow, m.fromCol) < n
      && At(b, m.fromRow, m.fromCol) == Some(m.piece) && m.piece.owner == s
      && (m.toRow, m.toCol) in ValidMoves(b, m.fromRow, m.fromCol, false)
  {
    if n > 0 {
      BoardMovesPrefixIff(b, s, n - 1, m);
      SquareMovesIff(b, s, n - 1, m);
    }
  }

  lemma {:induction false} DropsPrefixIff(b: Grid, pp: seq<PieceType>, cp: seq<PieceType>, s: Side, t: PieceType, n: nat, m: Move)
    requires n <= 81
    ensures m in DropsPrefix(b, pp, cp, s, t, n) <==>
      m.DropMove? && m.kind == t && m.owner == s && OnBoard(m.toRow, m.toCol) && Idx(m.toRow, m.toCol) < n
      && CanDrop(b, pp, cp, t, m.toRow, m.toCol, s)
  {
    if n > 0 {
      DropsPrefixIff(b, pp, cp, s, t, n - 1, m);
      RowColOf(n - 1);
      if m.DropMove? && OnBoard(m.toRow, m.toCol) {
        IdxInjective(m.toRow, m.toCol, RowOf(n - 1), ColOf(n - 1));
      }
    }
  }

  lemma {:induction false} DropsOfKindsIff(b: Grid, pp: seq<PieceType>, cp: seq<PieceType>, s: Side, ts: seq<PieceType>, n: nat, m: Move)
    requires n <= |ts|
    ensures m in DropsOfKinds(b, pp, cp, s, ts, n) <==>
      m.DropMove? && m.kind in ts[..n] && m.owner == s && OnBoard(m.toRow, m.toCol)
      && CanDrop(b, pp, cp, m.kind, m.toRow, m.toCol, s)
  {
    if n > 0 {
      DropsOfKindsIff(b, pp, cp, s, ts, n - 1, m);
      DropsPrefixIff(b, pp, cp, s, ts[n - 1], 81, m);
      assert ts[..n] == ts[..n - 1] + [ts[n - 1]];
    }
  }

  /** `getAllLegalMoves(s)` holds exactly the generated moves. */
  lemma AllLegalMovesIff(b: Grid, pp: seq<PieceType>, cp: seq<PieceType>, s: Side, m: Move)
    ensures m in AllLegalMoves(b, pp, cp, s) <==> Generated(b, pp, cp, s, m)
  {
    var kinds := Dedup(PoolOf(pp, cp, s));
    BoardMovesPrefixIff(b, s, 81, m);
    DropsOfKindsIff(b, pp, cp, s, kinds, |kinds|, m);
    assert kinds[..|kinds|] == kinds;
  }
}
