/**
 * The computer's search in `ShogiGame` as functions of a position value:
 * scores with the two infinities, the static evaluation `evaluateBoard`, the
 * move ordering `orderMoves`, the virtual moves `applyVirtualMove` /
 * `undoVirtualMove`, the transposition table and `minimax`, and the
 * selection loops around the root of the search.
 */
module Search {
  import opened Wrappers
  import opened Pieces
  import opened Board
  import opened Rules
  import opened Hashing
  import Sfen

  // ---------------------------------------------------------------------
  // Scores
  // ---------------------------------------------------------------------

  /** A search score: a number, or -Infinity / Infinity. */
  datatype Score = NegInf | Fin(n: int) | PosInf

  /** `a < b` on scores. */
  predicate Lt(a: Score, b: Score)
  {
    match a
    case NegInf => !b.NegInf?
    case Fin(x) => b.PosInf? || (b.Fin? && x < b.n)
    case PosInf => false
  }

  /** `a <= b` on scores. */
  predicate Le(a: Score, b: Score)
  {
    !Lt(b, a)
  }

  /** `Math.max(a, b)`. */
  function Max(a: Score, b: Score): (r: Score)
    ensures Le(a, r) && Le(b, r) && (r == a || r == b)
  {
    if Lt(a, b) then b else a
  }

  lemma LtTransitive(a: Score, b: Score, c: Score)
    requires Lt(a, b) && Lt(b, c)
    ensures Lt(a, c)
  {
  }

  lemma LtTrichotomy(a: Score, b: Score)
    ensures Lt(a, b) || a == b || Lt(b, a)
    ensures !(Lt(a, b) && Lt(b, a))
  {
  }

  // ---------------------------------------------------------------------
  // evaluateBoard
  // ---------------------------------------------------------------------

  /** The sum of a list of integers. */
  function Sum(xs: seq<int>): int
  {
    if |xs| == 0 then 0 else Sum(xs[..|xs| - 1]) + xs[|xs| - 1]
  }

  /**
   * Material and square bonus of piece p on (r, c), counted for the computer
   * and against the player; the player's pieces read the table turned
   * half round, at (8 - r, 8 - c).
   */
  function PieceTerm(p: Piece, r: int, c: int): int
    requires OnBoard(r, c)
  {
    if p.owner == Cpu then PieceValue(p.kind) + Pst(p.kind)[r][c]
    else -(PieceValue(p.kind) + Pst(p.kind)[8 - r][8 - c])
  }

  function SquareTerm(b: Grid, i: nat): int
    requires i < 81
  {
    match b[i]
    case None => 0
    case Some(p) => PieceTerm(p, RowOf(i), ColOf(i))
  }

  function SquareTerms(b: Grid): (r: seq<int>)
    ensures |r| == 81 && forall i :: 0 <= i < 81 ==> r[i] == SquareTerm(b, i)
  {
    seq(81, i requires 0 <= i < 81 => SquareTerm(b, i))
  }

  /** The first loop of `evaluateBoard`: every piece on the board. */
  function MaterialScore(b: Grid): int
  {
    Sum(SquareTerms(b))
  }

  /**
   * A type in hand is worth 1.15 times its value, computed here in exact integers. The
   * original multiplies floating-point numbers, so `100 * 1.15` is 114.99999999999999 there.
   */
  function HandValue(t: PieceType): int
  {
    PieceValue(t) * 115 / 100
  }

  function HandSum(pool: seq<PieceType>): int
  {
    if |pool| == 0 then 0 else HandSum(pool[..|pool| - 1]) + HandValue(pool[|pool| - 1])
  }

  /** The second part: the computer's pool counts for it, the player's against it. */
  function HandScore(pp: seq<PieceType>, cp: seq<PieceType>): int
  {
    HandSum(cp) - HandSum(pp)
  }

  /** The third part: 300 for a player in check, -300 for a computer in check. */
  function CheckScore(b: Grid): int
  {
    (if KingInCheck(b, Player) then 300 else 0) - (if KingInCheck(b, Cpu) then 300 else 0)
  }

  /** Square (r + dr, c + dc) is on the board and holds a piece of s. */
  function Friend(b: Grid, r: int, c: int, dr: int, dc: int, s: Side): int
  {
    if OnBoard(r + dr, c + dc) && At(b, r + dr, c + dc).Some? && At(b, r + dr, c + dc).value.owner == s then 1 else 0
  }

  /** The neighbours (r + dr, c - 1), (r + dr, c), (r + dr, c + 1) that hold a piece of s. */
  function RowFriends(b: Grid, r: int, c: int, dr: int, s: Side): int
  {
    Friend(b, r, c, dr, -1, s) + Friend(b, r, c, dr, 0, s) + Friend(b, r, c, dr, 1, s)
  }

  /** The number of the eight neighbours of (r, c) that hold a piece of s. */
  function Defenders(b: Grid, r: int, c: int, s: Side): int
  {
    RowFriends(b, r, c, -1, s) + Friend(b, r, c, 0, -1, s) + Friend(b, r, c, 0, 1, s) + RowFriends(b, r, c, 1, s)
  }

  /** 20 per defender of a 王 or 玉 on square i, for its owner. */
  function SafetyTerm(b: Grid, i: nat): int
    requires i < 81
  {
    match b[i]
    case None => 0
    case Some(p) =>
      if IsKing(p.kind) then
        var bonus := Defenders(b, RowOf(i), ColOf(i), p.owner) * 20;
        if p.owner == Cpu then bonus else -bonus
      else 0
  }

  function SafetyTerms(b: Grid): (r: seq<int>)
    ensures |r| == 81 && forall i :: 0 <= i < 81 ==> r[i] == SafetyTerm(b, i)
  {
    seq(81, i requires 0 <= i < 81 => SafetyTerm(b, i))
  }

  /** The last loop of `evaluateBoard`: king safety. */
  function SafetyScore(b: Grid): int
  {
    Sum(SafetyTerms(b))
  }

  /** Replacing one term of a list changes the sum by the difference. */
  lemma {:induction false} SumUpdate(xs: seq<int>, i: nat, x: int)
    requires i < |xs|
    ensures Sum(xs[i := x]) == Sum(xs) - xs[i] + x
    decreases |xs|
  {
    var ys := xs[i := x];
    var n := |xs| - 1;
    assert ys[..n] == if i == n then xs[..n] else xs[..n][i := x];
    if i < n {
      SumUpdate(xs[..n], i, x);
    }
  }

  lemma {:induction false} SumZeros(xs: seq<int>)
    requires forall i :: 0 <= i < |xs| ==> xs[i] == 0
    ensures Sum(xs) == 0
    decreases |xs|
  {
    if |xs| > 0 {
      SumZeros(xs[..|xs| - 1]);
    }
  }

  /**
   * The square loop adds each square on its own: writing one square changes
   * the material score by that square's term alone.
   */
  lemma MaterialPut(b: Grid, r: int, c: int, x: Cell)
    requires OnBoard(r, c)
    ensures MaterialScore(Put(b, r, c, x))
         == MaterialScore(b) - SquareTerm(b, Idx(r, c)) + (if x.Some? then PieceTerm(x.value, r, c) else 0)
  {
    var b' := Put(b, r, c, x);
    var i := Idx(r, c);
    RowColOf(i);
    forall j | 0 <= j < 81 && j != i
      ensures b'[j] == b[j]
    {
      RowColOf(j);
    }
    assert SquareTerms(b') == SquareTerms(b)[i := SquareTerm(b', i)];
    SumUpdate(SquareTerms(b), i, SquareTerm(b', i));
  }

  /** Only kings earn safety: a board without a 王 or 玉 has safety score 0. */
  lemma SafetyWithoutKings(b: Grid)
    requires forall i :: 0 <= i < 81 ==> b[i].None? || !IsKing(b[i].value.kind)
    ensures SafetyScore(b) == 0
  {
    forall i | 0 <= i < 81
      ensures SafetyTerms(b)[i] == 0
    {
      SafetyTermOf(b, i);
    }
    SumZeros(SafetyTerms(b));
  }

  /**
   * A square's safety term: a computer king adds 0 to 160 (20 for each of at
   * most eight defenders), a player king subtracts as much, any other square adds 0.
   */
  lemma SafetyTermSigned(b: Grid, i: nat)
    requires i < 81
    ensures b[i].None? || !IsKing(b[i].value.kind) ==> SafetyTerm(b, i) == 0
    ensures b[i].Some? && IsKing(b[i].value.kind) && b[i].value.owner == Cpu ==> 0 <= SafetyTerm(b, i) <= 160
    ensures b[i].Some? && IsKing(b[i].value.kind) && b[i].value.owner == Player ==> -160 <= SafetyTerm(b, i) <= 0
    ensures SafetyTerm(b, i) % 20 == 0
  {
    SafetyTermOf(b, i);
  }

  /**
   * `evaluateBoard(player)`, always from the computer's point of view (the
   * argument is not used): positive favours the computer.
   */
  function Evaluate(b: Grid, pp: seq<PieceType>, cp: seq<PieceType>): int
  {
    MaterialScore(b) + HandScore(pp, cp) + CheckScore(b) + SafetyScore(b)
  }

  /** The cell with its owner swapped. */
  function Flip(x: Cell): Cell
  {
    match x
    case None => None
    case Some(p) => Some(Piece(p.kind, Opponent(p.owner), p.promoted))
  }

  /** The board turned half round with the sides swapped: the mirror position. */
  function Rotate(b: Grid): (r: Grid)
    ensures forall i :: 0 <= i < 81 ==> r[i] == Flip(b[80 - i])
  {
    seq(81, i requires 0 <= i < 81 => Flip(b[80 - i]))
  }

  lemma {:induction false} SumFront(xs: seq<int>)
    requires |xs| > 0
    ensures Sum(xs) == xs[0] + Sum(xs[1..])
    decreases |xs|
  {
    if |xs| > 1 {
      SumFront(xs[..|xs| - 1]);
      assert xs[..|xs| - 1][1..] == xs[1..][..|xs| - 2];
    } else {
      assert xs[1..] == [];
      assert xs[..0] == [];
    }
  }

  /** A list read backwards and negated sums to the negated sum. */
  lemma {:induction false} SumNegatedReverse(xs: seq<int>, ys: seq<int>)
    requires |xs| == |ys|
    requires forall i :: 0 <= i < |ys| ==> ys[i] == -xs[|xs| - 1 - i]
    ensures Sum(ys) == -Sum(xs)
    decreases |xs|
  {
    if |xs| > 0 {
      SumFront(xs);
      SumNegatedReverse(xs[1..], ys[..|ys| - 1]);
    }
  }

  /** Square i of the mirror board is square 80 - i of the original: row and column turned round. */
  lemma MirrorIndex(i: nat)
    requires i < 81
    ensures RowOf(80 - i) == 8 - RowOf(i) && ColOf(80 - i) == 8 - ColOf(i)
  {
    var q, m := i / 9, i % 9;
    assert 80 - i == (8 - q) * 9 + (8 - m);
  }

  lemma MirrorSquare(b: Grid, i: nat)
    requires i < 81
    ensures SquareTerm(Rotate(b), i) == -SquareTerm(b, 80 - i)
  {
    MirrorIndex(i);
  }

  lemma MirrorFriend(b: Grid, r: int, c: int, dr: int, dc: int, s: Side)
    requires OnBoard(r, c)
    ensures Friend(Rotate(b), 8 - r, 8 - c, -dr, -dc, Opponent(s)) == Friend(b, r, c, dr, dc, s)
  {
    if OnBoard(r + dr, c + dc) {
      var i := Idx(r + dr, c + dc);
      var j := Idx(8 - r - dr, 8 - c - dc);
      assert j == 80 - i;
    }
  }

  lemma MirrorRowFriends(b: Grid, r: int, c: int, dr: int, s: Side)
    requires OnBoard(r, c)
    ensures RowFriends(Rotate(b), 8 - r, 8 - c, -dr, Opponent(s)) == RowFriends(b, r, c, dr, s)
  {
    MirrorFriend(b, r, c, dr, -1, s);
    MirrorFriend(b, r, c, dr, 0, s);
    MirrorFriend(b, r, c, dr, 1, s);
  }

  lemma MirrorDefenders(b: Grid, r: int, c: int, r': int, c': int, s: Side)
    requires OnBoard(r, c) && r' == 8 - r && c' == 8 - c
    ensures Defenders(Rotate(b), r', c', Opponent(s)) == Defenders(b, r, c, s)
  {
    MirrorRowFriends(b, r, c, -1, s);
    MirrorRowFriends(b, r, c, 1, s);
    MirrorFriend(b, r, c, 0, -1, s);
    MirrorFriend(b, r, c, 0, 1, s);
  }

  /** The safety term of a square holding a king, and of one holding anything else. */
  lemma SafetyTermOf(b: Grid, i: nat)
    requires i < 81
    ensures b[i].None? || !IsKing(b[i].value.kind) ==> SafetyTerm(b, i) == 0
    ensures b[i].Some? && IsKing(b[i].value.kind) ==>
      var d := Defenders(b, RowOf(i), ColOf(i), b[i].value.owner) * 20;
      SafetyTerm(b, i) == if b[i].value.owner == Cpu then d else -d
  {
  }

  lemma MirrorSafety(b: Grid, i: nat)
    requires i < 81
    ensures SafetyTerm(Rotate(b), i) == -SafetyTerm(b, 80 - i)
  {
    var j := 80 - i;
    MirrorIndex(i);
    RowColOf(j);
    var rb := Rotate(b);
    assert rb[i] == Flip(b[j]);
    SafetyTermOf(b, j);
    SafetyTermOf(rb, i);
    if b[j].Some? && IsKing(b[j].value.kind) {
      var p := b[j].value;
      assert rb[i] == Some(Piece(p.kind, Opponent(p.owner), p.promoted));
      MirrorDefenders(b, RowOf(j), ColOf(j), RowOf(i), ColOf(i), p.owner);
    } else {
      assert rb[i].None? || !IsKing(rb[i].value.kind);
    }
  }

  /**
   * The evaluation is antisymmetric in everything but the check terms: in the
   * mirror position (board turned round, sides and pools swapped) material,
   * square bonuses, hands and king safety all change sign.
   */
  lemma EvaluateMirror(b: Grid, pp: seq<PieceType>, cp: seq<PieceType>)
    ensures MaterialScore(Rotate(b)) == -MaterialScore(b)
    ensures SafetyScore(Rotate(b)) == -SafetyScore(b)
    ensures HandScore(cp, pp) == -HandScore(pp, cp)
    ensures Evaluate(Rotate(b), cp, pp) - CheckScore(Rotate(b)) == -(Evaluate(b, pp, cp) - CheckScore(b))
  {
    forall i | 0 <= i < 81
      ensures SquareTerms(Rotate(b))[i] == -SquareTerms(b)[81 - 1 - i]
      ensures SafetyTerms(Rotate(b))[i] == -SafetyTerms(b)[81 - 1 - i]
    {
      MirrorSquare(b, i);
      MirrorSafety(b, i);
    }
    SumNegatedReverse(SquareTerms(b), SquareTerms(Rotate(b)));
    SumNegatedReverse(SafetyTerms(b), SafetyTerms(Rotate(b)));
  }

  // ---------------------------------------------------------------------
  // orderMoves
  // ---------------------------------------------------------------------

  /** `Math.abs(c - 4) + Math.abs(r - 4)`. */
  function CenterDistance(r: int, c: int): nat
  {
    Abs(c - 4) + Abs(r - 4)
  }

  /** The promotion bonus test of `orderMoves`: an unpromoted promotable piece arriving in the mover's zone. */
  predicate ZoneArrival(p: Piece, toRow: int, s: Side)
  {
    !p.promoted && CanPromote(p.kind) && ((s == Cpu && toRow >= 6) || (s == Player && toRow <= 2))
  }

  /**
   * The ordering score of a move for side s: a capture scores 10000 plus ten
   * times the victim's value less the attacker's; arriving in the zone
   * unpromoted scores 500; nearness to the centre and advance add up to 80 and
   * 40. A drop scores a tenth of the type's value plus up to 40 for the centre.
   */
  function MoveScore(b: Grid, m: Move, s: Side): int
    requires OnBoard(m.toRow, m.toCol)
  {
    match m
    case BoardMove(_, _, tr, tc, p) =>
      var target := At(b, tr, tc);
      var capture := if target.Some? then 10000 + PieceValue(target.value.kind) * 10 - PieceValue(p.kind) else 0;
      var promotion := if ZoneArrival(p, tr, s) then 500 else 0;
      var center := (8 - CenterDistance(tr, tc)) * 10;
      var advance := if s == Cpu then tr * 5 else (8 - tr) * 5;
      capture + promotion + center + advance
    case DropMove(t, tr, tc, _) =>
      PieceValue(t) / 10 + (8 - CenterDistance(tr, tc)) * 5
  }

  predicate TargetsOnBoard(ms: seq<Move>)
  {
    forall m :: m in ms ==> OnBoard(m.toRow, m.toCol)
  }

  /** Scores never increase along ms. */
  predicate Descending(b: Grid, ms: seq<Move>, s: Side)
    requires TargetsOnBoard(ms)
  {
    forall i, j :: 0 <= i < j < |ms| ==> MoveScore(b, ms[j], s) <= MoveScore(b, ms[i], s)
  }

  /** A move paired with its ordering score, as `orderMoves` maps it before sorting. */
  type Ranked = (Move, int)

  function Scored(b: Grid, ms: seq<Move>, s: Side): (r: seq<Ranked>)
    requires TargetsOnBoard(ms)
    ensures |r| == |ms| && forall j :: 0 <= j < |ms| ==> r[j] == (ms[j], MoveScore(b, ms[j], s))
  {
    seq(|ms|, j requires 0 <= j < |ms| => (ms[j], MoveScore(b, ms[j], s)))
  }

  function Firsts(ps: seq<Ranked>): (r: seq<Move>)
    ensures |r| == |ps| && forall j :: 0 <= j < |ps| ==> r[j] == ps[j].0
  {
    if |ps| == 0 then [] else [ps[0].0] + Firsts(ps[1..])
  }

  predicate RankedDescending(ps: seq<Ranked>)
  {
    forall i, j :: 0 <= i < j < |ps| ==> ps[j].1 <= ps[i].1
  }

  /** Insert x into a descending list after every pair that scores at least as much. */
  function InsertRanked(x: Ranked, ps: seq<Ranked>): (r: seq<Ranked>)
    requires RankedDescending(ps)
    ensures multiset(r) == multiset(ps) + multiset{x}
    ensures RankedDescending(r)
  {
    if |ps| == 0 then [x]
    else if ps[0].1 < x.1 then
      assert ps == [ps[0]] + ps[1..];
      ConsDescending(x, ps);
      [x] + ps
    else
      var tail := InsertRanked(x, ps[1..]);
      assert ps == [ps[0]] + ps[1..];
      BoundedBy(tail, ps[1..], x, ps[0].1);
      ConsDescending(ps[0], tail);
      [ps[0]] + tail
  }

  /** A pair scoring at least every pair of a descending list can go in front of it. */
  lemma ConsDescending(h: Ranked, t: seq<Ranked>)
    requires RankedDescending(t) && forall j :: 0 <= j < |t| ==> t[j].1 <= h.1
    ensures RankedDescending([h] + t)
  {
    var r := [h] + t;
    forall i, j | 0 <= i < j < |r|
      ensures r[j].1 <= r[i].1
    {
      assert r[j] == t[j - 1];
      if i > 0 {
        assert r[i] == t[i - 1];
      }
    }
  }

  /** Every pair of a list holding the pairs of ps and x scores at most v when they all do. */
  lemma BoundedBy(t: seq<Ranked>, ps: seq<Ranked>, x: Ranked, v: int)
    requires multiset(t) == multiset(ps) + multiset{x}
    requires x.1 <= v && forall j :: 0 <= j < |ps| ==> ps[j].1 <= v
    ensures forall j :: 0 <= j < |t| ==> t[j].1 <= v
  {
    forall j | 0 <= j < |t| ensures t[j].1 <= v {
      assert t[j] in multiset(t);
      if t[j] != x {
        assert t[j] in multiset(ps);
      }
    }
  }

  /** `sort((a, b) => b.score - a.score)`: a stable sort into descending order of score. */
  function SortRanked(ps: seq<Ranked>): (r: seq<Ranked>)
    ensures multiset(r) == multiset(ps)
    ensures RankedDescending(r)
  {
    if |ps| == 0 then []
    else
      assert ps == ps[..|ps| - 1] + [ps[|ps| - 1]];
      InsertRanked(ps[|ps| - 1], SortRanked(ps[..|ps| - 1]))
  }

  lemma {:induction false} InsertRankedFirsts(x: Ranked, ps: seq<Ranked>)
    requires RankedDescending(ps)
    ensures multiset(Firsts(InsertRanked(x, ps))) == multiset(Firsts(ps)) + multiset{x.0}
    decreases |ps|
  {
    if |ps| > 0 && ps[0].1 >= x.1 {
      var t := InsertRanked(x, ps[1..]);
      assert Firsts(InsertRanked(x, ps)) == [ps[0].0] + Firsts(t) by {
        assert InsertRanked(x, ps) == [ps[0]] + t;
      }
      assert Firsts(ps) == [ps[0].0] + Firsts(ps[1..]);
      InsertRankedFirsts(x, ps[1..]);
    } else if |ps| > 0 {
      assert Firsts(InsertRanked(x, ps)) == [x.0] + Firsts(ps) by {
        assert InsertRanked(x, ps) == [x] + ps;
      }
    }
  }

  lemma {:induction false} SortRankedFirsts(ps: seq<Ranked>)
    ensures multiset(Firsts(SortRanked(ps))) == multiset(Firsts(ps))
    decreases |ps|
  {
    if |ps| > 0 {
      var init, last := ps[..|ps| - 1], ps[|ps| - 1];
      calc {
        multiset(Firsts(SortRanked(ps)));
        == { assert SortRanked(ps) == InsertRanked(last, SortRanked(init)); }
        multiset(Firsts(InsertRanked(last, SortRanked(init))));
        == { InsertRankedFirsts(last, SortRanked(init)); }
        multiset(Firsts(SortRanked(init))) + multiset{last.0};
        == { SortRankedFirsts(init); }
        multiset(Firsts(init)) + multiset{last.0};
        == { FirstsAppend(init, [last]); assert init + [last] == ps; }
        multiset(Firsts(ps));
      }
    }
  }

  lemma FirstsAppend(xs: seq<Ranked>, ys: seq<Ranked>)
    ensures Firsts(xs + ys) == Firsts(xs) + Firsts(ys)
  {
    var l, r := Firsts(xs + ys), Firsts(xs) + Firsts(ys);
    assert |l| == |r|;
    forall j | 0 <= j < |l| ensures l[j] == r[j] {
      if j < |xs| {
        assert (xs + ys)[j] == xs[j];
      } else {
        assert (xs + ys)[j] == ys[j - |xs|];
      }
    }
  }

  /**
   * `orderMoves(moves, s)`: the same moves in descending order of score; the
   * sort is stable, so moves of equal score keep their order
   * (`OrderMovesStable`).
   */
  function OrderMoves(b: Grid, ms: seq<Move>, s: Side): (r: seq<Move>)
    requires TargetsOnBoard(ms)
    ensures multiset(r) == multiset(ms)
    ensures TargetsOnBoard(r) && Descending(b, r, s)
  {
    var ranked := Scored(b, ms, s);
    var sorted := SortRanked(ranked);
    SortRankedFirsts(ranked);
    ScoredFirsts(b, ms, s);
    SortedCarriesScores(b, ms, s);
    Firsts(sorted)
  }

  lemma ScoredFirsts(b: Grid, ms: seq<Move>, s: Side)
    requires TargetsOnBoard(ms)
    ensures Firsts(Scored(b, ms, s)) == ms
  {
  }

  /** After sorting, every pair still carries its own move's score. */
  lemma SortedCarriesScores(b: Grid, ms: seq<Move>, s: Side)
    requires TargetsOnBoard(ms)
    ensures var sorted := SortRanked(Scored(b, ms, s));
      forall j :: 0 <= j < |sorted| ==>
        OnBoard(sorted[j].0.toRow, sorted[j].0.toCol) && sorted[j].1 == MoveScore(b, sorted[j].0, s)
  {
    var ranked := Scored(b, ms, s);
    var sorted := SortRanked(ranked);
    forall j | 0 <= j < |sorted|
      ensures OnBoard(sorted[j].0.toRow, sorted[j].0.toCol) && sorted[j].1 == MoveScore(b, sorted[j].0, s)
    {
      assert sorted[j] in multiset(ranked);
      var k :| 0 <= k < |ranked| && ranked[k] == sorted[j];
      assert ms[k] in ms;
    }
  }

  /** The moves of ms that score v, in order. */
  function ScoredAs(b: Grid, ms: seq<Move>, s: Side, v: int): seq<Move>
    requires TargetsOnBoard(ms)
  {
    if |ms| == 0 then []
    else (if MoveScore(b, ms[0], s) == v then [ms[0]] else []) + ScoredAs(b, ms[1..], s, v)
  }

  /** The pairs of ps with score v, in order. */
  function RankedAs(ps: seq<Ranked>, v: int): seq<Ranked>
  {
    if |ps| == 0 then [] else (if ps[0].1 == v then [ps[0]] else []) + RankedAs(ps[1..], v)
  }

  lemma {:induction false} RankedAsAppend(xs: seq<Ranked>, ys: seq<Ranked>, v: int)
    ensures RankedAs(xs + ys, v) == RankedAs(xs, v) + RankedAs(ys, v)
    decreases |xs|
  {
    if |xs| > 0 {
      assert (xs + ys)[1..] == xs[1..] + ys;
      RankedAsAppend(xs[1..], ys, v);
    } else {
      assert xs + ys == ys;
    }
  }

  lemma {:induction false} RankedAsNone(ps: seq<Ranked>, v: int)
    requires forall j :: 0 <= j < |ps| ==> ps[j].1 < v
    ensures RankedAs(ps, v) == []
    decreases |ps|
  {
    if |ps| > 0 {
      RankedAsNone(ps[1..], v);
    }
  }

  lemma {:induction false} InsertRankedStable(x: Ranked, ps: seq<Ranked>, v: int)
    requires RankedDescending(ps)
    ensures RankedAs(InsertRanked(x, ps), v) == RankedAs(ps, v) + (if x.1 == v then [x] else [])
    decreases |ps|
  {
    var tailX := if x.1 == v then [x] else [];
    if |ps| == 0 {
    } else if ps[0].1 < x.1 {
      InsertRankedFront(x, ps, v);
    } else {
      var head := if ps[0].1 == v then [ps[0]] else [];
      var t := InsertRanked(x, ps[1..]);
      calc {
        RankedAs(InsertRanked(x, ps), v);
        == { assert InsertRanked(x, ps) == [ps[0]] + t; assert ([ps[0]] + t)[1..] == t; }
        head + RankedAs(t, v);
        == { InsertRankedStable(x, ps[1..], v); }
        head + (RankedAs(ps[1..], v) + tailX);
        == { Sfen.AssocSeq(head, RankedAs(ps[1..], v), tailX); }
        (head + RankedAs(ps[1..], v)) + tailX;
        == { assert RankedAs(ps, v) == head + RankedAs(ps[1..], v); }
        RankedAs(ps, v) + tailX;
      }
    }
  }

  lemma InsertRankedFront(x: Ranked, ps: seq<Ranked>, v: int)
    requires RankedDescending(ps) && |ps| > 0 && ps[0].1 < x.1
    ensures RankedAs(InsertRanked(x, ps), v) == RankedAs(ps, v) + (if x.1 == v then [x] else [])
  {
    var r := InsertRanked(x, ps);
    assert r == [x] + ps;
    assert r[1..] == ps;
    if x.1 == v {
      RankedAsNone(ps, v);
    }
  }

  lemma {:induction false} SortRankedStable(ps: seq<Ranked>, v: int)
    ensures RankedAs(SortRanked(ps), v) == RankedAs(ps, v)
    decreases |ps|
  {
    if |ps| > 0 {
      var init, last := ps[..|ps| - 1], ps[|ps| - 1];
      assert ps == init + [last];
      SortRankedStable(init, v);
      InsertRankedStable(last, SortRanked(init), v);
      RankedAsAppend(init, [last], v);
    }
  }

  /** Filtering the moves by score is filtering the pairs when every pair carries its move's score. */
  lemma {:induction false} ScoredAsFirsts(b: Grid, ps: seq<Ranked>, s: Side, v: int)
    requires forall j :: 0 <= j < |ps| ==> OnBoard(ps[j].0.toRow, ps[j].0.toCol) && ps[j].1 == MoveScore(b, ps[j].0, s)
    ensures TargetsOnBoard(Firsts(ps))
    ensures ScoredAs(b, Firsts(ps), s, v) == Firsts(RankedAs(ps, v))
    decreases |ps|
  {
    if |ps| > 0 {
      ScoredAsFirsts(b, ps[1..], s, v);
      assert Firsts(ps)[1..] == Firsts(ps[1..]);
      var head: seq<Ranked> := if ps[0].1 == v then [ps[0]] else [];
      assert Firsts(head + RankedAs(ps[1..], v)) == Firsts(head) + Firsts(RankedAs(ps[1..], v));
    }
  }

  /** For every score, the moves with that score come out of `orderMoves` in their original order. */
  lemma OrderMovesStable(b: Grid, ms: seq<Move>, s: Side, v: int)
    requires TargetsOnBoard(ms)
    ensures ScoredAs(b, OrderMoves(b, ms, s), s, v) == ScoredAs(b, ms, s, v)
  {
    var ranked := Scored(b, ms, s);
    var sorted := SortRanked(ranked);
    forall j | 0 <= j < |sorted|
      ensures OnBoard(sorted[j].0.toRow, sorted[j].0.toCol) && sorted[j].1 == MoveScore(b, sorted[j].0, s)
    {
      assert sorted[j] in multiset(ranked);
    }
    assert Firsts(ranked) == ms;
    assert OrderMoves(b, ms, s) == Firsts(sorted);
    ScoredAsFirsts(b, sorted, s, v);
    ScoredAsFirsts(b, ranked, s, v);
    SortRankedStable(ranked, v);
  }

  /** A board move capturing with anything but a king. */
  predicate NonKingCapture(b: Grid, m: Move)
    requires OnBoard(m.toRow, m.toCol)
  {
    m.BoardMove? && At(b, m.toRow, m.toCol).Some? && !IsKing(m.piece.kind)
  }

  /** A board move to an empty square, or a drop of anything but a king. */
  predicate Quiet(b: Grid, m: Move)
    requires OnBoard(m.toRow, m.toCol)
  {
    (m.BoardMove? && At(b, m.toRow, m.toCol).None?) || (m.DropMove? && !IsKing(m.kind))
  }

  lemma CaptureOutscoresQuiet(b: Grid, m1: Move, m2: Move, s: Side)
    requires OnBoard(m1.toRow, m1.toCol) && OnBoard(m2.toRow, m2.toCol)
    requires NonKingCapture(b, m1) && Quiet(b, m2)
    ensures MoveScore(b, m2, s) < MoveScore(b, m1, s)
  {
    var victim := At(b, m1.toRow, m1.toCol).value.kind;
    assert PieceValue(victim) >= 100;
    assert PieceValue(m1.piece.kind) <= 1200;
    if m2.DropMove? {
      assert PieceValue(m2.kind) <= 1200;
    }
  }

  /** `orderMoves` puts every capture by a non-king piece ahead of every quiet move and every non-king drop. */
  lemma OrderMovesCapturesFirst(b: Grid, ms: seq<Move>, s: Side)
    requires TargetsOnBoard(ms)
    ensures var r := OrderMoves(b, ms, s);
      forall i, j :: 0 <= i < j < |r| ==> !(Quiet(b, r[i]) && NonKingCapture(b, r[j]))
  {
    var r := OrderMoves(b, ms, s);
    forall i, j | 0 <= i < j < |r| && Quiet(b, r[i]) && NonKingCapture(b, r[j])
      ensures false
    {
      CaptureOutscoresQuiet(b, r[j], r[i], s);
    }
  }

  // ---------------------------------------------------------------------
  // applyVirtualMove / undoVirtualMove
  // ---------------------------------------------------------------------

  /** The part of the game a virtual move changes: the board and both captured pools. */
  datatype State = State(board: Grid, pp: seq<PieceType>, cp: seq<PieceType>)

  /** The state with side s's pool replaced. */
  function WithPool(st: State, s: Side, pool: seq<PieceType>): State
  {
    if s == Player then State(st.board, pool, st.cp) else State(st.board, st.pp, pool)
  }

  /** The record `applyVirtualMove` returns for `undoVirtualMove`. */
  datatype UndoInfo = UndoInfo(move: Move, originalPiece: Cell, capturedPiece: Cell, promoted: bool,
                               capturedPieceType: Option<PieceType>, capturedPieceIndex: int)

  /** `pool.indexOf(t)`: the first index holding t, or -1. */
  function KindIndex(pool: seq<PieceType>, t: PieceType): (i: int)
    ensures -1 <= i < |pool|
    ensures i == -1 <==> t !in pool
    ensures i >= 0 ==> pool[i] == t
  {
    if |pool| == 0 then -1
    else if pool[0] == t then 0
    else
      var k := KindIndex(pool[1..], t);
      if k == -1 then -1 else k + 1
  }

  /** `pool.lastIndexOf(t)`: the last index holding t, or -1. */
  function LastKindIndex(pool: seq<PieceType>, t: PieceType): (i: int)
    ensures -1 <= i < |pool|
    ensures i == -1 <==> t !in pool
    ensures i >= 0 ==> pool[i] == t
  {
    if |pool| == 0 then -1
    else if pool[|pool| - 1] == t then |pool| - 1
    else LastKindIndex(pool[..|pool| - 1], t)
  }

  /** `pool.splice(i, 1)`. */
  function RemoveAt(pool: seq<PieceType>, i: int): (r: seq<PieceType>)
    requires 0 <= i < |pool|
    ensures |r| == |pool| - 1
  {
    pool[..i] + pool[i + 1..]
  }

  /** `pool.splice(i, 0, t)`: a negative i counts from the end, and i is clamped to the pool. */
  function InsertAt(pool: seq<PieceType>, i: int, t: PieceType): (r: seq<PieceType>)
    ensures |r| == |pool| + 1
  {
    var k := if i < 0 then (if |pool| + i < 0 then 0 else |pool| + i) else if i > |pool| then |pool| else i;
    pool[..k] + [t] + pool[k..]
  }

  /** What `applyVirtualMove` reads without failing: on-board squares and, for a board move, a piece to move. */
  predicate Applicable(b: Grid, m: Move)
  {
    OnBoard(m.toRow, m.toCol)
    && (m.BoardMove? ==> OnBoard(m.fromRow, m.fromCol) && At(b, m.fromRow, m.fromCol).Some?)
  }

  /**
   * The promotion `applyVirtualMove` applies on its own: an unpromoted
   * promotable piece whose destination is in its owner's zone. Where the
   * piece came from is not looked at.
   */
  predicate AutoPromotes(p: Piece, toRow: int)
  {
    !p.promoted && CanPromote(p.kind) && ((p.owner == Player && toRow <= 2) || (p.owner == Cpu && toRow >= 6))
  }

  /** The board after `applyVirtualMove(m)`. */
  function ApplyBoard(b: Grid, m: Move): Grid
    requires Applicable(b, m)
  {
    match m
    case BoardMove(fr, fc, tr, tc, _) =>
      var p := At(b, fr, fc).value;
      var moved := if AutoPromotes(p, tr) then Piece(PromotesTo(p.kind).value, p.owner, true) else p;
      Put(Put(b, tr, tc, Some(moved)), fr, fc, None)
    case DropMove(t, tr, tc, owner) =>
      Put(b, tr, tc, Some(Piece(t, owner, false)))
  }

  /** Side s's pool after `applyVirtualMove(m)`, from that pool before it. */
  function ApplyPool(b: Grid, pool: seq<PieceType>, s: Side, m: Move): seq<PieceType>
    requires Applicable(b, m)
  {
    match m
    case BoardMove(fr, fc, tr, tc, _) =>
      var captured := At(b, tr, tc);
      if captured.Some? && At(b, fr, fc).value.owner == s then pool + [CapturedKind(captured.value.kind)] else pool
    case DropMove(t, _, _, owner) =>
      if owner == s && KindIndex(pool, t) > -1 then RemoveAt(pool, KindIndex(pool, t)) else pool
  }

  /** The undo record of `applyVirtualMove(m)`. */
  function ApplyInfo(st: State, m: Move): UndoInfo
    requires Applicable(st.board, m)
  {
    match m
    case BoardMove(fr, fc, tr, tc, _) =>
      var p := At(st.board, fr, fc).value;
      var captured := At(st.board, tr, tc);
      var k := if captured.Some? then Some(CapturedKind(captured.value.kind)) else None;
      UndoInfo(m, Some(p), captured, AutoPromotes(p, tr), k, -1)
    case DropMove(t, _, _, owner) =>
      UndoInfo(m, None, None, false, None, KindIndex(PoolOf(st.pp, st.cp, owner), t))
  }

  /**
   * `applyVirtualMove(m)`: the piece standing on the origin (not the one the
   * move carries) goes to the destination, promoted if `AutoPromotes`; a
   * captured piece goes, unpromoted, to the end of the mover's pool. A drop
   * takes the first copy of its type out of the owner's pool, if there is
   * one, and places the piece unpromoted.
   */
  function ApplyMove(st: State, m: Move): (State, UndoInfo)
    requires Applicable(st.board, m)
  {
    (State(ApplyBoard(st.board, m), ApplyPool(st.board, st.pp, Player, m), ApplyPool(st.board, st.cp, Cpu, m)),
     ApplyInfo(st, m))
  }

  /**
   * What `undoVirtualMove` reads without failing: on-board squares, and an
   * original piece wherever it reads one; a promoted move must not start and
   * end on one square (the piece reset would hit the restored target).
   */
  predicate Undoable(u: UndoInfo)
  {
    OnBoard(u.move.toRow, u.move.toCol)
    && (u.move.BoardMove? ==>
          OnBoard(u.move.fromRow, u.move.fromCol)
          && (u.promoted ==> u.originalPiece.Some? && (u.move.fromRow, u.move.fromCol) != (u.move.toRow, u.move.toCol))
          && (u.capturedPieceType.Some? ==> u.originalPiece.Some?))
  }

  /** The board after `undoVirtualMove(u)`. */
  function UndoBoard(b: Grid, u: UndoInfo): Grid
    requires Undoable(u)
  {
    match u.move
    case BoardMove(fr, fc, tr, tc, _) =>
      var b1 := Put(Put(b, fr, fc, u.originalPiece), tr, tc, u.capturedPiece);
      if u.promoted then Put(b1, fr, fc, Some(Piece(u.originalPiece.value.kind, u.originalPiece.value.owner, false))) else b1
    case DropMove(_, tr, tc, _) =>
      Put(b, tr, tc, None)
  }

  /** Side s's pool after `undoVirtualMove(u)`, from that pool before it. */
  function UndoPool(pool: seq<PieceType>, s: Side, u: UndoInfo): seq<PieceType>
    requires Undoable(u)
  {
    match u.move
    case BoardMove(_, _, _, _, _) =>
      if u.capturedPieceType.Some? && u.originalPiece.value.owner == s then
        var i := LastKindIndex(pool, u.capturedPieceType.value);
        if i > -1 then RemoveAt(pool, i) else pool
      else pool
    case DropMove(t, _, _, owner) =>
      if u.capturedPieceIndex != -1 && owner == s then InsertAt(pool, u.capturedPieceIndex, t) else pool
  }

  /**
   * `undoVirtualMove(u)`: the origin gets the original piece back (reset to
   * unpromoted if the move promoted) and the destination its old occupant;
   * the last copy of the captured type leaves the mover's pool. A drop
   * empties its square and puts the type back at the index it was taken from.
   */
  function UndoMove(st: State, u: UndoInfo): State
    requires Undoable(u)
  {
    State(UndoBoard(st.board, u), UndoPool(st.pp, Player, u), UndoPool(st.cp, Cpu, u))
  }

  /** A move the search can take back exactly: applicable, a board move between two squares, a drop onto an empty one. */
  predicate Reversible(b: Grid, m: Move)
  {
    Applicable(b, m)
    && (m.BoardMove? ==> (m.fromRow, m.fromCol) != (m.toRow, m.toCol))
    && (m.DropMove? ==> At(b, m.toRow, m.toCol).None?)
  }

  /** Every generated move is reversible. */
  lemma WellFormedReversible(b: Grid, pool: seq<PieceType>, s: Side, m: Move)
    requires WellFormed(b, pool, s, m)
    ensures Reversible(b, m)
  {
  }

  lemma ApplyUndoable(st: State, m: Move)
    requires Reversible(st.board, m)
    ensures Undoable(ApplyInfo(st, m))
    ensures ApplyInfo(st, m).move == m
  {
  }

  /** Boards that agree on every square are equal. */
  lemma GridEq(b1: Grid, b2: Grid)
    requires forall r, c :: OnBoard(r, c) ==> At(b1, r, c) == At(b2, r, c)
    ensures b1 == b2
  {
    forall i | 0 <= i < 81 ensures b1[i] == b2[i] {
      RowColOf(i);
    }
  }

  /** Undoing a move restores the board. */
  lemma UndoRestoresBoard(st: State, m: Move)
    requires Reversible(st.board, m)
    ensures Undoable(ApplyInfo(st, m))
    ensures UndoBoard(ApplyBoard(st.board, m), ApplyInfo(st, m)) == st.board
  {
    ApplyUndoable(st, m);
    GridEq(UndoBoard(ApplyBoard(st.board, m), ApplyInfo(st, m)), st.board);
  }

  lemma RemoveLast(pool: seq<PieceType>, k: PieceType)
    ensures LastKindIndex(pool + [k], k) == |pool|
    ensures RemoveAt(pool + [k], |pool|) == pool
  {
    assert (pool + [k])[..|pool|] == pool;
  }

  lemma InsertRemoved(pool: seq<PieceType>, i: int)
    requires 0 <= i < |pool|
    ensures InsertAt(RemoveAt(pool, i), i, pool[i]) == pool
  {
    var r := RemoveAt(pool, i);
    assert r[..i] == pool[..i];
    assert r[i..] == pool[i + 1..];
    assert pool == pool[..i] + [pool[i]] + pool[i + 1..];
  }

  lemma UndoPoolExact(st: State, m: Move, s: Side)
    requires Reversible(st.board, m)
    ensures Undoable(ApplyInfo(st, m))
    ensures var pool := PoolOf(st.pp, st.cp, s);
      UndoPool(ApplyPool(st.board, pool, s, m), s, ApplyInfo(st, m)) == pool
  {
    ApplyUndoable(st, m);
    var pool := PoolOf(st.pp, st.cp, s);
    match m
    case BoardMove(fr, fc, tr, tc, _) =>
      var captured := At(st.board, tr, tc);
      if captured.Some? {
        RemoveLast(pool, CapturedKind(captured.value.kind));
      }
    case DropMove(t, _, _, owner) =>
      if owner == s && KindIndex(pool, t) > -1 {
        InsertRemoved(pool, KindIndex(pool, t));
      }
  }

  /** `undoVirtualMove(applyVirtualMove(m))` is the identity on board and pools. */
  lemma ApplyUndo(st: State, m: Move)
    requires Reversible(st.board, m)
    ensures Undoable(ApplyMove(st, m).1)
    ensures UndoMove(ApplyMove(st, m).0, ApplyMove(st, m).1) == st
  {
    UndoRestoresBoard(st, m);
    UndoPoolExact(st, m, Player);
    UndoPoolExact(st, m, Cpu);
  }

  lemma RemoveAtMultiset(pool: seq<PieceType>, i: int)
    requires 0 <= i < |pool|
    ensures multiset(RemoveAt(pool, i)) == multiset(pool) - multiset{pool[i]}
  {
    assert pool == pool[..i] + [pool[i]] + pool[i + 1..];
  }

  lemma RemoveAtSorted(pool: seq<PieceType>, i: int)
    requires 0 <= i < |pool| && SortedKinds(pool)
    ensures SortedKinds(RemoveAt(pool, i))
  {
    var r := RemoveAt(pool, i);
    forall a, b | 0 <= a < b < |r| ensures KindLe(r[a], r[b]) {
      var a' := if a < i then a else a + 1;
      var b' := if b < i then b else b + 1;
      assert r[a] == pool[a'] && r[b] == pool[b'];
    }
  }

  lemma InsertAtMultiset(pool: seq<PieceType>, i: int, t: PieceType)
    ensures multiset(InsertAt(pool, i, t)) == multiset(pool) + multiset{t}
  {
    var k := if i < 0 then (if |pool| + i < 0 then 0 else |pool| + i) else if i > |pool| then |pool| else i;
    assert pool == pool[..k] + pool[k..];
  }

  /** Removing the last copy of k from the sorted pool + [k] gives the sorted pool back. */
  lemma RemoveFromSorted(pool: seq<PieceType>, k: PieceType)
    ensures k in SortKinds(pool + [k])
    ensures multiset(RemoveAt(SortKinds(pool + [k]), LastKindIndex(SortKinds(pool + [k]), k))) == multiset(pool)
    ensures SortedKinds(pool) ==> RemoveAt(SortKinds(pool + [k]), LastKindIndex(SortKinds(pool + [k]), k)) == pool
  {
    var sorted := SortKinds(pool + [k]);
    assert multiset(pool + [k]) == multiset(pool) + multiset{k};
    assert k in multiset(sorted);
    var i := LastKindIndex(sorted, k);
    RemoveAtMultiset(sorted, i);
    if SortedKinds(pool) {
      RemoveAtSorted(sorted, i);
      SortedUnique(RemoveAt(sorted, i), pool);
    }
  }

  /** Putting a removed type back into the sorted remainder gives the same multiset, and the same pool when it was sorted. */
  lemma ReinsertIntoSorted(pool: seq<PieceType>, i: int)
    requires 0 <= i < |pool|
    ensures multiset(InsertAt(SortKinds(RemoveAt(pool, i)), i, pool[i])) == multiset(pool)
    ensures SortedKinds(pool) ==> InsertAt(SortKinds(RemoveAt(pool, i)), i, pool[i]) == pool
  {
    RemoveAtMultiset(pool, i);
    InsertAtMultiset(SortKinds(RemoveAt(pool, i)), i, pool[i]);
    if SortedKinds(pool) {
      RemoveAtSorted(pool, i);
      SortIdempotent(RemoveAt(pool, i));
      InsertRemoved(pool, i);
    }
  }

  /** Side s's pool after apply, sort (what the search below does) and undo. */
  lemma UndoPoolAfterSort(st: State, m: Move, s: Side)
    requires Reversible(st.board, m)
    ensures Undoable(ApplyInfo(st, m))
    ensures var pool := PoolOf(st.pp, st.cp, s);
      var back := UndoPool(SortKinds(ApplyPool(st.board, pool, s, m)), s, ApplyInfo(st, m));
      multiset(back) == multiset(pool) && (SortedKinds(pool) ==> back == pool)
  {
    ApplyUndoable(st, m);
    var pool := PoolOf(st.pp, st.cp, s);
    if SortedKinds(pool) {
      SortIdempotent(pool);
    }
    if m.BoardMove? {
      BoardPoolAfterSort(st, m, s);
    } else {
      DropPoolAfterSort(st, m, s);
    }
  }

  lemma BoardPoolAfterSort(st: State, m: Move, s: Side)
    requires Reversible(st.board, m) && m.BoardMove?
    requires Undoable(ApplyInfo(st, m))
    requires var pool := PoolOf(st.pp, st.cp, s); SortedKinds(pool) ==> SortKinds(pool) == pool
    ensures var pool := PoolOf(st.pp, st.cp, s);
      var back := UndoPool(SortKinds(ApplyPool(st.board, pool, s, m)), s, ApplyInfo(st, m));
      multiset(back) == multiset(pool) && (SortedKinds(pool) ==> back == pool)
  {
    var pool := PoolOf(st.pp, st.cp, s);
    var info := ApplyInfo(st, m);
    var captured := At(st.board, m.toRow, m.toCol);
    if captured.Some? && At(st.board, m.fromRow, m.fromCol).value.owner == s {
      var k := CapturedKind(captured.value.kind);
      assert ApplyPool(st.board, pool, s, m) == pool + [k];
      assert info.capturedPieceType == Some(k) && info.originalPiece.value.owner == s;
      RemoveFromSorted(pool, k);
    } else {
      assert ApplyPool(st.board, pool, s, m) == pool;
      assert UndoPool(SortKinds(pool), s, info) == SortKinds(pool);
    }
  }

  lemma DropPoolAfterSort(st: State, m: Move, s: Side)
    requires Reversible(st.board, m) && m.DropMove?
    requires Undoable(ApplyInfo(st, m))
    requires var pool := PoolOf(st.pp, st.cp, s); SortedKinds(pool) ==> SortKinds(pool) == pool
    ensures var pool := PoolOf(st.pp, st.cp, s);
      var back := UndoPool(SortKinds(ApplyPool(st.board, pool, s, m)), s, ApplyInfo(st, m));
      multiset(back) == multiset(pool) && (SortedKinds(pool) ==> back == pool)
  {
    var pool := PoolOf(st.pp, st.cp, s);
    if m.owner == s && KindIndex(pool, m.kind) > -1 {
      ReinsertIntoSorted(pool, KindIndex(pool, m.kind));
    }
  }

  /** The pools after the search below a move: what `minimax` leaves, sorted. */
  function Settled(c: State): State
  {
    State(c.board, SortKinds(c.pp), SortKinds(c.cp))
  }

  /**
   * Applying a move, searching below it (which sorts the pools) and undoing
   * it gives back the board and the pools as multisets; when both pools were
   * sorted, exactly the state before.
   */
  lemma UndoAfterSort(st: State, m: Move)
    requires Reversible(st.board, m)
    ensures Undoable(ApplyMove(st, m).1)
    ensures var st' := UndoMove(Settled(ApplyMove(st, m).0), ApplyMove(st, m).1);
      st'.board == st.board && multiset(st'.pp) == multiset(st.pp) && multiset(st'.cp) == multiset(st.cp)
      && (SortedKinds(st.pp) && SortedKinds(st.cp) ==> st' == st)
  {
    UndoRestoresBoard(st, m);
    UndoPoolAfterSort(st, m, Player);
    UndoPoolAfterSort(st, m, Cpu);
  }

  // ---------------------------------------------------------------------
  // The transposition table and minimax
  // ---------------------------------------------------------------------

  /** The bound an entry records: `'exact'`, `'lower'` or `'upper'`. */
  datatype Flag = Exact | Lower | Upper

  /** An entry `{ depth, score, flag }`. */
  datatype TTEntry = TTEntry(depth: nat, score: Score, flag: Flag)

  /** The transposition table, keyed by `getPositionHash()`. */
  type TTable = map<string, TTEntry>

  /** `ttMaxSize`. */
  const TTMaxSize := 100000

  /** Storing an entry: a table already holding `ttMaxSize` entries is cleared first. */
  function Store(tt: TTable, key: string, e: TTEntry): (r: TTable)
    ensures key in r && r[key] == e
    ensures |tt| < TTMaxSize ==> forall k :: k in tt && k != key ==> k in r && r[k] == tt[k]
    ensures |tt| >= TTMaxSize ==> r.Keys == {key}
  {
    (if |tt| >= TTMaxSize then map[] else tt)[key := e]
  }

  /** The table never grows past `ttMaxSize` entries. */
  lemma StoreBounded(tt: TTable, key: string, e: TTEntry)
    requires |tt| <= TTMaxSize
    ensures |Store(tt, key, e)| <= TTMaxSize
  {
    var r := Store(tt, key, e);
    if |tt| >= TTMaxSize {
      assert r.Keys == {key};
      assert |r| == |r.Keys|;
    } else {
      assert r == tt[key := e];
    }
  }

  /** Storing a number into a good table keeps it good. */
  lemma StoreGood(tt: TTable, key: string, e: TTEntry)
    requires GoodTable(tt) && e.score.Fin?
    ensures GoodTable(Store(tt, key, e))
  {
    StoreBounded(tt, key, e);
  }

  /** What the table lookup gives: a score to return at once, or the window to search with. */
  datatype Probe = Hit(score: Score) | Window(alpha: Score, beta: Score)

  /**
   * The lookup at the head of `minimax`: an entry at least as deep as the
   * search returns its score if exact, a lower bound raises alpha, an upper
   * bound lowers beta, and a window that closes returns the entry's score.
   */
  function ProbeTable(tt: TTable, key: string, depth: nat, alpha: Score, beta: Score): Probe
  {
    if key in tt && tt[key].depth >= depth then
      var e := tt[key];
      if e.flag == Exact then Hit(e.score)
      else
        var a := if e.flag == Lower && Lt(alpha, e.score) then e.score else alpha;
        var b := if e.flag == Upper && Lt(e.score, beta) then e.score else beta;
        if Le(b, a) then Hit(e.score) else Window(a, b)
    else Window(alpha, beta)
  }

  /** The side that moves at a maximizing (computer) or minimizing (player) node. */
  function Mover(isMax: bool): Side
  {
    if isMax then Cpu else Player
  }

  /** Every legal move can be applied and taken back. */
  lemma LegalReversible(b: Grid, pp: seq<PieceType>, cp: seq<PieceType>, s: Side)
    ensures forall m :: m in AllLegalMoves(b, pp, cp, s) ==> Reversible(b, m)
  {
    AllLegalMovesWellFormed(b, pp, cp, s);
    forall m | m in AllLegalMoves(b, pp, cp, s)
      ensures Reversible(b, m)
    {
      WellFormedReversible(b, PoolOf(pp, cp, s), s, m);
    }
  }

  /** Ordering keeps the moves it was given. */
  lemma OrderedReversible(b: Grid, ms: seq<Move>, s: Side)
    requires TargetsOnBoard(ms)
    requires forall m :: m in ms ==> Reversible(b, m)
    ensures forall m :: m in OrderMoves(b, ms, s) ==> Reversible(b, m)
  {
    var r := OrderMoves(b, ms, s);
    forall m | m in r
      ensures Reversible(b, m)
    {
      assert m in multiset(r);
    }
  }

  /** The legal moves at a node, ordered; all of them can be applied and taken back. */
  function NodeMoves(s: State, isMax: bool): (r: seq<Move>)
    ensures forall m :: m in r ==> Reversible(s.board, m)
  {
    LegalReversible(s.board, s.pp, s.cp, Mover(isMax));
    OrderedReversible(s.board, AllLegalMoves(s.board, s.pp, s.cp, Mover(isMax)), Mover(isMax));
    OrderMoves(s.board, AllLegalMoves(s.board, s.pp, s.cp, Mover(isMax)), Mover(isMax))
  }

  /** The position after m, for a move that can be applied (any other leaves the state alone). */
  function Play(s: State, m: Move): (r: State)
    ensures Applicable(s.board, m) ==> r == ApplyMove(s, m).0
  {
    if Applicable(s.board, m) then ApplyMove(s, m).0 else s
  }

  /**
   * What `minimax` asks of the position it searches: sorting the pools
   * (which reading the key does in place), the key, the evaluation, the
   * ordered legal moves of the side to move, and the position after a move.
   */
  datatype GameTree = GameTree(settle: State -> State, key: State -> string, leaf: State -> int,
                       moves: (State, bool) -> seq<Move>, play: (State, Move) -> State)

  /** The shogi position as `minimax` sees it. */
  const Shogi: GameTree := GameTree(Settled, (s: State) => PositionText(s.board, s.pp, s.cp),
                                    (s: State) => Evaluate(s.board, s.pp, s.cp), NodeMoves, Play)

  /**
   * `minimax(depth, alpha, beta, isMax)` on state st with table tt, written
   * once over the operations of g: the score and the table afterwards. The
   * pools are settled first; then the table lookup, the evaluation at depth
   * 0, the mate score when the side to move has no legal move, and otherwise
   * the search over the ordered moves, whose result is stored in the table.
   */
  function Search(g: GameTree, st: State, tt: TTable, depth: nat, alpha: Score, beta: Score, isMax: bool): (Score, TTable)
    decreases depth, 1
  {
    var s := g.settle(st);
    var key := g.key(s);
    match ProbeTable(tt, key, depth, alpha, beta)
    case Hit(v) => (v, tt)
    case Window(a, b) =>
      if depth == 0 then (Fin(g.leaf(s)), tt)
      else
        var moves := g.moves(s, isMax);
        if |moves| == 0 then (Fin(if isMax then -1000000 else 1000000), tt)
        else
          var r := SearchMoves(g, s, tt, depth, a, b, isMax, moves, 0, if isMax then NegInf else PosInf);
          (r.0, Store(r.2, key, TTEntry(depth, r.0, r.1)))
  }

  /**
   * The loop of `minimax` from move i on, with the best score so far: the
   * maximizer raises alpha, the minimizer lowers beta, and the loop stops as
   * soon as beta <= alpha, flagging the score as a lower or upper bound.
   */
  function SearchMoves(g: GameTree, s: State, tt: TTable, depth: nat, alpha: Score, beta: Score, isMax: bool,
                       moves: seq<Move>, i: nat, best: Score): (Score, Flag, TTable)
    requires 0 < depth && i <= |moves|
    decreases depth, 0, |moves| - i
  {
    if i == |moves| then (best, Exact, tt)
    else
      var child := Search(g, g.play(s, moves[i]), tt, depth - 1, alpha, beta, !isMax);
      var v := child.0;
      if isMax then
        var best' := if Lt(best, v) then v else best;
        var alpha' := if Lt(alpha, best') then best' else alpha;
        if Le(beta, alpha') then (best', Lower, child.1)
        else SearchMoves(g, s, child.1, depth, alpha', beta, isMax, moves, i + 1, best')
      else
        var best' := if Lt(v, best) then v else best;
        var beta' := if Lt(best', beta) then best' else beta;
        if Le(beta', alpha) then (best', Upper, child.1)
        else SearchMoves(g, s, child.1, depth, alpha, beta', isMax, moves, i + 1, best')
  }

  /** The operations of a game tree, applied. */
  function SettleOf(g: GameTree, st: State): State { g.settle(st) }
  function KeyOf(g: GameTree, s: State): string { g.key(s) }
  function LeafOf(g: GameTree, s: State): int { g.leaf(s) }
  function MovesOf(g: GameTree, s: State, isMax: bool): seq<Move> { g.moves(s, isMax) }
  function PlayOf(g: GameTree, s: State, m: Move): State { g.play(s, m) }

  /** The operations of the shogi tree are the shogi functions. */
  lemma ShogiSettle(st: State)
    ensures SettleOf(Shogi, st) == Settled(st)
  {
  }

  /** The key and the evaluation of the shogi tree. */
  lemma ShogiNode(s: State)
    ensures KeyOf(Shogi, s) == PositionText(s.board, s.pp, s.cp)
    ensures LeafOf(Shogi, s) == Evaluate(s.board, s.pp, s.cp)
  {
  }

  /** The moves at a node of the shogi tree. */
  lemma ShogiMoves(s: State, isMax: bool)
    ensures MovesOf(Shogi, s, isMax) == NodeMoves(s, isMax)
  {
  }

  /** A move on the shogi tree is `Play`. */
  lemma ShogiPlay(s: State, m: Move)
    ensures PlayOf(Shogi, s, m) == Play(s, m)
  {
  }

  /**
   * The cases of `Search` one at a time, for a caller that follows the
   * search step by step: a hit, the evaluation at depth 0, the mate score,
   * and the stored result of the loop over the moves.
   */
  lemma SearchUnfold(g: GameTree, st: State, tt: TTable, depth: nat, alpha: Score, beta: Score, isMax: bool)
    ensures var s := SettleOf(g, st);
      var p := ProbeTable(tt, KeyOf(g, s), depth, alpha, beta);
      var r := Search(g, st, tt, depth, alpha, beta, isMax);
      (p.Hit? ==> r.0 == p.score && r.1 == tt)
      && (p.Window? && depth == 0 ==> r.0 == Fin(LeafOf(g, s)) && r.1 == tt)
      && (p.Window? && depth > 0 && |MovesOf(g, s, isMax)| == 0 ==>
            r.0 == Fin(if isMax then -1000000 else 1000000) && r.1 == tt)
      && (p.Window? && depth > 0 && |MovesOf(g, s, isMax)| > 0 ==>
            var m := SearchMoves(g, s, tt, depth, p.alpha, p.beta, isMax, MovesOf(g, s, isMax), 0,
                                 if isMax then NegInf else PosInf);
            r.0 == m.0 && r.1 == Store(m.2, KeyOf(g, s), TTEntry(depth, m.0, m.1)))
  {
  }

  /**
   * One turn of the loop over the moves: the child's score v and table tt'
   * at depth d = depth - 1, the new best score and bounds, and then either the
   * cut-off or the rest of the loop from move j = i + 1.
   */
  lemma SearchMovesStep(g: GameTree, s: State, tt: TTable, depth: nat, d: nat, alpha: Score, beta: Score, isMax: bool,
                        moves: seq<Move>, i: nat, j: nat, best: Score, v: Score, tt': TTable,
                        alpha': Score, beta': Score, best': Score)
    requires 0 < depth && d == depth - 1 && i < |moves| && j == i + 1
    requires v == Search(g, PlayOf(g, s, moves[i]), tt, d, alpha, beta, !isMax).0
    requires tt' == Search(g, PlayOf(g, s, moves[i]), tt, d, alpha, beta, !isMax).1
    requires isMax ==> best' == (if Lt(best, v) then v else best)
                       && alpha' == (if Lt(alpha, best') then best' else alpha) && beta' == beta
    requires !isMax ==> best' == (if Lt(v, best) then v else best)
                        && beta' == (if Lt(best', beta) then best' else beta) && alpha' == alpha
    ensures Le(beta', alpha') ==>
      SearchMoves(g, s, tt, depth, alpha, beta, isMax, moves, i, best) == (best', if isMax then Lower else Upper, tt')
    ensures !Le(beta', alpha') ==>
      SearchMoves(g, s, tt, depth, alpha, beta, isMax, moves, i, best)
        == SearchMoves(g, s, tt', depth, alpha', beta', isMax, moves, j, best')
  {
  }

  /** Every move considered is legal and lands on the board. */
  lemma LegalTargets(b: Grid, pp: seq<PieceType>, cp: seq<PieceType>, s: Side)
    ensures TargetsOnBoard(AllLegalMoves(b, pp, cp, s))
  {
    AllLegalMovesWellFormed(b, pp, cp, s);
  }

  /** Every score in the table is a number. */
  predicate FiniteTable(tt: TTable)
  {
    forall k :: k in tt ==> tt[k].score.Fin?
  }

  /** The table stays within `ttMaxSize` entries and its scores stay numbers. */
  predicate GoodTable(tt: TTable)
  {
    |tt| <= TTMaxSize && FiniteTable(tt)
  }

  /**
   * With a table of numbers, the search always returns a number (never
   * -Infinity or Infinity) and leaves the table within `ttMaxSize` entries.
   */
  lemma {:induction false} SearchFinite(g: GameTree, st: State, tt: TTable, depth: nat, alpha: Score, beta: Score, isMax: bool)
    requires GoodTable(tt)
    ensures Search(g, st, tt, depth, alpha, beta, isMax).0.Fin?
    ensures GoodTable(Search(g, st, tt, depth, alpha, beta, isMax).1)
    decreases depth, 1
  {
    var s := g.settle(st);
    var key := g.key(s);
    match ProbeTable(tt, key, depth, alpha, beta)
    case Hit(v) =>
    case Window(a, b) =>
      if depth > 0 {
        var moves := g.moves(s, isMax);
        if |moves| > 0 {
          var init := if isMax then NegInf else PosInf;
          SearchMovesFinite(g, s, tt, depth, a, b, isMax, moves, 0, init);
          var r := SearchMoves(g, s, tt, depth, a, b, isMax, moves, 0, init);
          StoreGood(r.2, key, TTEntry(depth, r.0, r.1));
        }
      }
  }

  lemma {:induction false} SearchMovesFinite(g: GameTree, s: State, tt: TTable, depth: nat, alpha: Score, beta: Score, isMax: bool,
                                             moves: seq<Move>, i: nat, best: Score)
    requires 0 < depth && i < |moves|
    requires GoodTable(tt)
    requires best.Fin? || best == (if isMax then NegInf else PosInf)
    ensures SearchMoves(g, s, tt, depth, alpha, beta, isMax, moves, i, best).0.Fin?
    ensures GoodTable(SearchMoves(g, s, tt, depth, alpha, beta, isMax, moves, i, best).2)
    decreases depth, 0, |moves| - i
  {
    SearchFinite(g, g.play(s, moves[i]), tt, depth - 1, alpha, beta, !isMax);
    var child := Search(g, g.play(s, moves[i]), tt, depth - 1, alpha, beta, !isMax);
    var v := child.0;
    if i + 1 < |moves| {
      if isMax {
        var best' := if Lt(best, v) then v else best;
        var alpha' := if Lt(alpha, best') then best' else alpha;
        if !Le(beta, alpha') {
          SearchMovesFinite(g, s, child.1, depth, alpha', beta, isMax, moves, i + 1, best');
        }
      } else {
        var best' := if Lt(v, best) then v else best;
        var beta' := if Lt(best', beta) then best' else beta;
        if !Le(beta', alpha) {
          SearchMovesFinite(g, s, child.1, depth, alpha, beta', isMax, moves, i + 1, best');
        }
      }
    }
  }

  /** The evaluation of the position after move m, as a depth-0 search sees it. */
  function LeafScore(g: GameTree, s: State, m: Move): Score
  {
    Fin(g.leaf(g.settle(g.play(s, m))))
  }

  /**
   * One level of the loop with an empty table and a window open on the
   * searching side: nothing is cut, nothing is stored, and the result is the
   * best of the running best and every remaining move's evaluation.
   */
  lemma {:induction false} SearchMovesOneLevel(g: GameTree, s: State, alpha: Score, beta: Score, isMax: bool,
                                               moves: seq<Move>, i: nat, best: Score)
    requires i <= |moves|
    requires isMax ==> beta == PosInf && !alpha.PosInf? && !best.PosInf?
    requires !isMax ==> alpha == NegInf && !beta.NegInf? && !best.NegInf?
    ensures var r := SearchMoves(g, s, map[], 1, alpha, beta, isMax, moves, i, best);
      r.1 == Exact && r.2 == map[]
      && (r.0 == best || exists k :: i <= k < |moves| && r.0 == LeafScore(g, s, moves[k]))
      && (isMax ==> Le(best, r.0) && forall k :: i <= k < |moves| ==> Le(LeafScore(g, s, moves[k]), r.0))
      && (!isMax ==> Le(r.0, best) && forall k :: i <= k < |moves| ==> Le(r.0, LeafScore(g, s, moves[k])))
    decreases |moves| - i
  {
    if i < |moves| {
      var v := LeafScore(g, s, moves[i]);
      assert Search(g, g.play(s, moves[i]), map[], 0, alpha, beta, !isMax) == (v, map[]);
      if isMax {
        var best' := if Lt(best, v) then v else best;
        var alpha' := if Lt(alpha, best') then best' else alpha;
        SearchMovesOneLevel(g, s, alpha', beta, isMax, moves, i + 1, best');
      } else {
        var best' := if Lt(v, best) then v else best;
        var beta' := if Lt(best', beta) then best' else beta;
        SearchMovesOneLevel(g, s, alpha, beta', isMax, moves, i + 1, best');
      }
    }
  }

  /**
   * A search one level deep from an empty table and the full window: a side
   * with no legal move gets the mate score; otherwise the result is the
   * evaluation after one of the moves, no smaller (maximizing) or no larger
   * (minimizing) than the evaluation after any of them, and the table then
   * holds exactly that result under the position's key.
   */
  lemma SearchDepthOne(g: GameTree, st: State, isMax: bool)
    ensures var s := g.settle(st);
      var moves := g.moves(s, isMax);
      var r := Search(g, st, map[], 1, NegInf, PosInf, isMax);
      (|moves| == 0 ==> r == (Fin(if isMax then -1000000 else 1000000), map[]))
      && (|moves| > 0 ==>
            r.1 == map[g.key(s) := TTEntry(1, r.0, Exact)]
            && (exists k :: 0 <= k < |moves| && r.0 == LeafScore(g, s, moves[k]))
            && (isMax ==> forall k :: 0 <= k < |moves| ==> Le(LeafScore(g, s, moves[k]), r.0))
            && (!isMax ==> forall k :: 0 <= k < |moves| ==> Le(r.0, LeafScore(g, s, moves[k]))))
  {
    var s := g.settle(st);
    var moves := g.moves(s, isMax);
    if |moves| > 0 {
      SearchMovesOneLevel(g, s, NegInf, PosInf, isMax, moves, 0, if isMax then NegInf else PosInf);
    }
  }

  // ---------------------------------------------------------------------
  // minimax on the shogi position
  // ---------------------------------------------------------------------

  /** Every move the shogi search tries can be applied and taken back, and is played by `ApplyMove`. */
  lemma ShogiMovesPlayable(s: State, isMax: bool)
    ensures forall m :: m in Shogi.moves(s, isMax) ==>
      Reversible(s.board, m) && Shogi.play(s, m) == ApplyMove(s, m).0
  {
  }

  /**
   * `minimax(depth, alpha, beta, isMax)` on the shogi position: with a table
   * of numbers the result is a number and the table keeps at most
   * `ttMaxSize` entries.
   */
  function Minimax(g: GameTree, st: State, tt: TTable, depth: nat, alpha: Score, beta: Score, isMax: bool): (r: (Score, TTable))
    ensures GoodTable(tt) ==> r.0.Fin? && GoodTable(r.1)
  {
    var r := Search(g, st, tt, depth, alpha, beta, isMax);
    if GoodTable(tt) then SearchFinite(g, st, tt, depth, alpha, beta, isMax); r else r
  }

  /** One candidate at the root: its score, the table and the state after it is taken back. */
  datatype Trial = Trial(score: Score, table: TTable, state: State)

  /**
   * Apply m, call `minimax(depth, alpha, Infinity, false)` (which leaves the
   * pools sorted) and undo: the board comes back, the pools come back as
   * multisets (exactly, when they were sorted), and with a table of numbers
   * the score is a number and the table stays good.
   */
  function TryMove(g: GameTree, cur: State, tt: TTable, m: Move, depth: nat, alpha: Score): (t: Trial)
    requires Reversible(cur.board, m)
    ensures t.state.board == cur.board
    ensures multiset(t.state.pp) == multiset(cur.pp) && multiset(t.state.cp) == multiset(cur.cp)
    ensures SortedKinds(cur.pp) && SortedKinds(cur.cp) ==> t.state == cur
    ensures GoodTable(tt) ==> t.score.Fin? && GoodTable(t.table)
  {
    UndoAfterSort(cur, m);
    var a := ApplyMove(cur, m);
    var r := Minimax(g, a.0, tt, depth, alpha, PosInf, false);
    Trial(r.0, r.1, UndoMove(Settled(a.0), a.1))
  }

  // ---------------------------------------------------------------------
  // The root loop of the hard level in cpuTurnWithBuiltinAI
  // ---------------------------------------------------------------------

  /** The largest of a list of scores; -Infinity for none. */
  function MaxOf(ss: seq<Score>): (r: Score)
    ensures forall k :: 0 <= k < |ss| ==> Le(ss[k], r)
    ensures |ss| > 0 ==> exists k :: 0 <= k < |ss| && ss[k] == r
    ensures |ss| == 0 ==> r == NegInf
    ensures (forall k :: 0 <= k < |ss| ==> ss[k].Fin?) ==> |ss| == 0 || r.Fin?
  {
    if |ss| == 0 then NegInf
    else
      var m := MaxOf(ss[..|ss| - 1]);
      assert forall k :: 0 <= k < |ss| - 1 ==> ss[..|ss| - 1][k] == ss[k];
      Max(m, ss[|ss| - 1])
  }

  /** The moves, in order, whose score is b. */
  function Ties(ms: seq<Move>, ss: seq<Score>, b: Score): (r: seq<Move>)
    requires |ms| == |ss|
    ensures forall x :: x in r ==> exists k :: 0 <= k < |ms| && ms[k] == x && ss[k] == b
    decreases |ms|
  {
    if |ms| == 0 then []
    else
      var r := Ties(ms[..|ms| - 1], ss[..|ss| - 1], b);
      assert forall k :: 0 <= k < |ms| - 1 ==> ms[..|ms| - 1][k] == ms[k] && ss[..|ss| - 1][k] == ss[k];
      r + (if ss[|ss| - 1] == b then [ms[|ms| - 1]] else [])
  }

  lemma {:induction false} TiesNone(ms: seq<Move>, ss: seq<Score>, b: Score)
    requires |ms| == |ss|
    requires forall k :: 0 <= k < |ss| ==> ss[k] != b
    ensures Ties(ms, ss, b) == []
    decreases |ms|
  {
    if |ms| > 0 {
      TiesNone(ms[..|ms| - 1], ss[..|ss| - 1], b);
    }
  }

  lemma {:induction false} TiesSome(ms: seq<Move>, ss: seq<Score>, b: Score, k: nat)
    requires |ms| == |ss| && k < |ss| && ss[k] == b
    ensures ms[k] in Ties(ms, ss, b)
    decreases |ms|
  {
    if k < |ms| - 1 {
      TiesSome(ms[..|ms| - 1], ss[..|ss| - 1], b, k);
    }
  }

  /** A search result at the root: the tied best moves, their score, and the table, state and scores afterwards. */
  datatype Root = Root(best: seq<Move>, score: Score, table: TTable, state: State, scores: seq<Score>)

  /** `const depth = 4` of the hard level. */
  const HardDepth := 4

  /**
   * The root loop from move i on: each move is tried with
   * `minimax(depth - 1, alpha, Infinity, false)`; a strictly better score
   * replaces the list of best moves and raises alpha, an equal one joins
   * the list. The scores seen so far are carried along.
   */
  function RootLoop(g: GameTree, cur: State, tt: TTable, moves: seq<Move>, i: nat, alpha: Score, best: Score,
                    bestMoves: seq<Move>, scores: seq<Score>): Root
    requires i <= |moves|
    requires forall m :: m in moves ==> Reversible(cur.board, m)
    decreases |moves| - i
  {
    if i == |moves| then Root(bestMoves, best, tt, cur, scores)
    else
      var t := TryMove(g, cur, tt, moves[i], HardDepth - 1, alpha);
      if Lt(best, t.score) then
        RootLoop(g, t.state, t.table, moves, i + 1, Max(alpha, t.score), t.score, [moves[i]], scores + [t.score])
      else if t.score == best then
        RootLoop(g, t.state, t.table, moves, i + 1, alpha, best, bestMoves + [moves[i]], scores + [t.score])
      else
        RootLoop(g, t.state, t.table, moves, i + 1, alpha, best, bestMoves, scores + [t.score])
  }

  /** What the loop keeps true after moves[..i]. */
  predicate RootInvariant(moves: seq<Move>, i: nat, alpha: Score, best: Score, bestMoves: seq<Move>, scores: seq<Score>)
  {
    i <= |moves| && |scores| == i && alpha == best && best == MaxOf(scores)
    && bestMoves == Ties(moves[..i], scores, best)
    && forall k :: 0 <= k < i ==> scores[k].Fin?
  }

  lemma RootStep(moves: seq<Move>, i: nat, alpha: Score, best: Score, bestMoves: seq<Move>, scores: seq<Score>, v: Score)
    requires RootInvariant(moves, i, alpha, best, bestMoves, scores) && i < |moves| && v.Fin?
    ensures Lt(best, v) ==> RootInvariant(moves, i + 1, Max(alpha, v), v, [moves[i]], scores + [v])
    ensures v == best ==> RootInvariant(moves, i + 1, alpha, best, bestMoves + [moves[i]], scores + [v])
    ensures Lt(v, best) ==> RootInvariant(moves, i + 1, alpha, best, bestMoves, scores + [v])
  {
    var ss := scores + [v];
    assert ss[..i] == scores;
    assert moves[..i + 1][..i] == moves[..i];
    assert MaxOf(ss) == Max(best, v);
    if Lt(best, v) {
      forall k | 0 <= k < i
        ensures scores[k] != v
      {
        LtTrichotomy(scores[k], best);
        if Lt(scores[k], best) {
          LtTransitive(scores[k], best, v);
        }
      }
      TiesNone(moves[..i], scores, v);
    }
    LtTrichotomy(best, v);
  }

  /** The loop ends with the largest score and exactly the moves that reached it, in order. */
  lemma {:induction false} RootLoopCorrect(g: GameTree, cur: State, tt: TTable, moves: seq<Move>, i: nat, alpha: Score, best: Score,
                                           bestMoves: seq<Move>, scores: seq<Score>)
    requires forall m :: m in moves ==> Reversible(cur.board, m)
    requires RootInvariant(moves, i, alpha, best, bestMoves, scores) && GoodTable(tt)
    ensures var r := RootLoop(g, cur, tt, moves, i, alpha, best, bestMoves, scores);
      RootInvariant(moves, |moves|, r.score, r.score, r.best, r.scores) && GoodTable(r.table)
      && r.state.board == cur.board
      && multiset(r.state.pp) == multiset(cur.pp) && multiset(r.state.cp) == multiset(cur.cp)
    decreases |moves| - i
  {
    if i < |moves| {
      var t := TryMove(g, cur, tt, moves[i], HardDepth - 1, alpha);
      RootStep(moves, i, alpha, best, bestMoves, scores, t.score);
      LtTrichotomy(best, t.score);
      if Lt(best, t.score) {
        RootLoopCorrect(g, t.state, t.table, moves, i + 1, Max(alpha, t.score), t.score, [moves[i]], scores + [t.score]);
      } else if t.score == best {
        RootLoopCorrect(g, t.state, t.table, moves, i + 1, alpha, best, bestMoves + [moves[i]], scores + [t.score]);
      } else {
        RootLoopCorrect(g, t.state, t.table, moves, i + 1, alpha, best, bestMoves, scores + [t.score]);
      }
    }
  }

  /** The ordered moves at a node are the legal moves of the side to move, each once per occurrence. */
  lemma NodeMovesLegal(s: State, isMax: bool)
    ensures var legal := AllLegalMoves(s.board, s.pp, s.cp, Mover(isMax));
      multiset(NodeMoves(s, isMax)) == multiset(legal) && |NodeMoves(s, isMax)| == |legal|
      && forall m :: m in NodeMoves(s, isMax) ==> m in legal
  {
    var legal := AllLegalMoves(s.board, s.pp, s.cp, Mover(isMax));
    var moves := NodeMoves(s, isMax);
    AllLegalMovesWellFormed(s.board, s.pp, s.cp, Mover(isMax));
    assert |moves| == |multiset(moves)| == |multiset(legal)| == |legal|;
    forall m | m in moves
      ensures m in legal
    {
      assert m in multiset(moves);
    }
  }

  /**
   * At the end of a root loop over some moves, the best moves are a
   * non-empty list drawn from the moves, all with the largest score, and
   * every move with that score is among them.
   */
  lemma RootChoice(moves: seq<Move>, r: Root)
    requires |moves| > 0 && RootInvariant(moves, |moves|, r.score, r.score, r.best, r.scores)
    ensures |r.best| > 0 && r.score.Fin?
    ensures forall m :: m in r.best ==> m in moves
    ensures forall k :: 0 <= k < |moves| ==> Le(r.scores[k], r.score)
    ensures forall k :: 0 <= k < |moves| && r.scores[k] == r.score ==> moves[k] in r.best
  {
    assert moves[..|moves|] == moves;
    var k :| 0 <= k < |r.scores| && r.scores[k] == r.score;
    TiesSome(moves, r.scores, r.score, k);
    forall k | 0 <= k < |moves| && r.scores[k] == r.score
      ensures moves[k] in r.best
    {
      TiesSome(moves, r.scores, r.score, k);
    }
  }

  /**
   * The root loop over some moves from an empty table: the board comes back
   * and the pools come back as multisets; with at least one move, the best
   * moves are a non-empty list drawn from the moves, every one with the
   * largest score found, and every move with that score is among them.
   */
  function RootOver(g: GameTree, st: State, moves: seq<Move>): (r: Root)
    requires forall m :: m in moves ==> Reversible(st.board, m)
    ensures |r.scores| == |moves| && r.score == MaxOf(r.scores) && r.best == Ties(moves, r.scores, r.score)
      && GoodTable(r.table) && r.state.board == st.board
      && multiset(r.state.pp) == multiset(st.pp) && multiset(r.state.cp) == multiset(st.cp)
    ensures |moves| > 0 ==>
      |r.best| > 0 && r.score.Fin?
      && (forall m :: m in r.best ==> m in moves)
      && (forall k :: 0 <= k < |moves| ==> Le(r.scores[k], r.score))
      && (forall k :: 0 <= k < |moves| && r.scores[k] == r.score ==> moves[k] in r.best)
  {
    RootLoopCorrect(g, st, map[], moves, 0, NegInf, NegInf, [], []);
    assert moves[..|moves|] == moves;
    var r := RootLoop(g, st, map[], moves, 0, NegInf, NegInf, [], []);
    if |moves| > 0 then RootChoice(moves, r); r else r
  }

  /**
   * The hard level of `cpuTurnWithBuiltinAI` on state st: the table is
   * cleared, and the computer's legal moves are ordered and searched at the
   * root. The board comes back and the pools come back as multisets; when
   * the computer has a legal move, its best moves are a non-empty list of
   * legal moves, every one with the largest score found, and every move
   * with that score is among them.
   */
  function HardRoot(st: State): (r: Root)
    ensures var moves := NodeMoves(st, true);
      |r.scores| == |moves| && r.score == MaxOf(r.scores) && r.best == Ties(moves, r.scores, r.score)
      && GoodTable(r.table) && r.state.board == st.board
      && multiset(r.state.pp) == multiset(st.pp) && multiset(r.state.cp) == multiset(st.cp)
    ensures var moves := NodeMoves(st, true);
      |AllLegalMoves(st.board, st.pp, st.cp, Cpu)| > 0 ==>
        |r.best| > 0 && r.score.Fin?
        && (forall m :: m in r.best ==> m in AllLegalMoves(st.board, st.pp, st.cp, Cpu))
        && (forall k :: 0 <= k < |moves| ==> Le(r.scores[k], r.score))
        && (forall k :: 0 <= k < |moves| && r.scores[k] == r.score ==> moves[k] in r.best)
  {
    NodeMovesLegal(st, true);
    RootOver(Shogi, st, NodeMoves(st, true))
  }

  // ---------------------------------------------------------------------
  // The root loop of _minimaxSearch in BuiltinEngine
  // ---------------------------------------------------------------------

  /** The result of `_minimaxSearch`, with the table, the state and the scores seen. */
  datatype Pick = Pick(move: Option<Move>, score: Score, table: TTable, state: State, scores: seq<Score>)

  /**
   * The loop of `_minimaxSearch` from move i on: each move is tried with
   * `minimax(3, -Infinity, Infinity, false)`, and only a strictly better
   * score replaces the best move.
   */
  function BestFrom(g: GameTree, cur: State, tt: TTable, moves: seq<Move>, alpha: Score, i: nat, best: Option<Move>, bestScore: Score,
                    scores: seq<Score>): Pick
    requires i <= |moves|
    requires forall m :: m in moves ==> Reversible(cur.board, m)
    decreases |moves| - i
  {
    if i == |moves| then Pick(best, bestScore, tt, cur, scores)
    else
      var t := TryMove(g, cur, tt, moves[i], HardDepth - 1, alpha);
      if Lt(bestScore, t.score) then BestFrom(g, t.state, t.table, moves, alpha, i + 1, Some(moves[i]), t.score, scores + [t.score])
      else BestFrom(g, t.state, t.table, moves, alpha, i + 1, best, bestScore, scores + [t.score])
  }

  /** One step of the loop, unfolded: a strictly better score becomes the best. */
  lemma BestFromStep(g: GameTree, cur: State, tt: TTable, moves: seq<Move>, alpha: Score, i: nat, best: Option<Move>, bestScore: Score,
                     scores: seq<Score>)
    requires i < |moves| && forall m :: m in moves ==> Reversible(cur.board, m)
    ensures var t := TryMove(g, cur, tt, moves[i], HardDepth - 1, alpha);
      var better := Lt(bestScore, t.score);
      BestFrom(g, cur, tt, moves, alpha, i, best, bestScore, scores)
      == BestFrom(g, t.state, t.table, moves, alpha, i + 1, if better then Some(moves[i]) else best,
                  if better then t.score else bestScore, scores + [t.score])
  {
  }

  /** `_minimaxSearch` over the ordered moves; a search already stopped examines none. */
  function MinimaxSearchSpec(cur: State, tt: TTable, moves: seq<Move>, aborted: bool): Pick
    requires forall m :: m in moves ==> Reversible(cur.board, m)
  {
    if aborted then Pick(None, NegInf, tt, cur, [])
    else BestFrom(Shogi, cur, tt, moves, NegInf, 0, None, NegInf, [])
  }

  /** The first position of the largest score. */
  function FirstMax(ss: seq<Score>): (k: nat)
    requires |ss| > 0
    ensures k < |ss| && ss[k] == MaxOf(ss)
    ensures forall j :: 0 <= j < k ==> Lt(ss[j], ss[k])
  {
    if |ss| == 1 then 0
    else
      var init := ss[..|ss| - 1];
      var k := FirstMax(init);
      assert forall j :: 0 <= j < |ss| - 1 ==> init[j] == ss[j];
      if Lt(ss[k], ss[|ss| - 1]) then
        forall j | 0 <= j < k
          ensures Lt(ss[j], ss[|ss| - 1])
        {
          LtTransitive(ss[j], ss[k], ss[|ss| - 1]);
        }
        forall j | k <= j < |ss| - 1
          ensures Lt(ss[j], ss[|ss| - 1])
        {
          assert Le(init[j], MaxOf(init));
        }
        |ss| - 1
      else
        LtTrichotomy(ss[k], ss[|ss| - 1]);
        k
  }

  /** What the loop keeps true after moves[..i]: the best is the largest score so far, first reached by the best move. */
  predicate FirstInvariant(moves: seq<Move>, i: nat, best: Option<Move>, bestScore: Score, scores: seq<Score>)
  {
    i <= |moves| && |scores| == i && bestScore == MaxOf(scores)
    && (i == 0 ==> best.None?)
    && (i > 0 ==> best == Some(moves[FirstMax(scores)]))
  }

  lemma FirstStep(moves: seq<Move>, i: nat, best: Option<Move>, bestScore: Score, scores: seq<Score>, v: Score)
    requires FirstInvariant(moves, i, best, bestScore, scores) && i < |moves| && v.Fin?
    ensures var better := Lt(bestScore, v);
      FirstInvariant(moves, i + 1, if better then Some(moves[i]) else best, if better then v else bestScore, scores + [v])
  {
    var ss := scores + [v];
    assert ss[..i] == scores;
    assert MaxOf(ss) == Max(bestScore, v);
    LtTrichotomy(bestScore, v);
    if i > 0 {
      assert FirstMax(ss) == if Lt(bestScore, v) then i else FirstMax(scores);
    }
  }

  /** The loop leaves the board as it was and the pools' contents. */
  lemma {:induction false} BestFromRestores(g: GameTree, cur: State, tt: TTable, moves: seq<Move>, alpha: Score, i: nat, best: Option<Move>,
                                           bestScore: Score, scores: seq<Score>)
    requires i <= |moves| && forall m :: m in moves ==> Reversible(cur.board, m)
    ensures var r := BestFrom(g, cur, tt, moves, alpha, i, best, bestScore, scores);
      r.state.board == cur.board && multiset(r.state.pp) == multiset(cur.pp) && multiset(r.state.cp) == multiset(cur.cp)
    decreases |moves| - i
  {
    if i < |moves| {
      var t := TryMove(g, cur, tt, moves[i], HardDepth - 1, alpha);
      BestFromStep(g, cur, tt, moves, alpha, i, best, bestScore, scores);
      var better := Lt(bestScore, t.score);
      BestFromRestores(g, t.state, t.table, moves, alpha, i + 1, if better then Some(moves[i]) else best,
                       if better then t.score else bestScore, scores + [t.score]);
    }
  }

  /** With a table of numbers, the loop keeps one and sees only numbers. */
  lemma {:induction false} BestFromTable(g: GameTree, cur: State, tt: TTable, moves: seq<Move>, alpha: Score, i: nat, best: Option<Move>,
                                        bestScore: Score, scores: seq<Score>)
    requires i <= |moves| && forall m :: m in moves ==> Reversible(cur.board, m)
    requires GoodTable(tt) && forall k :: 0 <= k < |scores| ==> scores[k].Fin?
    ensures var r := BestFrom(g, cur, tt, moves, alpha, i, best, bestScore, scores);
      GoodTable(r.table) && forall k :: 0 <= k < |r.scores| ==> r.scores[k].Fin?
    decreases |moves| - i
  {
    if i < |moves| {
      var t := TryMove(g, cur, tt, moves[i], HardDepth - 1, alpha);
      BestFromStep(g, cur, tt, moves, alpha, i, best, bestScore, scores);
      var better := Lt(bestScore, t.score);
      var seen := scores + [t.score];
      assert forall k :: 0 <= k < |seen| ==> seen[k].Fin? by {
        forall k | 0 <= k < |seen| ensures seen[k].Fin? {
          if k < |scores| { assert seen[k] == scores[k]; }
        }
      }
      BestFromTable(g, t.state, t.table, moves, alpha, i + 1, if better then Some(moves[i]) else best,
                    if better then t.score else bestScore, seen);
    }
  }

  /**
   * The loop ends with the first of the moves that reached the largest
   * score, and that score.
   */
  lemma {:induction false} BestFromCorrect(g: GameTree, cur: State, tt: TTable, moves: seq<Move>, alpha: Score, i: nat, best: Option<Move>,
                                          bestScore: Score, scores: seq<Score>)
    requires forall m :: m in moves ==> Reversible(cur.board, m)
    requires FirstInvariant(moves, i, best, bestScore, scores) && GoodTable(tt)
    ensures var r := BestFrom(g, cur, tt, moves, alpha, i, best, bestScore, scores);
      FirstInvariant(moves, |moves|, r.move, r.score, r.scores)
    decreases |moves| - i
  {
    if i < |moves| {
      var t := TryMove(g, cur, tt, moves[i], HardDepth - 1, alpha);
      BestFromStep(g, cur, tt, moves, alpha, i, best, bestScore, scores);
      FirstStep(moves, i, best, bestScore, scores, t.score);
      var better := Lt(bestScore, t.score);
      BestFromCorrect(g, t.state, t.table, moves, alpha, i + 1, if better then Some(moves[i]) else best,
                      if better then t.score else bestScore, scores + [t.score]);
    }
  }

  /**
   * `_minimaxSearch` with a table of numbers: stopped, it returns no move
   * and -Infinity and changes nothing; otherwise it scores every move, and
   * returns the first move with the largest score (no later tie replaces
   * it) and that score; no move and -Infinity only when there are no moves.
   */
  lemma MinimaxSearchFirstBest(cur: State, tt: TTable, moves: seq<Move>, aborted: bool)
    requires forall m :: m in moves ==> Reversible(cur.board, m)
    requires GoodTable(tt)
    ensures var r := MinimaxSearchSpec(cur, tt, moves, aborted);
      (aborted ==> r.move.None? && r.score == NegInf && r.state == cur && r.table == tt)
      && (!aborted ==>
            |r.scores| == |moves| && GoodTable(r.table) && r.state.board == cur.board
            && multiset(r.state.pp) == multiset(cur.pp) && multiset(r.state.cp) == multiset(cur.cp)
            && (|moves| == 0 ==> r.move.None? && r.score == NegInf)
            && (|moves| > 0 ==>
                  var k := FirstMax(r.scores);
                  r.move == Some(moves[k]) && r.score == r.scores[k] && r.score.Fin?
                  && (forall j :: 0 <= j < |moves| ==> Le(r.scores[j], r.score))
                  && (forall j :: 0 <= j < k ==> Lt(r.scores[j], r.score))))
  {
    if !aborted {
      BestFromCorrect(Shogi, cur, tt, moves, NegInf, 0, None, NegInf, []);
      BestFromTable(Shogi, cur, tt, moves, NegInf, 0, None, NegInf, []);
      BestFromRestores(Shogi, cur, tt, moves, NegInf, 0, None, NegInf, []);
    }
  }

  /** `_minimaxSearch` chooses among the moves it is given, and leaves the board and the pools' contents. */
  lemma BestFromKeeps(cur: State, tt: TTable, moves: seq<Move>, aborted: bool)
    requires forall m :: m in moves ==> Reversible(cur.board, m)
    ensures var r := MinimaxSearchSpec(cur, tt, moves, aborted);
      (r.move.Some? ==> r.move.value in moves)
      && r.state.board == cur.board && multiset(r.state.pp) == multiset(cur.pp) && multiset(r.state.cp) == multiset(cur.cp)
  {
    if !aborted {
      BestFromChooses(Shogi, cur, tt, moves, NegInf, 0, None, NegInf, []);
      BestFromRestores(Shogi, cur, tt, moves, NegInf, 0, None, NegInf, []);
    }
  }

  lemma {:induction false} BestFromChooses(g: GameTree, cur: State, tt: TTable, moves: seq<Move>, alpha: Score, i: nat, best: Option<Move>,
                                          bestScore: Score, scores: seq<Score>)
    requires i <= |moves| && forall m :: m in moves ==> Reversible(cur.board, m)
    requires best.Some? ==> best.value in moves
    ensures var r := BestFrom(g, cur, tt, moves, alpha, i, best, bestScore, scores);
      r.move.Some? ==> r.move.value in moves
    decreases |moves| - i
  {
    if i < |moves| {
      var t := TryMove(g, cur, tt, moves[i], HardDepth - 1, alpha);
      BestFromStep(g, cur, tt, moves, alpha, i, best, bestScore, scores);
      var better := Lt(bestScore, t.score);
      var next := if better then Some(moves[i]) else best;
      assert next.Some? ==> next.value in moves;
      BestFromChooses(g, t.state, t.table, moves, alpha, i + 1, next, if better then t.score else bestScore, scores + [t.score]);
    }
  }
}
