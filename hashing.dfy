/**
 * Position identity: the order `Array.prototype.sort()` puts captured pools
 * in, the repetition hash `getBoardHash`, the transposition-table key
 * `getPositionHash`, the position history and `checkRepetition`.
 */
module Hashing {
  import opened Wrappers
  import opened Pieces
  import opened Board
  import opened JsText

  // ---------------------------------------------------------------------
  // Sorting a pool of type strings
  // ---------------------------------------------------------------------

  /** x sorts no later than y: its name is not greater as a string. */
  predicate KindLe(x: PieceType, y: PieceType)
  {
    !StrLess(Name(y), Name(x))
  }

  lemma KindLeReflexive(x: PieceType)
    ensures KindLe(x, x)
  {
    StrLessIrreflexive(Name(x));
  }

  lemma KindLeTotal(x: PieceType, y: PieceType)
    ensures KindLe(x, y) || KindLe(y, x)
  {
    if Name(x) == Name(y) {
      StrLessIrreflexive(Name(x));
    } else {
      StrLessTotal(Name(x), Name(y));
      if StrLess(Name(x), Name(y)) && StrLess(Name(y), Name(x)) {
        StrLessTransitive(Name(x), Name(y), Name(x));
        StrLessIrreflexive(Name(x));
      }
    }
  }

  lemma KindLeAntisymmetric(x: PieceType, y: PieceType)
    requires KindLe(x, y) && KindLe(y, x)
    ensures x == y
  {
    if Name(x) != Name(y) {
      StrLessTotal(Name(x), Name(y));
    }
    NameInjective(x, y);
  }

  lemma KindLeTransitive(x: PieceType, y: PieceType, z: PieceType)
    requires KindLe(x, y) && KindLe(y, z)
    ensures KindLe(x, z)
  {
    if StrLess(Name(z), Name(x)) {
      if Name(x) != Name(y) {
        StrLessTotal(Name(x), Name(y));
      }
      if Name(y) != Name(z) {
        StrLessTotal(Name(y), Name(z));
      }
      if Name(x) == Name(y) && Name(y) == Name(z) {
        StrLessIrreflexive(Name(x));
      } else if Name(x) == Name(y) {
        StrLessTransitive(Name(z), Name(y), Name(z));
        StrLessIrreflexive(Name(z));
      } else if Name(y) == Name(z) {
        StrLessTransitive(Name(x), Name(y), Name(x));
        StrLessIrreflexive(Name(x));
      } else {
        StrLessTransitive(Name(x), Name(y), Name(z));
        StrLessTransitive(Name(x), Name(z), Name(x));
        StrLessIrreflexive(Name(x));
      }
    }
  }

  predicate SortedKinds(s: seq<PieceType>)
  {
    forall i, j :: 0 <= i < j < |s| ==> KindLe(s[i], s[j])
  }

  /** Insert x into a sorted pool after the entries that sort no later than it. */
  function InsertKind(x: PieceType, s: seq<PieceType>): (r: seq<PieceType>)
    requires SortedKinds(s)
    ensures SortedKinds(r)
    ensures multiset(r) == multiset(s) + multiset{x}
  {
    if |s| == 0 then [x]
    else if KindLe(x, s[0]) then
      assert forall j :: 0 <= j < |s| ==> KindLe(x, s[j]) by {
        forall j | 0 <= j < |s| ensures KindLe(x, s[j]) {
          if j > 0 { KindLeTransitive(x, s[0], s[j]); }
        }
      }
      [x] + s
    else
      KindLeTotal(x, s[0]);
      var tail := InsertKind(x, s[1..]);
      assert s == [s[0]] + s[1..];
      assert forall j :: 0 <= j < |tail| ==> KindLe(s[0], tail[j]) by {
        forall j | 0 <= j < |tail| ensures KindLe(s[0], tail[j]) {
          assert tail[j] in multiset(tail);
          if tail[j] != x {
            assert tail[j] in multiset(s[1..]);
            var k :| 0 <= k < |s[1..]| && s[1..][k] == tail[j];
            assert s[k + 1] == tail[j];
          }
        }
      }
      [s[0]] + tail
  }

  /** `pool.sort()`: the pool in ascending order of the type strings. */
  function SortKinds(s: seq<PieceType>): (r: seq<PieceType>)
    ensures SortedKinds(r)
    ensures multiset(r) == multiset(s)
  {
    if |s| == 0 then []
    else
      assert s == [s[0]] + s[1..];
      InsertKind(s[0], SortKinds(s[1..]))
  }

  /** A sorted arrangement of a multiset of types is unique. */
  lemma {:induction false} SortedUnique(a: seq<PieceType>, b: seq<PieceType>)
    requires SortedKinds(a) && SortedKinds(b) && multiset(a) == multiset(b)
    ensures a == b
    decreases |a|
  {
    if |a| == 0 {
      assert |multiset(b)| == 0;
    } else {
      assert |b| > 0 by {
        assert a[0] in multiset(a);
      }
      assert a[0] in multiset(b);
      var j :| 0 <= j < |b| && b[j] == a[0];
      assert b[0] in multiset(a);
      var i :| 0 <= i < |a| && a[i] == b[0];
      KindLeReflexive(a[0]);
      KindLeReflexive(b[0]);
      assert KindLe(a[0], b[0]);
      assert KindLe(b[0], a[0]);
      KindLeAntisymmetric(a[0], b[0]);
      DropHead(a, b);
      SortedUnique(a[1..], b[1..]);
    }
  }

  lemma DropHead(a: seq<PieceType>, b: seq<PieceType>)
    requires |a| > 0 && |b| > 0 && a[0] == b[0] && multiset(a) == multiset(b)
    ensures multiset(a[1..]) == multiset(b[1..])
  {
    assert a == [a[0]] + a[1..];
    assert b == [b[0]] + b[1..];
    assert multiset(a[1..]) == multiset(a) - multiset{a[0]};
    assert multiset(b[1..]) == multiset(b) - multiset{b[0]};
  }

  /** Sorting depends on the pool only as a multiset. */
  lemma SortPermutation(a: seq<PieceType>, b: seq<PieceType>)
    requires multiset(a) == multiset(b)
    ensures SortKinds(a) == SortKinds(b)
  {
    SortedUnique(SortKinds(a), SortKinds(b));
  }

  /** Sorting a sorted pool changes nothing. */
  lemma SortIdempotent(s: seq<PieceType>)
    requires SortedKinds(s)
    ensures SortKinds(s) == s
  {
    SortedUnique(SortKinds(s), s);
  }

  // ---------------------------------------------------------------------
  // getBoardHash
  // ---------------------------------------------------------------------

  /** What the hash records of a square: the type and owner of its piece, not the `promoted` flag. */
  function Key(x: Cell): Option<(PieceType, Side)>
  {
    match x
    case None => None
    case Some(p) => Some((p.kind, p.owner))
  }

  /** `${r}${c}${piece.type}${piece.owner}` for the square with row-major index i. */
  function SquareText(i: nat, t: PieceType, s: Side): string
    requires i < 81
  {
    NatToString(RowOf(i)) + NatToString(ColOf(i)) + Name(t) + SideName(s)
  }

  /** The square part of `getBoardHash` from square i on: one entry ending in '|' per occupied square, row-major. */
  function SquaresText(b: Grid, i: nat): string
    requires i <= 81
    decreases b, 81 - i
  {
    if i == 81 then ""
    else (if b[i].Some? then SquareText(i, b[i].value.kind, b[i].value.owner) + "|" else "") + SquaresText(b, i + 1)
  }

  function NamesOf(ks: seq<PieceType>): (r: seq<string>)
    ensures |r| == |ks| && forall j :: 0 <= j < |ks| ==> r[j] == Name(ks[j])
  {
    seq(|ks|, j requires 0 <= j < |ks| => Name(ks[j]))
  }

  /** `[...pool].sort().join(',')`. */
  function PoolText(pool: seq<PieceType>): string
  {
    Join(NamesOf(SortKinds(pool)), ',')
  }

  /** The tail of the hash: `'P:' + player pool + 'C:' + computer pool`. */
  function PoolsText(pp: seq<PieceType>, cp: seq<PieceType>): string
  {
    "P:" + PoolText(pp) + "C:" + PoolText(cp)
  }

  /** `getBoardHash()`: the side to move, the occupied squares, then both pools in sorted order. */
  function BoardHash(side: Side, b: Grid, pp: seq<PieceType>, cp: seq<PieceType>): string
  {
    SideName(side) + "|" + SquaresText(b, 0) + PoolsText(pp, cp)
  }

  /** What `getBoardHash` identifies: the side to move, type and owner per square, and the pools as multisets. */
  predicate SameHashState(s1: Side, b1: Grid, pp1: seq<PieceType>, cp1: seq<PieceType>,
                          s2: Side, b2: Grid, pp2: seq<PieceType>, cp2: seq<PieceType>)
  {
    s1 == s2
    && (forall i :: 0 <= i < 81 ==> Key(b1[i]) == Key(b2[i]))
    && multiset(pp1) == multiset(pp2) && multiset(cp1) == multiset(cp2)
  }

  lemma {:induction false} SquaresTextKeys(b1: Grid, b2: Grid, i: nat)
    requires i <= 81
    requires forall k :: 0 <= k < 81 ==> Key(b1[k]) == Key(b2[k])
    ensures SquaresText(b1, i) == SquaresText(b2, i)
    decreases 81 - i
  {
    if i < 81 {
      assert Key(b1[i]) == Key(b2[i]);
      SquaresTextKeys(b1, b2, i + 1);
    }
  }

  /** An occupied square as the hash lists it: index, type, owner. */
  type Occupant = (nat, PieceType, Side)

  /** The occupied squares from i on, row-major. */
  function Occ(b: Grid, i: nat): (r: seq<Occupant>)
    requires i <= 81
    ensures forall k :: 0 <= k < |r| ==> i <= r[k].0 < 81
    decreases b, 81 - i
  {
    if i == 81 then []
    else (if b[i].Some? then [(i, b[i].value.kind, b[i].value.owner)] else []) + Occ(b, i + 1)
  }

  function SegTexts(os: seq<Occupant>): (r: seq<string>)
    requires forall k :: 0 <= k < |os| ==> os[k].0 < 81
    ensures |r| == |os|
    ensures forall k :: 0 <= k < |os| ==> r[k] == SquareText(os[k].0, os[k].1, os[k].2)
  {
    seq(|os|, k requires 0 <= k < |os| => SquareText(os[k].0, os[k].1, os[k].2))
  }

  /** The pieces, each followed by '|'. */
  function TermJoin(xs: seq<string>): string
  {
    if |xs| == 0 then "" else xs[0] + "|" + TermJoin(xs[1..])
  }

  lemma {:induction false} SquaresAsSegs(b: Grid, i: nat)
    requires i <= 81
    ensures SquaresText(b, i) == TermJoin(SegTexts(Occ(b, i)))
    decreases 81 - i
  {
    if i < 81 {
      SquaresAsSegs(b, i + 1);
      if b[i].Some? {
        var e: Occupant := (i, b[i].value.kind, b[i].value.owner);
        assert Occ(b, i) == [e] + Occ(b, i + 1);
        SegTextsCons(e, Occ(b, i + 1));
      } else {
        assert Occ(b, i) == Occ(b, i + 1);
      }
    }
  }

  /** One more occupant in front adds its text in front, so the joined text gains it and a '|'. */
  lemma SegTextsCons(e: Occupant, os: seq<Occupant>)
    requires e.0 < 81 && forall k :: 0 <= k < |os| ==> os[k].0 < 81
    ensures TermJoin(SegTexts([e] + os)) == SquareText(e.0, e.1, e.2) + "|" + TermJoin(SegTexts(os))
  {
    assert SegTexts([e] + os)[1..] == SegTexts(os);
  }

  lemma {:induction false} TermJoinJoin(xs: seq<string>, t: string)
    ensures TermJoin(xs) + t == Join(xs + [t], '|')
    decreases |xs|
  {
    if |xs| > 0 {
      TermJoinJoin(xs[1..], t);
      assert (xs + [t])[1..] == xs[1..] + [t];
    }
  }

  lemma NoBarInSide(s: Side)
    ensures '|' !in SideName(s) && ',' !in SideName(s) && 'C' !in SideName(s)
  {
    SideNameFacts(s);
  }

  lemma NoBarInName(t: PieceType)
    ensures '|' !in Name(t) && ',' !in Name(t) && 'C' !in Name(t)
  {
    NameFacts(t);
  }

  lemma NoBarInSquare(i: nat, t: PieceType, s: Side)
    requires i < 81
    ensures '|' !in SquareText(i, t, s)
  {
    NoBarInSide(s);
    NoBarInName(t);
    var a := NatToString(RowOf(i)) + NatToString(ColOf(i));
    assert forall j :: 0 <= j < |a| ==> IsDigit(a[j]);
  }

  /** No separator of the pool text occurs in a joined list of type names. */
  lemma {:induction false} NoBarInNames(ks: seq<PieceType>)
    ensures '|' !in Join(NamesOf(ks), ',') && 'C' !in Join(NamesOf(ks), ',')
    decreases |ks|
  {
    if |ks| > 0 {
      NoBarInName(ks[0]);
      NoBarInNames(ks[1..]);
      assert NamesOf(ks)[1..] == NamesOf(ks[1..]);
    }
  }

  lemma NoBarInPools(pp: seq<PieceType>, cp: seq<PieceType>)
    ensures '|' !in PoolsText(pp, cp)
  {
    NoBarInNames(SortKinds(pp));
    NoBarInNames(SortKinds(cp));
  }

  lemma HashJoin(a: string, segs: seq<string>, t: string)
    ensures a + "|" + TermJoin(segs) + t == Join([a] + segs + [t], '|')
  {
    TermJoinJoin(segs, t);
    var parts := [a] + segs + [t];
    assert parts[1..] == segs + [t];
    assert a + "|" + TermJoin(segs) + t == a + "|" + (TermJoin(segs) + t);
  }

  lemma NoBarInSegs(os: seq<Occupant>)
    requires forall k :: 0 <= k < |os| ==> os[k].0 < 81
    ensures forall k :: 0 <= k < |os| ==> '|' !in SegTexts(os)[k]
  {
    forall k | 0 <= k < |os|
      ensures '|' !in SegTexts(os)[k]
    {
      NoBarInSquare(os[k].0, os[k].1, os[k].2);
    }
  }

  lemma NoBarInParts(a: string, segs: seq<string>, t: string)
    requires '|' !in a && '|' !in t
    requires forall k :: 0 <= k < |segs| ==> '|' !in segs[k]
    ensures var parts := [a] + segs + [t];
      forall k :: 0 <= k < |parts| ==> '|' !in parts[k]
  {
    var parts := [a] + segs + [t];
    forall k | 0 <= k < |parts|
      ensures '|' !in parts[k]
    {
      if 0 < k < |parts| - 1 {
        assert parts[k] == segs[k - 1];
      }
    }
  }

  lemma HashPartsNoBar(side: Side, b: Grid, pp: seq<PieceType>, cp: seq<PieceType>)
    ensures var parts := [SideName(side)] + SegTexts(Occ(b, 0)) + [PoolsText(pp, cp)];
      forall k :: 0 <= k < |parts| ==> '|' !in parts[k]
  {
    NoBarInSide(side);
    NoBarInPools(pp, cp);
    NoBarInSegs(Occ(b, 0));
    NoBarInParts(SideName(side), SegTexts(Occ(b, 0)), PoolsText(pp, cp));
  }

  /** Splitting the hash on '|' gives back the side name, one text per occupied square and the pool text. */
  lemma HashParts(side: Side, b: Grid, pp: seq<PieceType>, cp: seq<PieceType>)
    ensures Split(BoardHash(side, b, pp, cp), '|') == [SideName(side)] + SegTexts(Occ(b, 0)) + [PoolsText(pp, cp)]
  {
    var segs := SegTexts(Occ(b, 0));
    SquaresAsSegs(b, 0);
    HashJoin(SideName(side), segs, PoolsText(pp, cp));
    HashPartsNoBar(side, b, pp, cp);
    JoinSplit([SideName(side)] + segs + [PoolsText(pp, cp)], '|');
  }

  lemma DigitText(n: nat)
    requires n < 10
    ensures NatToString(n) == [('0' as int + n) as char]
  {
  }

  lemma SegTextInjective(e1: Occupant, e2: Occupant)
    requires e1.0 < 81 && e2.0 < 81
    requires SquareText(e1.0, e1.1, e1.2) == SquareText(e2.0, e2.1, e2.2)
    ensures e1 == e2
  {
    var s := SquareText(e1.0, e1.1, e1.2);
    DigitText(RowOf(e1.0));
    DigitText(ColOf(e1.0));
    DigitText(RowOf(e2.0));
    DigitText(ColOf(e2.0));
    SideNameFacts(e1.2);
    SideNameFacts(e2.2);
    var n1, n2 := Name(e1.1), Name(e2.1);
    var w1, w2 := SideName(e1.2), SideName(e2.2);
    assert s == NatToString(RowOf(e1.0)) + NatToString(ColOf(e1.0)) + n1 + w1;
    assert s == NatToString(RowOf(e2.0)) + NatToString(ColOf(e2.0)) + n2 + w2;
    assert RowOf(e1.0) == RowOf(e2.0) by {
      assert s[0] == ('0' as int + RowOf(e1.0)) as char == ('0' as int + RowOf(e2.0)) as char;
    }
    assert ColOf(e1.0) == ColOf(e2.0) by {
      assert s[1] == ('0' as int + ColOf(e1.0)) as char == ('0' as int + ColOf(e2.0)) as char;
    }
    RowColOf(e1.0);
    RowColOf(e2.0);
    assert s[|s| - 1] == w1[|w1| - 1] == w2[|w2| - 1];
    assert e1.2 == e2.2;
    assert s[2..|s| - |w1|] == n1;
    assert s[2..|s| - |w2|] == n2;
    NameInjective(e1.1, e2.1);
  }

  lemma SegTextsInjective(os1: seq<Occupant>, os2: seq<Occupant>)
    requires forall k :: 0 <= k < |os1| ==> os1[k].0 < 81
    requires forall k :: 0 <= k < |os2| ==> os2[k].0 < 81
    requires SegTexts(os1) == SegTexts(os2)
    ensures os1 == os2
  {
    forall k | 0 <= k < |os1|
      ensures os1[k] == os2[k]
    {
      assert SegTexts(os1)[k] == SegTexts(os2)[k];
      SegTextInjective(os1[k], os2[k]);
    }
  }

  /** Square i is listed with type t and owner s exactly when it holds such a piece. */
  lemma {:induction false} OccIff(b: Grid, i: nat, e: Occupant)
    requires i <= 81
    ensures e in Occ(b, i) <==> i <= e.0 < 81 && Key(b[e.0]) == Some((e.1, e.2))
    decreases 81 - i
  {
    if i < 81 {
      OccIff(b, i + 1, e);
    }
  }

  lemma OccKeys(b1: Grid, b2: Grid)
    requires Occ(b1, 0) == Occ(b2, 0)
    ensures forall k :: 0 <= k < 81 ==> Key(b1[k]) == Key(b2[k])
  {
    forall k | 0 <= k < 81
      ensures Key(b1[k]) == Key(b2[k])
    {
      if Key(b1[k]).Some? {
        var e: Occupant := (k, Key(b1[k]).value.0, Key(b1[k]).value.1);
        OccIff(b1, 0, e);
        OccIff(b2, 0, e);
      } else if Key(b2[k]).Some? {
        var e: Occupant := (k, Key(b2[k]).value.0, Key(b2[k]).value.1);
        OccIff(b1, 0, e);
        OccIff(b2, 0, e);
      }
    }
  }

  lemma PoolsTextSplit(a1: string, c1: string, a2: string, c2: string)
    requires 'C' !in a1 && 'C' !in a2
    requires "P:" + a1 + "C:" + c1 == "P:" + a2 + "C:" + c2
    ensures a1 == a2 && c1 == c2
  {
    var s1 := a1 + "C:" + c1;
    var s2 := a2 + "C:" + c2;
    assert s1 == ("P:" + a1 + "C:" + c1)[2..];
    assert s2 == ("P:" + a2 + "C:" + c2)[2..];
    assert s1 == a1 + ['C'] + (":" + c1);
    assert s2 == a2 + ['C'] + (":" + c2);
    IndexOfPrefix(a1, ":" + c1, 'C');
    IndexOfPrefix(a2, ":" + c2, 'C');
    assert |a1| == |a2|;
    assert a1 == s1[..|a1|];
    assert a2 == s2[..|a2|];
    assert c1 == s1[|a1| + 2..];
    assert c2 == s2[|a2| + 2..];
  }

  lemma NamesInjective(a: seq<PieceType>, b: seq<PieceType>)
    requires NamesOf(a) == NamesOf(b)
    ensures a == b
  {
    forall k | 0 <= k < |a|
      ensures a[k] == b[k]
    {
      assert NamesOf(a)[k] == NamesOf(b)[k];
      NameInjective(a[k], b[k]);
    }
  }

  lemma NoCommaInNames(ks: seq<PieceType>)
    ensures forall k :: 0 <= k < |NamesOf(ks)| ==> ',' !in NamesOf(ks)[k]
  {
    forall k | 0 <= k < |ks|
      ensures ',' !in NamesOf(ks)[k]
    {
      NoBarInName(ks[k]);
    }
  }

  lemma JoinNamesEmpty(ks: seq<PieceType>)
    ensures Join(NamesOf(ks), ',') == "" <==> |ks| == 0
  {
    if |ks| > 0 {
      NameFacts(ks[0]);
    }
  }

  lemma PoolTextInjective(p1: seq<PieceType>, p2: seq<PieceType>)
    requires PoolText(p1) == PoolText(p2)
    ensures multiset(p1) == multiset(p2)
  {
    var s1, s2 := SortKinds(p1), SortKinds(p2);
    JoinNamesEmpty(s1);
    JoinNamesEmpty(s2);
    if |s1| > 0 {
      NoCommaInNames(s1);
      NoCommaInNames(s2);
      JoinSplit(NamesOf(s1), ',');
      JoinSplit(NamesOf(s2), ',');
      NamesInjective(s1, s2);
    }
  }

  /**
   * Two states get the same `getBoardHash` exactly when they have the same
   * side to move, the same type and owner on every square, and the same
   * captured pools up to order.
   */
  lemma BoardHashIff(s1: Side, b1: Grid, pp1: seq<PieceType>, cp1: seq<PieceType>,
                     s2: Side, b2: Grid, pp2: seq<PieceType>, cp2: seq<PieceType>)
    ensures BoardHash(s1, b1, pp1, cp1) == BoardHash(s2, b2, pp2, cp2)
        <==> SameHashState(s1, b1, pp1, cp1, s2, b2, pp2, cp2)
  {
    if SameHashState(s1, b1, pp1, cp1, s2, b2, pp2, cp2) {
      SquaresTextKeys(b1, b2, 0);
      SortPermutation(pp1, pp2);
      SortPermutation(cp1, cp2);
    }
    if BoardHash(s1, b1, pp1, cp1) == BoardHash(s2, b2, pp2, cp2) {
      HashParts(s1, b1, pp1, cp1);
      HashParts(s2, b2, pp2, cp2);
      HashSameParts(s1, b1, pp1, cp1, s2, b2, pp2, cp2);
    }
  }

  lemma HashSameParts(s1: Side, b1: Grid, pp1: seq<PieceType>, cp1: seq<PieceType>,
                      s2: Side, b2: Grid, pp2: seq<PieceType>, cp2: seq<PieceType>)
    requires [SideName(s1)] + SegTexts(Occ(b1, 0)) + [PoolsText(pp1, cp1)]
          == [SideName(s2)] + SegTexts(Occ(b2, 0)) + [PoolsText(pp2, cp2)]
    ensures SameHashState(s1, b1, pp1, cp1, s2, b2, pp2, cp2)
  {
    var l1 := [SideName(s1)] + SegTexts(Occ(b1, 0)) + [PoolsText(pp1, cp1)];
    var l2 := [SideName(s2)] + SegTexts(Occ(b2, 0)) + [PoolsText(pp2, cp2)];
    assert l1[0] == SideName(s1) && l2[0] == SideName(s2);
    SideNameFacts(s1);
    SideNameFacts(s2);
    assert SideName(s1)[0] == SideName(s2)[0];
    assert l1[1..|l1| - 1] == SegTexts(Occ(b1, 0));
    assert l2[1..|l2| - 1] == SegTexts(Occ(b2, 0));
    SegTextsInjective(Occ(b1, 0), Occ(b2, 0));
    OccKeys(b1, b2);
    assert l1[|l1| - 1] == PoolsText(pp1, cp1);
    assert l2[|l2| - 1] == PoolsText(pp2, cp2);
    NoBarInNames(SortKinds(pp1));
    NoBarInNames(SortKinds(pp2));
    PoolsTextSplit(PoolText(pp1), PoolText(cp1), PoolText(pp2), PoolText(cp2));
    PoolTextInjective(pp1, pp2);
    PoolTextInjective(cp1, cp2);
  }

  /** The side to move is part of the hash. */
  lemma HashSeesSide(b: Grid, pp: seq<PieceType>, cp: seq<PieceType>)
    ensures BoardHash(Player, b, pp, cp) != BoardHash(Cpu, b, pp, cp)
  {
    BoardHashIff(Player, b, pp, cp, Cpu, b, pp, cp);
  }

  /** Moving a piece to an empty square changes the hash. */
  lemma HashSeesMove(side: Side, b: Grid, pp: seq<PieceType>, cp: seq<PieceType>, r: int, c: int, r': int, c': int)
    requires OnBoard(r, c) && OnBoard(r', c') && (r, c) != (r', c')
    requires At(b, r, c).Some? && At(b, r', c').None?
    ensures BoardHash(side, Put(Put(b, r', c', At(b, r, c)), r, c, None), pp, cp) != BoardHash(side, b, pp, cp)
  {
    var b' := Put(Put(b, r', c', At(b, r, c)), r, c, None);
    BoardHashIff(side, b', pp, cp, side, b, pp, cp);
    assert Key(b'[Idx(r, c)]) != Key(b[Idx(r, c)]);
  }

  /** Adding a type to a pool changes the hash. */
  lemma HashSeesPool(side: Side, b: Grid, pp: seq<PieceType>, cp: seq<PieceType>, t: PieceType)
    ensures BoardHash(side, b, pp + [t], cp) != BoardHash(side, b, pp, cp)
    ensures BoardHash(side, b, pp, cp + [t]) != BoardHash(side, b, pp, cp)
  {
    BoardHashIff(side, b, pp + [t], cp, side, b, pp, cp);
    BoardHashIff(side, b, pp, cp + [t], side, b, pp, cp);
    assert multiset(pp + [t]) == multiset(pp) + multiset{t};
    assert multiset(cp + [t]) == multiset(cp) + multiset{t};
    assert multiset(pp + [t])[t] == multiset(pp)[t] + 1;
    assert multiset(cp + [t])[t] == multiset(cp)[t] + 1;
  }

  // ---------------------------------------------------------------------
  // getPositionHash: the transposition-table key
  // ---------------------------------------------------------------------

  /** `${r}${c}${p.type}${p.owner[0]}`: the owner is cut to its first letter. */
  function KeySquareText(i: nat, t: PieceType, s: Side): string
    requires i < 81
  {
    NatToString(RowOf(i)) + NatToString(ColOf(i)) + Name(t) + [SideName(s)[0]]
  }

  /** The square part of the key from square i on, row-major, with no separator. */
  function KeySquaresText(b: Grid, i: nat): string
    requires i <= 81
    decreases b, 81 - i
  {
    if i == 81 then ""
    else (if b[i].Some? then KeySquareText(i, b[i].value.kind, b[i].value.owner) else "") + KeySquaresText(b, i + 1)
  }

  /** `parts.join('')`. */
  function Concat(parts: seq<string>): string
  {
    if |parts| == 0 then "" else Concat(parts[..|parts| - 1]) + parts[|parts| - 1]
  }

  /** The key read from a board and two pools as they stand. */
  function PositionText(b: Grid, pp: seq<PieceType>, cp: seq<PieceType>): string
  {
    KeySquaresText(b, 0) + Concat(NamesOf(pp)) + Concat(NamesOf(cp))
  }

  /**
   * `getPositionHash()`: both pools are sorted (in place, in the game) and
   * the key is read from the sorted pools. The side to move is not part of it.
   */
  function PositionHash(b: Grid, pp: seq<PieceType>, cp: seq<PieceType>): string
  {
    PositionText(b, SortKinds(pp), SortKinds(cp))
  }

  lemma {:induction false} KeySquaresTextKeys(b1: Grid, b2: Grid, i: nat)
    requires i <= 81
    requires forall k :: 0 <= k < 81 ==> Key(b1[k]) == Key(b2[k])
    ensures KeySquaresText(b1, i) == KeySquaresText(b2, i)
    decreases 81 - i
  {
    if i < 81 {
      assert Key(b1[i]) == Key(b2[i]);
      KeySquaresTextKeys(b1, b2, i + 1);
    }
  }

  /**
   * The key depends on the board only through type and owner per square and
   * on the pools only as multisets: positions that differ in nothing else
   * share a table entry.
   */
  lemma PositionHashSound(b1: Grid, pp1: seq<PieceType>, cp1: seq<PieceType>,
                          b2: Grid, pp2: seq<PieceType>, cp2: seq<PieceType>)
    requires forall k :: 0 <= k < 81 ==> Key(b1[k]) == Key(b2[k])
    requires multiset(pp1) == multiset(pp2) && multiset(cp1) == multiset(cp2)
    ensures PositionHash(b1, pp1, cp1) == PositionHash(b2, pp2, cp2)
  {
    KeySquaresTextKeys(b1, b2, 0);
    SortPermutation(pp1, pp2);
    SortPermutation(cp1, cp2);
  }

  /**
   * The two pools are concatenated with no marker between them, so a type in
   * the player's hand and the same type in the computer's hand give the same
   * key: the transposition table conflates these positions.
   */
  lemma PositionHashConflatesHands(b: Grid, t: PieceType)
    ensures PositionHash(b, [t], []) == PositionHash(b, [], [t])
  {
    assert SortKinds([t]) == [t] by {
      assert [t][1..] == [];
    }
    assert Concat(NamesOf([t])) == Name(t) by {
      assert NamesOf([t])[..0] == [];
    }
  }

  // ---------------------------------------------------------------------
  // Position history and checkRepetition
  // ---------------------------------------------------------------------

  /**
   * An entry of `positionHistory`: `{ hash, checker }` as `recordPosition`
   * writes it, or a bare hash string as older saved games hold.
   */
  datatype Entry = Record(hash: string, checker: Option<Side>) | Legacy(hash: string)

  /** The result `{ isRepetition, perpetualChecker }`. */
  datatype Repetition = Repetition(isRepetition: bool, perpetualChecker: Option<Side>)

  /** The indices of the entries with hash h, in order (`samePositionIndices`). */
  function SameIndices(hist: seq<Entry>, h: string, i: nat): (r: seq<nat>)
    requires i <= |hist|
    ensures forall k :: 0 <= k < |r| ==> i <= r[k] < |hist| && hist[r[k]].hash == h
    ensures forall k, l :: 0 <= k < l < |r| ==> r[k] < r[l]
    decreases |hist| - i
  {
    if i == |hist| then []
    else (if hist[i].hash == h then [i] else []) + SameIndices(hist, h, i + 1)
  }

  /** The number of entries with hash h (`samePositions.length`). */
  function CountSame(hist: seq<Entry>, h: string): nat
  {
    if |hist| == 0 then 0
    else CountSame(hist[..|hist| - 1], h) + (if hist[|hist| - 1].hash == h then 1 else 0)
  }

  /**
   * The perpetual-check scan from index i to the end: whether every entry is
   * a record with checker 'player', and whether every one has checker 'cpu';
   * a legacy entry makes both false.
   */
  function PerpetualScan(hist: seq<Entry>, i: nat): (bool, bool)
    requires i <= |hist|
    decreases |hist| - i
  {
    if i == |hist| then (true, true)
    else if hist[i].Legacy? then (false, false)
    else
      var (p, c) := PerpetualScan(hist, i + 1);
      (p && hist[i].checker == Some(Player), c && hist[i].checker == Some(Cpu))
  }

  /** `checkRepetition()` with the current hash h. */
  function CheckRepetition(hist: seq<Entry>, h: string): Repetition
  {
    if CountSame(hist, h) < 4 then Repetition(false, None)
    else
      var indices := SameIndices(hist, h, 0);
      if |indices| >= 4 then
        var (p, c) := PerpetualScan(hist, indices[0]);
        if p then Repetition(true, Some(Player))
        else if c then Repetition(true, Some(Cpu))
        else Repetition(true, None)
      else Repetition(true, None)
  }

  /** Entry i was recorded while side x kept giving check. */
  predicate CheckedBy(hist: seq<Entry>, i: int, x: Side)
    requires 0 <= i < |hist|
  {
    hist[i].Record? && hist[i].checker == Some(x)
  }

  lemma {:induction false} PerpetualScanIff(hist: seq<Entry>, i: nat)
    requires i <= |hist|
    ensures PerpetualScan(hist, i).0 <==> forall k :: i <= k < |hist| ==> CheckedBy(hist, k, Player)
    ensures PerpetualScan(hist, i).1 <==> forall k :: i <= k < |hist| ==> CheckedBy(hist, k, Cpu)
    decreases |hist| - i
  {
    if i < |hist| {
      if hist[i].Record? {
        PerpetualScanIff(hist, i + 1);
        ScanStep(hist, i, Player);
        ScanStep(hist, i, Cpu);
      } else {
        assert !CheckedBy(hist, i, Player) && !CheckedBy(hist, i, Cpu);
      }
    }
  }

  lemma ScanStep(hist: seq<Entry>, i: nat, x: Side)
    requires i < |hist|
    requires (forall k :: i + 1 <= k < |hist| ==> CheckedBy(hist, k, x))
      <==> (if x == Player then PerpetualScan(hist, i + 1).0 else PerpetualScan(hist, i + 1).1)
    ensures (forall k :: i <= k < |hist| ==> CheckedBy(hist, k, x))
      <==> (if x == Player then PerpetualScan(hist, i).0 else PerpetualScan(hist, i).1)
  {
    if forall k :: i <= k < |hist| ==> CheckedBy(hist, k, x) {
      assert CheckedBy(hist, i, x);
    }
  }

  lemma {:induction false} CountSameIndices(hist: seq<Entry>, h: string)
    ensures CountSame(hist, h) == |SameIndices(hist, h, 0)|
    decreases |hist|
  {
    if |hist| > 0 {
      var pre := hist[..|hist| - 1];
      CountSameIndices(pre, h);
      IndicesPrefix(hist, h, 0);
    }
  }

  /** Dropping the last entry drops at most its own index from the list. */
  lemma {:induction false} IndicesPrefix(hist: seq<Entry>, h: string, i: nat)
    requires |hist| > 0 && i <= |hist| - 1
    ensures SameIndices(hist, h, i)
      == SameIndices(hist[..|hist| - 1], h, i) + (if hist[|hist| - 1].hash == h then [|hist| - 1] else [])
    decreases |hist| - i
  {
    var pre := hist[..|hist| - 1];
    var t: seq<nat> := if hist[|hist| - 1].hash == h then [|hist| - 1] else [];
    if i < |hist| - 1 {
      IndicesPrefix(hist, h, i + 1);
      assert pre[i] == hist[i];
      var x: seq<nat> := if hist[i].hash == h then [i] else [];
      assert SameIndices(hist, h, i) == x + SameIndices(hist, h, i + 1);
      assert SameIndices(pre, h, i) == x + SameIndices(pre, h, i + 1);
      assert x + (SameIndices(pre, h, i + 1) + t) == (x + SameIndices(pre, h, i + 1)) + t;
    } else {
      assert SameIndices(hist, h, i) == t + [];
    }
  }

  /** The first entry with hash h, when there is one. */
  lemma {:induction false} FirstSame(hist: seq<Entry>, h: string, i: nat)
    requires i <= |hist| && |SameIndices(hist, h, i)| > 0
    ensures var f := SameIndices(hist, h, i)[0];
      forall k :: i <= k < f ==> hist[k].hash != h
    decreases |hist| - i
  {
    if hist[i].hash != h {
      FirstSame(hist, h, i + 1);
    }
  }

  /**
   * `checkRepetition` reports a repetition exactly when at least four
   * entries carry the current hash. It names side x as the perpetual checker
   * exactly when, in addition, every entry from the first of them to the end
   * of the history is a record whose checker is x; otherwise (a legacy entry,
   * a null checker, a mix) there is no perpetual checker.
   */
  lemma CheckRepetitionIff(hist: seq<Entry>, h: string, x: Side)
    ensures CheckRepetition(hist, h).isRepetition <==> CountSame(hist, h) >= 4
    ensures CheckRepetition(hist, h).perpetualChecker == Some(x) <==>
      CountSame(hist, h) >= 4 &&
      exists f :: 0 <= f < |hist| && hist[f].hash == h && (forall k :: 0 <= k < f ==> hist[k].hash != h)
        && forall k :: f <= k < |hist| ==> CheckedBy(hist, k, x)
  {
    CountSameIndices(hist, h);
    var ind := SameIndices(hist, h, 0);
    if |ind| >= 4 {
      var f := ind[0];
      PerpetualScanIff(hist, f);
      FirstSame(hist, h, 0);
      forall f' | 0 <= f' < |hist| && hist[f'].hash == h && (forall k :: 0 <= k < f' ==> hist[k].hash != h)
        ensures f' == f
      {
      }
      assert !(CheckedBy(hist, f, Player) && CheckedBy(hist, f, Cpu));
      if CheckRepetition(hist, h).perpetualChecker == Some(x) {
        assert hist[f].hash == h;
      }
    }
  }
}
