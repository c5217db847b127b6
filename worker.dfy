/**
 * The text side of the YaneuraOu worker: `parseInfoLine`, which reads the
 * search information of a USI `info` line, and the rule by which a
 * `bestmove` line gives the engine's move.
 */
module Worker {
  import opened Wrappers
  import opened JsText

  /**
   * The object `parseInfoLine` builds; a field is `None` while it is
   * unset (JavaScript `undefined`). Numbers are what `parseInt` gives,
   * NaN included.
   */
  datatype Info = Info(depth: Option<Num>, score: Option<Num>, nodes: Option<Num>, nps: Option<Num>, pv: Option<seq<string>>)

  const NoInfo := Info(None, None, None, None, None)

  /** A mate score: 30000 − N for a mate in N > 0, −30000 − N otherwise; NaN stays NaN. */
  function MateScore(mateIn: Num): (r: Num)
    ensures mateIn.NaN? <==> r.NaN?
  {
    match mateIn
    case NaN => NaN
    case Int(m) => Int(if m > 0 then 30000 - m else -30000 - m)
  }

  /** The token after index i, when there is one. */
  predicate NextIs(parts: seq<string>, i: nat, word: string)
  {
    i + 1 < |parts| && parts[i + 1] == word
  }

  /**
   * One turn of the `for` loop of `parseInfoLine` at token i: the next
   * index the loop goes on from, and the object after the `switch`.
   */
  function InfoStep(parts: seq<string>, i: nat, info: Info): (r: (nat, Info))
    requires i < |parts|
    ensures i < r.0 <= |parts| + 1
  {
    var t := parts[i];
    if t == "depth" then (i + 2, info.(depth := Some(ParseIntAt(parts, i + 1))))
    else if t == "score" then
      if NextIs(parts, i, "cp") then (i + 3, info.(score := Some(ParseIntAt(parts, i + 2))))
      else if NextIs(parts, i, "mate") then (i + 3, info.(score := Some(MateScore(ParseIntAt(parts, i + 2)))))
      else (i + 1, info)
    else if t == "nodes" then (i + 2, info.(nodes := Some(ParseIntAt(parts, i + 1))))
    else if t == "nps" then (i + 2, info.(nps := Some(ParseIntAt(parts, i + 1))))
    else if t == "pv" then (|parts| + 1, info.(pv := Some(parts[i + 1..])))
    else (i + 1, info)
  }

  /** The loop of `parseInfoLine` from token i on. */
  function ParseInfoFrom(parts: seq<string>, i: nat, info: Info): Info
    decreases |parts| + 1 - i
  {
    if i >= |parts| then info
    else
      var (j, next) := InfoStep(parts, i, info);
      ParseInfoFrom(parts, j, next)
  }

  /** `parseInfoLine(line)`: tokens split on single spaces, the first (`info`) skipped. */
  function InfoOf(line: string): Info
  {
    ParseInfoFrom(Split(line, ' '), 1, NoInfo)
  }

  /** `parseInfoLine`: the `for` loop whose index the `switch` also advances. */
  method ParseInfoLine(line: string) returns (result: Info)
    ensures result == InfoOf(line)
  {
    var parts := Split(line, ' ');
    result := NoInfo;
    var i: nat := 1;
    while i < |parts|
      invariant ParseInfoFrom(parts, i, result) == InfoOf(line)
      decreases |parts| + 1 - i
    {
      i, result := InfoCase(parts, i, result);
    }
  }

  /** The `switch` of `parseInfoLine` on token i, followed by the loop's `i++`. */
  method InfoCase(parts: seq<string>, i0: nat, info: Info) returns (i: nat, result: Info)
    requires i0 < |parts|
    ensures (i, result) == InfoStep(parts, i0, info)
  {
    i := i0;
    result := info;
    var token := parts[i];
    if token == "depth" {
      i := i + 1;
      result := result.(depth := Some(ParseIntAt(parts, i)));
    } else if token == "score" {
      if i + 1 < |parts| && parts[i + 1] == "cp" {
        result := result.(score := Some(ParseIntAt(parts, i + 2)));
        i := i + 2;
      } else if i + 1 < |parts| && parts[i + 1] == "mate" {
        var mateIn := ParseIntAt(parts, i + 2);
        result := result.(score := Some(MateScore(mateIn)));
        i := i + 2;
      }
    } else if token == "nodes" {
      i := i + 1;
      result := result.(nodes := Some(ParseIntAt(parts, i)));
    } else if token == "nps" {
      i := i + 1;
      result := result.(nps := Some(ParseIntAt(parts, i)));
    } else if token == "pv" {
      result := result.(pv := Some(parts[i + 1..]));
      i := |parts|;
    }
    i := i + 1;
  }

  /** ======== Properties of `parseInfoLine` ======== */

  /** The words `parseInfoLine` acts on. */
  predicate Keyword(t: string)
  {
    t == "depth" || t == "score" || t == "nodes" || t == "nps" || t == "pv"
  }

  /** A token that is not a keyword is passed over: parsing goes on at the next one. */
  lemma OtherTokenSkipped(parts: seq<string>, i: nat, info: Info)
    requires i < |parts| && !Keyword(parts[i])
    ensures ParseInfoFrom(parts, i, info) == ParseInfoFrom(parts, i + 1, info)
  {
  }

  /** `score` followed by neither `cp` nor `mate` sets nothing, and the next token is read as a token of its own. */
  lemma BareScoreSkipped(parts: seq<string>, i: nat, info: Info)
    requires i < |parts| && parts[i] == "score" && !NextIs(parts, i, "cp") && !NextIs(parts, i, "mate")
    ensures ParseInfoFrom(parts, i, info) == ParseInfoFrom(parts, i + 1, info)
  {
  }

  /** `pv` takes every remaining token and ends the parse: nothing after it changes any other field. */
  lemma PvEndsParse(parts: seq<string>, i: nat, info: Info)
    requires i < |parts| && parts[i] == "pv"
    ensures ParseInfoFrom(parts, i, info) == info.(pv := Some(parts[i + 1..]))
  {
  }

  /** A score as an engine reports it: in centipawns, or as a mate in N plies (negative when being mated). */
  datatype Score = Cp(value: int) | Mate(plies: int)

  /** The number `parseInfoLine` stores for a reported score. */
  function ScoreValue(s: Score): int
  {
    match s
    case Cp(v) => v
    case Mate(m) => if m > 0 then 30000 - m else -30000 - m
  }

  /** Between two wins, the quicker mate has the higher score; every win scores above every loss. */
  lemma MateScoresOrdered(m1: int, m2: int)
    requires 0 < m1 < 30000 && -30000 < m2 < 30000 && m1 != m2
    ensures (0 < m2 ==> (m1 < m2 <==> ScoreValue(Mate(m1)) > ScoreValue(Mate(m2))))
    ensures m2 <= 0 ==> ScoreValue(Mate(m1)) > 0 >= ScoreValue(Mate(m2)) + 1
  {
  }

  /** The tokens of an `info` line in the order YaneuraOu writes them. */
  function InfoTokens(depth: int, selDepth: int, score: Score, nodes: nat, nps: nat, time: nat, pv: seq<string>): seq<string>
  {
    ["info", "depth", IntToString(depth), "seldepth", IntToString(selDepth), "score",
     if score.Cp? then "cp" else "mate", IntToString(if score.Cp? then score.value else score.plies),
     "nodes", IntToString(nodes), "nps", IntToString(nps), "time", IntToString(time), "pv"] + pv
  }

  /** An `info` line as the engine sends it. */
  function InfoLine(depth: int, selDepth: int, score: Score, nodes: nat, nps: nat, time: nat, pv: seq<string>): string
  {
    Join(InfoTokens(depth, selDepth, score, nodes, nps, time, pv), ' ')
  }

  /** A number's text is no keyword, and has no space. */
  lemma NumberToken(n: int)
    ensures !Keyword(IntToString(n)) && ' ' !in IntToString(n)
    ensures IntToString(n) != "cp" && IntToString(n) != "mate"
  {
    var m := if n < 0 then -n else n;
    var d := NatToString(m);
    var t := IntToString(n);
    assert t[0] == '-' || IsDigit(t[0]);
    if n < 0 {
      assert t == "-" + d;
      assert forall j :: 0 <= j < |t| ==> t[j] == '-' || IsDigit(t[j]);
    }
    assert forall j :: 0 <= j < |t| ==> t[j] != ' ';
  }

  /** Every token of an engine's `info` line is free of spaces. */
  lemma InfoTokensSplit(depth: int, selDepth: int, score: Score, nodes: nat, nps: nat, time: nat, pv: seq<string>)
    requires forall k :: 0 <= k < |pv| ==> ' ' !in pv[k]
    ensures Split(InfoLine(depth, selDepth, score, nodes, nps, time, pv), ' ') == InfoTokens(depth, selDepth, score, nodes, nps, time, pv)
  {
    var parts := InfoTokens(depth, selDepth, score, nodes, nps, time, pv);
    NumberToken(depth);
    NumberToken(selDepth);
    NumberToken(if score.Cp? then score.value else score.plies);
    NumberToken(nodes);
    NumberToken(nps);
    NumberToken(time);
    assert forall k :: 15 <= k < |parts| ==> parts[k] == pv[k - 15];
    JoinSplit(parts, ' ');
  }

  /** The walk of `parseInfoLine` over the tokens of such a line. */
  lemma InfoTokensParse(parts: seq<string>, d: string, sd: string, kind: string, v: string, n: string, nps: string, t: string, pv: seq<string>)
    requires |parts| == 15 + |pv| && parts[15..] == pv
    requires parts[1] == "depth" && parts[2] == d && parts[3] == "seldepth" && parts[4] == sd
    requires parts[5] == "score" && parts[6] == kind && (kind == "cp" || kind == "mate") && parts[7] == v
    requires parts[8] == "nodes" && parts[9] == n && parts[10] == "nps" && parts[11] == nps
    requires parts[12] == "time" && parts[13] == t && parts[14] == "pv"
    requires !Keyword(sd) && !Keyword(t)
    ensures ParseInfoFrom(parts, 1, NoInfo)
            == Info(Some(ParseInt(d)), Some(if kind == "cp" then ParseInt(v) else MateScore(ParseInt(v))),
                    Some(ParseInt(n)), Some(ParseInt(nps)), Some(pv))
  {
    var i1 := Info(Some(ParseInt(d)), None, None, None, None);
    var i2 := i1.(score := Some(if kind == "cp" then ParseInt(v) else MateScore(ParseInt(v))));
    var i3 := i2.(nodes := Some(ParseInt(n)));
    var i4 := i3.(nps := Some(ParseInt(nps)));
    calc {
      ParseInfoFrom(parts, 1, NoInfo);
      ParseInfoFrom(parts, 3, i1);
      { OtherTokenSkipped(parts, 3, i1); }
      ParseInfoFrom(parts, 4, i1);
      { OtherTokenSkipped(parts, 4, i1); }
      ParseInfoFrom(parts, 5, i1);
      ParseInfoFrom(parts, 8, i2);
      ParseInfoFrom(parts, 10, i3);
      ParseInfoFrom(parts, 12, i4);
      { OtherTokenSkipped(parts, 12, i4); }
      ParseInfoFrom(parts, 13, i4);
      { OtherTokenSkipped(parts, 13, i4); }
      ParseInfoFrom(parts, 14, i4);
      { PvEndsParse(parts, 14, i4); }
      i4.(pv := Some(pv));
    }
  }

  /** Where each field sits among the tokens. */
  lemma InfoTokensAt(depth: int, selDepth: int, score: Score, nodes: nat, nps: nat, time: nat, pv: seq<string>)
    ensures var parts := InfoTokens(depth, selDepth, score, nodes, nps, time, pv);
      |parts| == 15 + |pv| && parts[15..] == pv
      && parts[1] == "depth" && parts[2] == IntToString(depth) && parts[3] == "seldepth" && parts[4] == IntToString(selDepth)
      && parts[5] == "score" && parts[6] == (if score.Cp? then "cp" else "mate")
      && parts[7] == IntToString(if score.Cp? then score.value else score.plies)
      && parts[8] == "nodes" && parts[9] == IntToString(nodes) && parts[10] == "nps" && parts[11] == IntToString(nps)
      && parts[12] == "time" && parts[13] == IntToString(time) && parts[14] == "pv"
  {
  }

  /** The walk of `parseInfoLine` over the tokens of an engine's `info` line. */
  lemma InfoTokensWalk(depth: int, selDepth: int, score: Score, nodes: nat, nps: nat, time: nat, pv: seq<string>)
    ensures var v := if score.Cp? then score.value else score.plies;
      ParseInfoFrom(InfoTokens(depth, selDepth, score, nodes, nps, time, pv), 1, NoInfo)
      == Info(Some(ParseInt(IntToString(depth))),
              Some(if score.Cp? then ParseInt(IntToString(v)) else MateScore(ParseInt(IntToString(v)))),
              Some(ParseInt(IntToString(nodes))), Some(ParseInt(IntToString(nps))), Some(pv))
  {
    var parts := InfoTokens(depth, selDepth, score, nodes, nps, time, pv);
    InfoTokensAt(depth, selDepth, score, nodes, nps, time, pv);
    NumberToken(selDepth);
    NumberToken(time);
    var v := if score.Cp? then score.value else score.plies;
    InfoTokensParse(parts, IntToString(depth), IntToString(selDepth), if score.Cp? then "cp" else "mate", IntToString(v),
                    IntToString(nodes), IntToString(nps), IntToString(time), pv);
  }

  /** The numbers of the line read back by `parseInt`. */
  lemma InfoNumbers(depth: int, score: Score, nodes: nat, nps: nat, pv: seq<string>)
    ensures var v := if score.Cp? then score.value else score.plies;
      Info(Some(ParseInt(IntToString(depth))),
           Some(if score.Cp? then ParseInt(IntToString(v)) else MateScore(ParseInt(IntToString(v)))),
           Some(ParseInt(IntToString(nodes))), Some(ParseInt(IntToString(nps))), Some(pv))
      == Info(Some(Int(depth)), Some(Int(ScoreValue(score))), Some(Int(nodes)), Some(Int(nps)), Some(pv))
  {
    var v := if score.Cp? then score.value else score.plies;
    IntToStringParse(depth);
    IntToStringParse(v);
    IntToStringParse(nodes);
    IntToStringParse(nps);
    assert (if score.Cp? then ParseInt(IntToString(v)) else MateScore(ParseInt(IntToString(v)))) == Int(ScoreValue(score));
  }

  /**
   * `parseInfoLine` reads back every field of an engine's `info` line:
   * depth, score (mate scores mapped to ±30000 − N), nodes, nps and the
   * principal variation; `seldepth` and `time` and their values are skipped.
   */
  lemma InfoRoundTrip(depth: int, selDepth: int, score: Score, nodes: nat, nps: nat, time: nat, pv: seq<string>)
    requires forall k :: 0 <= k < |pv| ==> ' ' !in pv[k]
    ensures InfoOf(InfoLine(depth, selDepth, score, nodes, nps, time, pv))
            == Info(Some(Int(depth)), Some(Int(ScoreValue(score))), Some(Int(nodes)), Some(Int(nps)), Some(pv))
  {
    InfoTokensSplit(depth, selDepth, score, nodes, nps, time, pv);
    InfoTokensWalk(depth, selDepth, score, nodes, nps, time, pv);
    InfoNumbers(depth, score, nodes, nps, pv);
  }

  /** ======== The `bestmove` line ======== */

  /** The `move` a `bestmove` line resolves with: null, `undefined` (no second token) or the token. */
  datatype Bestmove = NullMove | MoveUndefined | MoveText(text: string)

  predicate StartsWith(s: string, prefix: string)
  {
    |prefix| <= |s| && s[..|prefix|] == prefix
  }

  /**
   * The `bestmove` rule of `waitForBestmove`: a trimmed line starting with
   * `bestmove` is split on spaces; its second token `resign`, `win` or
   * `none` means no move, otherwise the token is the move. Other lines give
   * nothing.
   */
  function BestmoveOf(line: string): Option<Bestmove>
  {
    var trimmed := Trim(line);
    if !StartsWith(trimmed, "bestmove") then None
    else
      var parts := Split(trimmed, ' ');
      if |parts| < 2 then Some(MoveUndefined)
      else
        var move := parts[1];
        if move == "resign" || move == "win" || move == "none" then Some(NullMove)
        else Some(MoveText(move))
  }

  /** Splitting at the first separator. */
  lemma SplitFirst(a: string, b: string, sep: char)
    requires sep !in a
    ensures Split(a + [sep] + b, sep) == [a] + Split(b, sep)
  {
    IndexOfPrefix(a, b, sep);
    var s := a + [sep] + b;
    assert s[..|a|] == a;
    assert s[|a| + 1..] == b;
  }

  /** A reply with no leading or trailing white space is left alone by `trim`. */
  lemma ReplyTrimmed(m: string, rest: string)
    requires |m| > 0
    requires |rest| == 0 || (rest[0] == ' ' && !IsSpace(rest[|rest| - 1]))
    requires !IsSpace(m[|m| - 1])
    ensures Trim("bestmove " + m + rest) == "bestmove " + m + rest
  {
    var line := "bestmove " + m + rest;
    assert !IsSpace(line[0]);
    if |rest| == 0 {
      assert line[|line| - 1] == m[|m| - 1];
    } else {
      assert line[|line| - 1] == rest[|rest| - 1];
    }
    assert TrimStart(line) == line;
    assert TrimEnd(line) == line;
  }

  /** The second token of such a reply is M. */
  lemma ReplyTokens(m: string, rest: string)
    requires ' ' !in m
    requires |rest| == 0 || rest[0] == ' '
    ensures |Split("bestmove " + m + rest, ' ')| >= 2 && Split("bestmove " + m + rest, ' ')[1] == m
  {
    assert "bestmove " + m + rest == "bestmove" + [' '] + (m + rest);
    SplitFirst("bestmove", m + rest, ' ');
    if |rest| == 0 {
      assert m + rest == m;
      assert Split(m, ' ') == [m];
    } else {
      assert m + rest == m + [' '] + rest[1..];
      SplitFirst(m, rest[1..], ' ');
    }
  }

  /**
   * A reply `bestmove M` or `bestmove M ponder P` gives no move for M =
   * `resign`, `win` or `none`, and the move M otherwise.
   */
  lemma BestmoveReply(m: string, rest: string)
    requires |m| > 0 && NoSpace(m)
    requires |rest| == 0 || (rest[0] == ' ' && !IsSpace(rest[|rest| - 1]))
    ensures BestmoveOf("bestmove " + m + rest)
            == Some(if m == "resign" || m == "win" || m == "none" then NullMove else MoveText(m))
  {
    var line := "bestmove " + m + rest;
    ReplyTrimmed(m, rest);
    assert line[..8] == "bestmove";
    assert ' ' !in m by {
      assert forall j :: 0 <= j < |m| ==> m[j] != ' ';
    }
    ReplyTokens(m, rest);
  }
}
