/**
 * `BuiltinEngine`: the built-in engine behind the engine interface. Its
 * options become a difficulty; its search runs the game object's own
 * operations (legal moves, ordering, virtual moves, minimax) and shapes the
 * answer as a USI move with a score.
 */
module Engine {
  import opened Wrappers
  import opened Pieces
  import opened Board
  import opened Rules
  import opened Search
  import opened Game
  import Usi

  // ---------------------------------------------------------------------
  // Options
  // ---------------------------------------------------------------------

  /** The options object: `difficulty` and `depth`, each possibly undefined. */
  datatype Options = Options(difficulty: Option<string>, depth: Option<int>)

  /** A string option counts as given when it is present and not empty. */
  predicate Given(s: Option<string>)
  {
    s.Some? && s.value != ""
  }

  /** `options.depth || 4`: an undefined depth and a depth of 0 both become 4. */
  function DepthOf(o: Options): int
  {
    if o.depth.Some? && o.depth.value != 0 then o.depth.value else 4
  }

  /** How strong a difficulty name is: easy, medium, then hard and anything else. */
  function Rank(difficulty: string): nat
  {
    if difficulty == "easy" then 0 else if difficulty == "medium" then 1 else 2
  }

  /**
   * `_optionsToDifficulty(options)`: a given difficulty is returned as it
   * is; otherwise the depth decides, easy up to 1, medium up to 3, and hard
   * beyond.
   */
  function OptionsToDifficulty(o: Options): (r: string)
    ensures Given(o.difficulty) ==> r == o.difficulty.value
    ensures !Given(o.difficulty) ==>
      (r == "easy" <==> DepthOf(o) <= 1) && (r == "medium" <==> 1 < DepthOf(o) <= 3)
      && (r == "hard" <==> 3 < DepthOf(o))
  {
    if Given(o.difficulty) then o.difficulty.value
    else
      var depth := DepthOf(o);
      if depth <= 1 then "easy"
      else if depth <= 3 then "medium"
      else "hard"
  }

  /** A deeper search never gives a weaker difficulty. */
  lemma DifficultyMonotone(d1: int, d2: int)
    requires d1 != 0 && d2 != 0 && d1 <= d2
    ensures Rank(OptionsToDifficulty(Options(None, Some(d1)))) <= Rank(OptionsToDifficulty(Options(None, Some(d2))))
  {
  }

  /**
   * The properties every object literal inherits from `Object.prototype`:
   * `presets[strength]` finds one of these, not a preset, when the name is
   * one of them.
   */
  const PrototypeNames: set<string> :=
    {"constructor", "hasOwnProperty", "isPrototypeOf", "propertyIsEnumerable", "toLocaleString", "toString",
     "valueOf", "__proto__", "__defineGetter__", "__defineSetter__", "__lookupGetter__", "__lookupSetter__"}

  /**
   * `strengthToOptions(strength)`: the four presets, and the intermediate
   * one for any other name. A name inherited from `Object.prototype` gives
   * the inherited member (a function, or the prototype itself), which is
   * no options object: None here.
   */
  function StrengthToOptions(strength: string): (r: Option<Options>)
    ensures r.None? <==> strength in PrototypeNames
    ensures r.Some? ==> Given(r.value.difficulty) && r.value.depth.Some? && r.value.depth.value > 0
    ensures strength !in {"beginner", "advanced", "expert"} && strength !in PrototypeNames ==>
      r == Some(Options(Some("medium"), Some(2)))
  {
    if strength == "beginner" then Some(Options(Some("easy"), Some(1)))
    else if strength == "intermediate" then Some(Options(Some("medium"), Some(2)))
    else if strength == "advanced" then Some(Options(Some("hard"), Some(4)))
    else if strength == "expert" then Some(Options(Some("hard"), Some(5)))
    else if strength in PrototypeNames then None
    else Some(Options(Some("medium"), Some(2)))
  }

  /**
   * Every preset is consistent: its difficulty is the one its depth alone
   * would give.
   */
  lemma PresetsAgree(strength: string)
    ensures var r := StrengthToOptions(strength);
      r.Some? ==>
        OptionsToDifficulty(r.value) == r.value.difficulty.value
        && OptionsToDifficulty(Options(None, r.value.depth)) == r.value.difficulty.value
  {
  }

  /** The difficulty `getBestMove` searches at: `options.difficulty || this._optionsToDifficulty(options)`. */
  function Difficulty(o: Options): string
  {
    if Given(o.difficulty) then o.difficulty.value else OptionsToDifficulty(o)
  }

  // ---------------------------------------------------------------------
  // The answer of _searchBestMove
  // ---------------------------------------------------------------------

  /** `{ move, score, internalMove, aborted }`; an absent field is None (or false). */
  datatype BestMove = BestMove(move: Option<string>, score: Score, internalMove: Option<Move>, aborted: bool)

  /** The move object `MoveConverter.toUsi` receives for a legal move: no promotion flag, a drop's kind in `piece`. */
  function MoveInOf(m: Move): Usi.MoveIn
  {
    match m
    case BoardMove(fr, fc, tr, tc, _) => Usi.BoardIn(fr, fc, tr, tc, false)
    case DropMove(t, r, c, _) => Usi.DropIn(Some(t), None, r, c)
  }

  /** The answer for the selected move: its USI text, the score and the move itself, or the error `toUsi` throws. */
  function Shaped(selected: Move, score: Score): Result<BestMove>
  {
    match Usi.ToUsi(MoveInOf(selected))
    case Ok(usi) => Ok(BestMove(Some(usi), score, Some(selected), false))
    case Err(e) => Err(e)
  }

  /** What `_searchBestMove` leaves: the answer, the position (pools possibly permuted) and the table. */
  datatype Searched = Searched(result: Result<BestMove>, state: State, table: TTable)

  /**
   * `_searchBestMove(difficulty)` on position st with table tt: no legal
   * move gives `{ move: null, score: -Infinity }`; "easy" and "medium" pick
   * at random with score 0; any other difficulty runs `_minimaxSearch`,
   * falling back to the first legal move when it chose none.
   */
  function SearchBestSpec(st: State, tt: TTable, difficulty: string, aborted: bool, pick: nat, preferCapture: bool)
    : (s: Searched)
    ensures var legal := AllLegalMoves(st.board, st.pp, st.cp, Cpu);
      (|legal| == 0 ==> s == Searched(Ok(BestMove(None, NegInf, None, false)), st, tt))
      && (|legal| > 0 && s.result.Ok? ==>
            s.result.value.internalMove.Some? && s.result.value.internalMove.value in legal
            && !s.result.value.aborted
            && s.result.value.move.Some? && Usi.ToUsi(MoveInOf(s.result.value.internalMove.value)) == Ok(s.result.value.move.value))
      && (s.result.Err? ==> exists m :: m in legal && m.DropMove? && !Usi.IsHandKind(m.kind))
      && s.state.board == st.board && multiset(s.state.pp) == multiset(st.pp) && multiset(s.state.cp) == multiset(st.cp)
  {
    var legal := AllLegalMoves(st.board, st.pp, st.cp, Cpu);
    if |legal| == 0 then Searched(Ok(BestMove(None, NegInf, None, false)), st, tt)
    else if difficulty == "easy" || difficulty == "medium" then
      var selected := RandomPick(st.board, legal, difficulty == "medium", pick, preferCapture);
      ShapedError(selected, Fin(0));
      Searched(Shaped(selected, Fin(0)), st, tt)
    else HardAnswer(st, tt, aborted)
  }

  /** The answer of `_searchBestMove` at a difficulty that searches: `_minimaxSearch`, or the first legal move if it chose none. */
  function HardAnswer(st: State, tt: TTable, aborted: bool): (s: Searched)
    requires |AllLegalMoves(st.board, st.pp, st.cp, Cpu)| > 0
    ensures var legal := AllLegalMoves(st.board, st.pp, st.cp, Cpu);
      (s.result.Ok? ==>
         s.result.value.internalMove.Some? && s.result.value.internalMove.value in legal
         && !s.result.value.aborted
         && s.result.value.move.Some? && Usi.ToUsi(MoveInOf(s.result.value.internalMove.value)) == Ok(s.result.value.move.value))
      && (s.result.Err? ==> exists m :: m in legal && m.DropMove? && !Usi.IsHandKind(m.kind))
      && s.state.board == st.board && multiset(s.state.pp) == multiset(st.pp) && multiset(s.state.cp) == multiset(st.cp)
  {
    var legal := AllLegalMoves(st.board, st.pp, st.cp, Cpu);
    var moves := NodeMoves(st, true);
    NodeMovesLegal(st, true);
    var r := MinimaxSearchSpec(st, tt, moves, aborted);
    BestFromKeeps(st, tt, moves, aborted);
    var selected := if r.move.Some? then r.move.value else legal[0];
    ShapedError(selected, r.score);
    Searched(Shaped(selected, r.score), r.state, r.table)
  }


  /** `toUsi` fails only on a drop of a kind with no USI letter. */
  lemma ShapedError(selected: Move, score: Score)
    ensures Shaped(selected, score).Err? ==> selected.DropMove? && !Usi.IsHandKind(selected.kind)
  {
    if selected.DropMove? {
      Usi.DropErrorIff(MoveInOf(selected));
    }
  }

  /**
   * The USI text of an answer reads back, with `fromUsi`, as a move that
   * `validateMove` accepts against the computer's legal moves: the answer
   * can be played by `executeAIMove`.
   */
  lemma AnswerPlayable(st: State, tt: TTable, difficulty: string, aborted: bool, pick: nat, preferCapture: bool)
    ensures var s := SearchBestSpec(st, tt, difficulty, aborted, pick, preferCapture);
      var legal := AllLegalMoves(st.board, st.pp, st.cp, Cpu);
      s.result.Ok? && s.result.value.move.Some? ==>
        var parsed := Usi.FromUsi(s.result.value.move.value, Cpu);
        parsed.Ok? && MatchesEntry(parsed.value, s.result.value.internalMove.value)
        && ValidateMove(parsed.value, legal)
  {
    var s := SearchBestSpec(st, tt, difficulty, aborted, pick, preferCapture);
    var legal := AllLegalMoves(st.board, st.pp, st.cp, Cpu);
    if s.result.Ok? && s.result.value.move.Some? {
      var m := s.result.value.internalMove.value;
      AllLegalMovesWellFormed(st.board, st.pp, st.cp, Cpu);
      assert WellFormed(st.board, PoolOf(st.pp, st.cp, Cpu), Cpu, m);
      var parsed := Usi.FromUsi(s.result.value.move.value, Cpu);
      match m {
        case BoardMove(fr, fc, tr, tc, _) =>
          Usi.BoardMoveRoundTrip(MoveInOf(m), Cpu);
        case DropMove(t, r, c, _) =>
          Usi.DropErrorIff(MoveInOf(m));
          Usi.DropRoundTrip(t, None, r, c, Cpu);
      }
      var i :| 0 <= i < |legal| && legal[i] == m;
      assert MatchesEntry(parsed.value, legal[i]);
    }
  }

  /**
   * At a difficulty other than "easy" and "medium", with the search not
   * stopped and a table of numbers, the answer's move is the first of the
   * ordered legal moves with the largest score, and the score is that score.
   */
  lemma HardAnswerFirstBest(st: State, tt: TTable, difficulty: string, pick: nat, preferCapture: bool)
    requires difficulty != "easy" && difficulty != "medium" && GoodTable(tt)
    requires |AllLegalMoves(st.board, st.pp, st.cp, Cpu)| > 0
    ensures var s := SearchBestSpec(st, tt, difficulty, false, pick, preferCapture);
      var r := MinimaxSearchSpec(st, tt, NodeMoves(st, true), false);
      var moves := NodeMoves(st, true);
      |moves| > 0 && |r.scores| == |moves|
      && (s.result.Ok? ==>
            s.result.value.internalMove == Some(moves[FirstMax(r.scores)])
            && s.result.value.score == r.scores[FirstMax(r.scores)]
            && forall j :: 0 <= j < |moves| ==> Le(r.scores[j], s.result.value.score))
  {
    var moves := NodeMoves(st, true);
    NodeMovesLegal(st, true);
    MinimaxSearchFirstBest(st, tt, moves, false);
  }

  // ---------------------------------------------------------------------
  // The engine object
  // ---------------------------------------------------------------------

  class BuiltinEngine {
    var game: ShogiGame
    var searchAborted: bool
    var ready: bool

    /** `new BuiltinEngine(game)`: not ready, not stopped. */
    constructor(game: ShogiGame)
      ensures this.game == game && !searchAborted && !ready
    {
      this.game := game;
      searchAborted := false;
      ready := false;
    }

    /** `initialize()`: the built-in engine is ready at once. */
    method Initialize()
      modifies this`ready
      ensures ready
    {
      ready := true;
    }

    /** `stop()`: the running search examines no further move. */
    method Stop()
      modifies this`searchAborted
      ensures searchAborted
    {
      searchAborted := true;
    }

    /** `dispose()`: stopped and no longer ready. */
    method Dispose()
      modifies this`searchAborted, this`ready
      ensures searchAborted && !ready
    {
      searchAborted := true;
      ready := false;
    }

    /** `updateGame(game)`. */
    method UpdateGame(game: ShogiGame)
      modifies this`game
      ensures this.game == game
    {
      this.game := game;
    }

    /**
     * `getBestMove(sfen, options)` (the position text is not used): an
     * engine that is not ready throws; otherwise the stop flag is cleared
     * and `_searchBestMove` runs at the difficulty the options give.
     */
    method GetBestMove(options: Options, pick: nat, preferCapture: bool) returns (r: Result<BestMove>)
      requires game.Valid()
      modifies this`searchAborted, game.board, game`playerCaptured, game`cpuCaptured, game`transpositionTable
      ensures !old(ready) ==>
        r == Err("Engine is not ready") && game.Position() == old(game.Position())
        && game.transpositionTable == old(game.transpositionTable) && searchAborted == old(searchAborted)
      ensures old(ready) ==> !searchAborted
      ensures old(ready) ==>
        var s := SearchBestSpec(old(game.Position()), old(game.transpositionTable), Difficulty(options), false,
                                pick, preferCapture);
        r == s.result && game.Position() == s.state && game.transpositionTable == s.table
    {
      if !ready {
        return Err("Engine is not ready");
      }
      searchAborted := false;
      var difficulty := if Given(options.difficulty) then options.difficulty.value else OptionsToDifficulty(options);
      r := SearchBestMove(difficulty, pick, preferCapture);
    }

    /** `_searchBestMove(difficulty)`. */
    method SearchBestMove(difficulty: string, pick: nat, preferCapture: bool) returns (r: Result<BestMove>)
      requires game.Valid()
      modifies game.board, game`playerCaptured, game`cpuCaptured, game`transpositionTable
      ensures var s := SearchBestSpec(old(game.Position()), old(game.transpositionTable), difficulty, searchAborted,
                                      pick, preferCapture);
        r == s.result && game.Position() == s.state && game.transpositionTable == s.table
    {
      ghost var st := game.Position();
      var legalMoves := game.GetAllLegalMoves(Cpu);
      if |legalMoves| == 0 {
        return Ok(BestMove(None, NegInf, None, false));
      }
      var selectedMove: Option<Move> := None;
      var score := Fin(0);
      if difficulty == "easy" {
        selectedMove := Some(legalMoves[pick % |legalMoves|]);
      } else if difficulty == "medium" {
        var captureMoves := Captures(game.board[..], legalMoves);
        if |captureMoves| > 0 && preferCapture {
          selectedMove := Some(captureMoves[pick % |captureMoves|]);
        } else {
          selectedMove := Some(legalMoves[pick % |legalMoves|]);
        }
      } else {
        selectedMove, score := MinimaxSearch(st, legalMoves);
      }
      var chosen := if selectedMove.None? then legalMoves[0] else selectedMove.value;
      var usiMove := Usi.ToUsi(MoveInOf(chosen));
      if usiMove.Err? {
        return Err(usiMove.msg);
      }
      return Ok(BestMove(Some(usiMove.value), score, Some(chosen), false));
    }

    /**
     * `_minimaxSearch(legalMoves)`: the moves in `orderMoves` order, each
     * applied, searched with `minimax(3, -Infinity, Infinity, false)` and
     * taken back; a strictly higher score replaces the best, and a set stop
     * flag ends the loop.
     */
    method MinimaxSearch(ghost st: State, legalMoves: seq<Move>) returns (bestMove: Option<Move>, bestScore: Score)
      requires game.Valid() && game.Position() == st && legalMoves == AllLegalMoves(st.board, st.pp, st.cp, Cpu)
      modifies game.board, game`playerCaptured, game`cpuCaptured, game`transpositionTable
      ensures var r := MinimaxSearchSpec(st, old(game.transpositionTable), NodeMoves(st, true), searchAborted);
        bestMove == r.move && bestScore == r.score && game.Position() == r.state && game.transpositionTable == r.table
    {
      LegalTargets(st.board, st.pp, st.cp, Cpu);
      var orderedMoves := OrderMoves(game.board[..], legalMoves, Cpu);
      assert orderedMoves == NodeMoves(st, true);
      bestMove, bestScore := ScoreMoves(st, orderedMoves);
    }

    /** The loop of `_minimaxSearch` over the ordered moves. */
    method ScoreMoves(ghost st: State, orderedMoves: seq<Move>) returns (bestMove: Option<Move>, bestScore: Score)
      requires game.Valid() && game.Position() == st && forall m :: m in orderedMoves ==> Reversible(st.board, m)
      modifies game.board, game`playerCaptured, game`cpuCaptured, game`transpositionTable
      ensures var r := MinimaxSearchSpec(st, old(game.transpositionTable), orderedMoves, searchAborted);
        bestMove == r.move && bestScore == r.score && game.Position() == r.state && game.transpositionTable == r.table
    {
      ghost var tt0 := game.transpositionTable;
      bestMove := None;
      bestScore := NegInf;
      ghost var scores: seq<Score> := [];
      ghost var target := MinimaxSearchSpec(st, tt0, orderedMoves, searchAborted);
      for i := 0 to |orderedMoves|
        invariant game.Position().board == st.board
        invariant searchAborted ==> i == 0 && game.Position() == st && game.transpositionTable == tt0
                                    && bestMove.None? && bestScore == NegInf
        invariant !searchAborted ==>
          BestFrom(Shogi, game.Position(), game.transpositionTable, orderedMoves, NegInf, i, bestMove, bestScore, scores) == target
      {
        if searchAborted {
          break;
        }
        var score;
        bestMove, bestScore, score := ScoreMove(game.Position(), game.transpositionTable, orderedMoves, i, bestMove, bestScore,
                                                scores);
        scores := scores + [score];
      }
    }

    /**
     * One pass of that loop: the move is applied, searched with
     * `minimax(3, -Infinity, Infinity, false)` and taken back, and a
     * strictly higher score replaces the best.
     */
    method ScoreMove(ghost cur: State, ghost tt: TTable, moves: seq<Move>, i: nat, best: Option<Move>, bestScore: Score,
                     ghost scores: seq<Score>)
      returns (best': Option<Move>, bestScore': Score, score: Score)
      requires game.Valid() && game.Position() == cur && game.transpositionTable == tt
      requires i < |moves| && forall m :: m in moves ==> Reversible(cur.board, m)
      modifies game.board, game`playerCaptured, game`cpuCaptured, game`transpositionTable
      ensures game.Position().board == cur.board
      ensures BestFrom(Shogi, game.Position(), game.transpositionTable, moves, NegInf, i + 1, best', bestScore', scores + [score])
        == BestFrom(Shogi, cur, tt, moves, NegInf, i, best, bestScore, scores)
    {
      BestFromStep(Shogi, cur, tt, moves, NegInf, i, best, bestScore, scores);
      score := game.RootChild(cur, tt, moves[i], NegInf);
      best', bestScore' := best, bestScore;
      if Lt(bestScore, score) {
        bestScore' := score;
        best' := Some(moves[i]);
      }
    }
  }
}
