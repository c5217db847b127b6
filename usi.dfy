/**
 * `MoveConverter`: internal moves to and from USI move strings ("7g7f",
 * "7g7d+", "P*5e"). USI files run 9..1 from the left, ranks a..i from the
 * top, so internal column 0 is file '9' and internal row 0 is rank 'a'.
 */
module Usi {
  import opened Wrappers
  import opened Pieces
  import opened JsText

  /** `COL_TO_USI`. */
  const ColToUsi: seq<char> := ['9', '8', '7', '6', '5', '4', '3', '2', '1']
  /** `ROW_TO_USI`. */
  const RowToUsi: seq<char> := ['a', 'b', 'c', 'd', 'e', 'f', 'g', 'h', 'i']
  /** `USI_TO_COL`. */
  const UsiToColTable: map<char, nat> :=
    map['9' := 0, '8' := 1, '7' := 2, '6' := 3, '5' := 4, '4' := 5, '3' := 6, '2' := 7, '1' := 8]
  /** `USI_TO_ROW`. */
  const UsiToRowTable: map<char, nat> :=
    map['a' := 0, 'b' := 1, 'c' := 2, 'd' := 3, 'e' := 4, 'f' := 5, 'g' := 6, 'h' := 7, 'i' := 8]
  /** `USI_TO_PIECE`; `PIECE_TO_USI` is its inverse. */
  const UsiToPieceTable: map<char, PieceType> :=
    map['P' := Pawn, 'L' := Lance, 'N' := Knight, 'S' := Silver, 'G' := Gold, 'B' := Bishop, 'R' := Rook]

  function UsiToCol(ch: char): Option<nat>
  {
    if ch in UsiToColTable then Some(UsiToColTable[ch]) else None
  }

  function UsiToRow(ch: char): Option<nat>
  {
    if ch in UsiToRowTable then Some(UsiToRowTable[ch]) else None
  }

  function UsiToPiece(ch: char): Option<PieceType>
  {
    if ch in UsiToPieceTable then Some(UsiToPieceTable[ch]) else None
  }

  /** `PIECE_TO_USI[t]`: defined for the seven kinds that can be dropped. */
  function PieceToUsi(t: PieceType): Option<char>
  {
    match t
    case Pawn => Some('P')
    case Lance => Some('L')
    case Knight => Some('N')
    case Silver => Some('S')
    case Gold => Some('G')
    case Bishop => Some('B')
    case Rook => Some('R')
    case _ => None
  }

  /** The kinds a hand holds: 歩 香 桂 銀 金 角 飛. */
  predicate IsHandKind(t: PieceType)
  {
    t in {Pawn, Lance, Knight, Silver, Gold, Bishop, Rook}
  }

  /** The column tables are mutually inverse on 0..8. */
  lemma ColTablesInverse()
    ensures forall c: nat :: c < 9 ==> UsiToCol(ColToUsi[c]) == Some(c)
    ensures forall ch :: UsiToCol(ch).Some? ==> UsiToCol(ch).value < 9 && ColToUsi[UsiToCol(ch).value] == ch
  {
  }

  /** The row tables are mutually inverse on 0..8. */
  lemma RowTablesInverse()
    ensures forall r: nat :: r < 9 ==> UsiToRow(RowToUsi[r]) == Some(r)
    ensures forall ch :: UsiToRow(ch).Some? ==> UsiToRow(ch).value < 9 && RowToUsi[UsiToRow(ch).value] == ch
  {
  }

  /** The piece tables are mutually inverse on the hand kinds. */
  lemma PieceTablesInverse(t: PieceType, ch: char)
    ensures PieceToUsi(t).Some? <==> IsHandKind(t)
    ensures PieceToUsi(t) == Some(ch) <==> UsiToPiece(ch) == Some(t)
  {
  }

  /** A table entry `X[i]` interpolated into a template: the entry, or "undefined" outside the table. */
  function Entry(table: seq<char>, i: int): (r: string)
    ensures 0 <= i < |table| ==> r == [table[i]]
  {
    if 0 <= i < |table| then [table[i]] else "undefined"
  }

  /** The move object `toUsi` receives: a board move (with its optional `promote`) or a drop. */
  datatype MoveIn =
    | BoardIn(fromRow: int, fromCol: int, toRow: int, toCol: int, promote: bool)
    | DropIn(piece: Option<PieceType>, pieceType: Option<PieceType>, toRow: int, toCol: int)

  /** `PIECE_TO_USI[move.piece] || PIECE_TO_USI[move.pieceType]`. */
  function DropChar(m: MoveIn): Option<char>
    requires m.DropIn?
  {
    var first := if m.piece.Some? then PieceToUsi(m.piece.value) else None;
    if first.Some? then first
    else if m.pieceType.Some? then PieceToUsi(m.pieceType.value) else None
  }

  function OptName(t: Option<PieceType>): string
  {
    if t.Some? then Name(t.value) else "undefined"
  }

  /** `MoveConverter.toUsi(move)`. */
  function ToUsi(m: MoveIn): (r: Result<string>)
    ensures r.Err? <==> m.DropIn? && DropChar(m).None?
  {
    match m
    case DropIn(piece, pieceType, toRow, toCol) =>
      var pc := DropChar(m);
      if pc.None? then Err("Unknown piece for drop: " + (if piece.Some? then OptName(piece) else OptName(pieceType)))
      else Ok([pc.value] + "*" + Entry(ColToUsi, toCol) + Entry(RowToUsi, toRow))
    case BoardIn(fromRow, fromCol, toRow, toCol, promote) =>
      Ok(Entry(ColToUsi, fromCol) + Entry(RowToUsi, fromRow) + Entry(ColToUsi, toCol) + Entry(RowToUsi, toRow)
        + (if promote then "+" else ""))
  }

  /** The move object `fromUsi` returns; `piece` and `pieceType` of a drop are the same kind. */
  datatype UsiMove =
    | UsiBoard(fromRow: nat, fromCol: nat, toRow: nat, toCol: nat, promote: bool, owner: Side)
    | UsiDrop(piece: PieceType, toRow: nat, toCol: nat, owner: Side)

  /** `MoveConverter.fromUsi(usi, owner)`. */
  function FromUsi(usi: string, owner: Side): Result<UsiMove>
  {
    if |usi| < 4 then Err("Invalid USI move: " + usi)
    else if usi[1] == '*' then
      var pieceChar := UpperChar(usi[0]);
      var piece := UsiToPiece(pieceChar);
      if piece.None? then Err("Unknown piece in USI drop: " + [pieceChar])
      else
        var toCol := UsiToCol(usi[2]);
        var toRow := UsiToRow(usi[3]);
        if toCol.None? || toRow.None? then Err("Invalid destination in USI drop: " + usi)
        else Ok(UsiDrop(piece.value, toRow.value, toCol.value, owner))
    else
      var fromCol := UsiToCol(usi[0]);
      var fromRow := UsiToRow(usi[1]);
      var toCol := UsiToCol(usi[2]);
      var toRow := UsiToRow(usi[3]);
      var promote := |usi| > 4 && usi[4] == '+';
      if fromCol.None? || fromRow.None? || toCol.None? || toRow.None? then
        Err("Invalid coordinates in USI move: " + usi)
      else Ok(UsiBoard(fromRow.value, fromCol.value, toRow.value, toCol.value, promote, owner))
  }

  /** `MoveConverter.coordinateToUsi(row, col)`, for the 0..8 coordinates it is documented for. */
  function CoordinateToUsi(row: int, col: int): (s: string)
    requires 0 <= row < 9 && 0 <= col < 9
    ensures |s| == 2
  {
    [ColToUsi[col], RowToUsi[row]]
  }

  /** `MoveConverter.usiToCoordinate(s)`: (row, col). */
  function UsiToCoordinate(s: string): Result<(nat, nat)>
  {
    if |s| != 2 then Err("Invalid USI coordinate: " + s)
    else
      var col := UsiToCol(s[0]);
      var row := UsiToRow(s[1]);
      if col.None? || row.None? then Err("Invalid USI coordinate: " + s)
      else Ok((row.value, col.value))
  }

  /** `MoveConverter.isValidUsi(usi)`. */
  predicate IsValidUsi(usi: string)
  {
    if |usi| == 0 then false
    else if |usi| >= 4 && usi[1] == '*' then
      UsiToPiece(UpperChar(usi[0])).Some? && UsiToCol(usi[2]).Some? && UsiToRow(usi[3]).Some?
    else if |usi| < 4 || |usi| > 5 then false
    else if UsiToCol(usi[0]).None? || UsiToRow(usi[1]).None? || UsiToCol(usi[2]).None? || UsiToRow(usi[3]).None? then false
    else !(|usi| == 5 && usi[4] != '+')
  }

  /** Each square's two-character name reads back as the square. */
  lemma CoordinateRoundTrip(row: int, col: int)
    requires 0 <= row < 9 && 0 <= col < 9
    ensures UsiToCoordinate(CoordinateToUsi(row, col)) == Ok((row, col))
  {
    ColTablesInverse();
    RowTablesInverse();
  }

  /** Every string `usiToCoordinate` accepts is the name of the square it returns. */
  lemma CoordinateRoundTripBack(s: string)
    requires UsiToCoordinate(s).Ok?
    ensures var (row, col) := UsiToCoordinate(s).value;
      row < 9 && col < 9 && CoordinateToUsi(row, col) == s
  {
    ColTablesInverse();
    RowTablesInverse();
  }

  predicate OnBoardMove(m: MoveIn)
  {
    0 <= m.toRow < 9 && 0 <= m.toCol < 9 && (m.BoardIn? ==> 0 <= m.fromRow < 9 && 0 <= m.fromCol < 9)
  }

  /** A board move survives `toUsi` then `fromUsi`: coordinates and the promote flag. */
  lemma BoardMoveRoundTrip(m: MoveIn, owner: Side)
    requires m.BoardIn? && OnBoardMove(m)
    ensures ToUsi(m).Ok? && FromUsi(ToUsi(m).value, owner)
      == Ok(UsiBoard(m.fromRow, m.fromCol, m.toRow, m.toCol, m.promote, owner))
  {
    ColTablesInverse();
    RowTablesInverse();
  }

  /** A drop of a hand kind survives `toUsi` then `fromUsi`: kind and destination. */
  lemma DropRoundTrip(t: PieceType, pieceType: Option<PieceType>, row: int, col: int, owner: Side)
    requires IsHandKind(t) && 0 <= row < 9 && 0 <= col < 9
    ensures ToUsi(DropIn(Some(t), pieceType, row, col)).Ok?
    ensures FromUsi(ToUsi(DropIn(Some(t), pieceType, row, col)).value, owner) == Ok(UsiDrop(t, row, col, owner))
  {
    ColTablesInverse();
    RowTablesInverse();
    var s := ToUsi(DropIn(Some(t), pieceType, row, col)).value;
    assert s[1] == '*';
    assert UpperChar(s[0]) == s[0];
  }

  /** `toUsi` throws for a drop exactly when neither `piece` nor `pieceType` is a hand kind. */
  lemma DropErrorIff(m: MoveIn)
    requires m.DropIn?
    ensures ToUsi(m).Err? <==>
      (m.piece.None? || !IsHandKind(m.piece.value)) && (m.pieceType.None? || !IsHandKind(m.pieceType.value))
  {
  }

  /** What `toUsi` writes for an on-board move, `isValidUsi` accepts. */
  lemma ToUsiValid(m: MoveIn)
    requires OnBoardMove(m) && ToUsi(m).Ok?
    ensures IsValidUsi(ToUsi(m).value)
  {
    var s := ToUsi(m).value;
    if m.DropIn? {
      var pc := DropChar(m).value;
      assert s == [pc, '*', ColToUsi[m.toCol], RowToUsi[m.toRow]];
      assert UsiToPiece(UpperChar(pc)).Some?;
    } else {
      assert s[..4] == [ColToUsi[m.fromCol], RowToUsi[m.fromRow], ColToUsi[m.toCol], RowToUsi[m.toRow]];
      assert s[1] != '*';
    }
  }

  /**
   * `isValidUsi` accepts exactly what `fromUsi` parses, except that for a
   * board move it also demands length 4, or length 5 ending in '+'.
   */
  lemma ValidIffParses(usi: string, owner: Side)
    ensures IsValidUsi(usi) <==>
      FromUsi(usi, owner).Ok?
      && (FromUsi(usi, owner).value.UsiDrop? || |usi| == 4 || (|usi| == 5 && usi[4] == '+'))
  {
  }

  /** A parsed board move is a promotion exactly when a fifth character '+' follows the squares. */
  lemma PromoteFlag(usi: string, owner: Side)
    requires FromUsi(usi, owner).Ok? && FromUsi(usi, owner).value.UsiBoard?
    ensures FromUsi(usi, owner).value.promote <==> |usi| > 4 && usi[4] == '+'
    ensures usi[1] != '*'
  {
  }

  /** The error cases of `fromUsi`. */
  lemma FromUsiErrors(usi: string, owner: Side)
    ensures |usi| < 4 ==> FromUsi(usi, owner).Err?
    ensures |usi| >= 4 && usi[1] == '*' && UsiToPiece(UpperChar(usi[0])).None? ==> FromUsi(usi, owner).Err?
    ensures |usi| >= 4 && (UsiToCol(usi[2]).None? || UsiToRow(usi[3]).None?) ==> FromUsi(usi, owner).Err?
    ensures |usi| >= 4 && usi[1] != '*' && (UsiToCol(usi[0]).None? || UsiToRow(usi[1]).None?) ==> FromUsi(usi, owner).Err?
  {
  }

  /** `parseUsiMoves`: the words of `trim().split(/\s+/)`, read with alternating owners. */
  function UsiWords(usiMoves: string): seq<string>
  {
    SplitSpaces(Trim(usiMoves))
  }

  /** The owner of the i-th move when the first belongs to `start`. */
  function OwnerAt(start: Side, i: nat): Side
  {
    if i % 2 == 0 then start else Opponent(start)
  }

  /** The moves of `words` from index n on, the n-th owned by `player`; the first failure is the result. */
  function ParseWords(words: seq<string>, n: nat, player: Side): Result<seq<UsiMove>>
    requires n <= |words|
    decreases |words| - n
  {
    if n == |words| then Ok([])
    else
      match FromUsi(words[n], player)
      case Err(e) => Err(e)
      case Ok(m) =>
        match ParseWords(words, n + 1, Opponent(player))
        case Err(e) => Err(e)
        case Ok(ms) => Ok([m] + ms)
  }

  /** The moves parsed so far, put in front of the outcome of the rest. */
  function Prefixed(out: seq<UsiMove>, r: Result<seq<UsiMove>>): Result<seq<UsiMove>>
  {
    match r
    case Err(e) => Err(e)
    case Ok(ms) => Ok(out + ms)
  }

  lemma ParseWordsStep(words: seq<string>, n: nat, player: Side, out: seq<UsiMove>)
    requires n < |words| && FromUsi(words[n], player).Ok?
    ensures Prefixed(out, ParseWords(words, n, player))
      == Prefixed(out + [FromUsi(words[n], player).value], ParseWords(words, n + 1, Opponent(player)))
  {
    var r := ParseWords(words, n + 1, Opponent(player));
    if r.Ok? {
      assert out + ([FromUsi(words[n], player).value] + r.value) == out + [FromUsi(words[n], player).value] + r.value;
    }
  }

  lemma ParseWordsStop(words: seq<string>, n: nat, player: Side, out: seq<UsiMove>)
    requires n < |words| && FromUsi(words[n], player).Err?
    ensures Prefixed(out, ParseWords(words, n, player)) == Err(FromUsi(words[n], player).msg)
  {
  }

  lemma PrefixedEmpty(r: Result<seq<UsiMove>>)
    ensures Prefixed([], r) == r
  {
    if r.Ok? {
      assert [] + r.value == r.value;
    }
  }

  /** `MoveConverter.parseUsiMoves(usiMoves, startingPlayer)`. */
  method ParseUsiMoves(usiMoves: string, startingPlayer: Side) returns (r: Result<seq<UsiMove>>)
    ensures r == ParseWords(UsiWords(usiMoves), 0, startingPlayer)
  {
    r := ParseMoveList(UsiWords(usiMoves), startingPlayer);
  }

  /** The loop of `parseUsiMoves` over the words, the owner alternating from `startingPlayer`. */
  method ParseMoveList(moves: seq<string>, startingPlayer: Side) returns (r: Result<seq<UsiMove>>)
    ensures r == ParseWords(moves, 0, startingPlayer)
  {
    var currentPlayer := startingPlayer;
    var out: seq<UsiMove> := [];
    var i := 0;
    PrefixedEmpty(ParseWords(moves, 0, startingPlayer));
    while i < |moves|
      invariant 0 <= i <= |moves|
      invariant ParseWords(moves, 0, startingPlayer) == Prefixed(out, ParseWords(moves, i, currentPlayer))
    {
      var move := FromUsi(moves[i], currentPlayer);
      if move.Err? {
        ParseWordsStop(moves, i, currentPlayer, out);
        return Err(move.msg);
      }
      ParseWordsStep(moves, i, currentPlayer, out);
      currentPlayer := if currentPlayer == Player then Cpu else Player;
      out := out + [move.value];
      i := i + 1;
    }
    assert out + [] == out;
    return Ok(out);
  }

  /**
   * A successful `parseUsiMoves` returns one move per word, the i-th parsed
   * from the i-th word, owners alternating from `startingPlayer`.
   */
  lemma {:induction false} ParseWordsAlternate(words: seq<string>, n: nat, player: Side)
    requires n <= |words| && ParseWords(words, n, player).Ok?
    ensures var ms := ParseWords(words, n, player).value;
      |ms| == |words| - n
      && forall i :: 0 <= i < |ms| ==>
        FromUsi(words[n + i], OwnerAt(player, i)) == Ok(ms[i]) && ms[i].owner == OwnerAt(player, i)
    decreases |words| - n
  {
    if n < |words| {
      ParseWordsAlternate(words, n + 1, Opponent(player));
      var ms := ParseWords(words, n, player).value;
      var rest := ParseWords(words, n + 1, Opponent(player)).value;
      assert ms == [FromUsi(words[n], player).value] + rest;
      forall i | 0 <= i < |ms|
        ensures FromUsi(words[n + i], OwnerAt(player, i)) == Ok(ms[i]) && ms[i].owner == OwnerAt(player, i)
      {
        if i > 0 {
          assert OwnerAt(Opponent(player), i - 1) == OwnerAt(player, i);
          assert ms[i] == rest[i - 1];
        }
      }
    }
  }

  /** `fromUsi` keeps the owner it is given. */
  lemma FromUsiOwner(usi: string, owner: Side)
    requires FromUsi(usi, owner).Ok?
    ensures FromUsi(usi, owner).value.owner == owner
  {
  }

  lemma OwnerShift(player: Side, j: nat)
    ensures OwnerAt(Opponent(player), j) == OwnerAt(player, j + 1)
  {
  }

  /** `parseUsiMoves` fails exactly when some word fails to parse. */
  lemma {:induction false} ParseWordsFails(words: seq<string>, n: nat, player: Side)
    requires n <= |words|
    ensures ParseWords(words, n, player).Err? <==>
      exists i :: n <= i < |words| && FromUsi(words[i], OwnerAt(player, i - n)).Err?
    decreases |words| - n
  {
    if n < |words| {
      ParseWordsFails(words, n + 1, Opponent(player));
      if ParseWords(words, n, player).Err? {
        if FromUsi(words[n], player).Err? {
          assert FromUsi(words[n], OwnerAt(player, n - n)).Err?;
        } else {
          var i :| n + 1 <= i < |words| && FromUsi(words[i], OwnerAt(Opponent(player), i - (n + 1))).Err?;
          OwnerShift(player, i - (n + 1));
          assert FromUsi(words[i], OwnerAt(player, i - n)).Err?;
        }
      } else {
        forall i | n <= i < |words|
          ensures FromUsi(words[i], OwnerAt(player, i - n)).Ok?
        {
          if i > n {
            OwnerShift(player, i - (n + 1));
          }
        }
      }
    }
  }

  /** An empty or all-blank move list is one empty word, which `fromUsi` rejects. */
  lemma BlankListFails(usiMoves: string, start: Side)
    requires Trim(usiMoves) == ""
    ensures ParseWords(UsiWords(usiMoves), 0, start).Err?
  {
    assert SplitSpaces("") == [""];
  }
}
