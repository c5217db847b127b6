/**
 * `SfenConverter`: the board, the two hands, the side to move and the move
 * number, to and from an SFEN position string
 * ("<board> <turn> <hands> <move number>").
 */
module Sfen {
  import opened Wrappers
  import opened Pieces
  import opened Board
  import opened JsText

  /** `PIECE_TO_SFEN`: both king glyphs are "K", promoted kinds carry '+'. */
  function PieceToSfen(t: PieceType): (s: string)
    ensures |s| == (if IsPromotedKind(t) then 2 else 1)
  {
    match t
    case Pawn => "P"
    case Lance => "L"
    case Knight => "N"
    case Silver => "S"
    case Gold => "G"
    case Bishop => "B"
    case Rook => "R"
    case King => "K"
    case Jewel => "K"
    case Tokin => "+P"
    case PromotedLance => "+L"
    case PromotedKnight => "+N"
    case PromotedSilver => "+S"
    case Horse => "+B"
    case Dragon => "+R"
  }

  /** `SFEN_TO_PIECE`: "K" reads back as 王. */
  const SfenToPieceTable: map<string, PieceType> :=
    map["P" := Pawn, "L" := Lance, "N" := Knight, "S" := Silver, "G" := Gold, "B" := Bishop,
        "R" := Rook, "K" := King, "+P" := Tokin, "+L" := PromotedLance, "+N" := PromotedKnight,
        "+S" := PromotedSilver, "+B" := Horse, "+R" := Dragon]

  /** `HAND_PIECE_ORDER`. */
  const HandOrder: seq<char> := ['R', 'B', 'G', 'S', 'N', 'L', 'P']

  /** The kind a square comes back as: 玉 is read back as 王. */
  function ReadBackKind(t: PieceType): PieceType
  {
    if t == Jewel then King else t
  }

  /** `PIECE_TO_SFEN` and `SFEN_TO_PIECE` are inverse up to the king glyph. */
  lemma PieceTablesInverse(t: PieceType)
    ensures PieceToSfen(t) in SfenToPieceTable && SfenToPieceTable[PieceToSfen(t)] == ReadBackKind(t)
  {
  }

  /** ======== The board part ======== */

  /** The token of one piece: upper case for the player, lower case for the CPU. */
  function PieceText(p: Piece): string
  {
    if p.owner == Cpu then LowerString(PieceToSfen(p.kind)) else PieceToSfen(p.kind)
  }

  /** `emptyCount.toString()` when it is positive, nothing otherwise. */
  function EmptyText(e: nat): string
  {
    if e > 0 then NatToString(e) else ""
  }

  /**
   * The text `_boardToSfenBoard` appends for row r from column col on, when
   * `e` empty squares are still pending before col.
   */
  function RowText(b: Grid, r: int, col: int, e: nat): string
    requires 0 <= r < 9 && 0 <= col <= 9
    decreases 9 - col
  {
    if col == 9 then EmptyText(e)
    else match At(b, r, col)
      case None => RowText(b, r, col + 1, e + 1)
      case Some(p) => EmptyText(e) + (PieceText(p) + RowText(b, r, col + 1, 0))
  }

  function RowTexts(b: Grid): (rs: seq<string>)
    ensures |rs| == 9
  {
    seq(9, r requires 0 <= r < 9 => RowText(b, r, 0, 0))
  }

  /** `_boardToSfenBoard(board)`: the nine row texts joined by '/'. */
  function BoardText(b: Grid): string
  {
    Join(RowTexts(b), '/')
  }

  /** `_boardToSfenBoard`: the row loop; each row is written by the column loop of `RowToSfen`. */
  method BoardToSfenBoard(board: Grid) returns (s: string)
    ensures s == BoardText(board)
  {
    var rows: seq<string> := [];
    for row := 0 to 9
      invariant rows == RowTexts(board)[..row]
    {
      var rowStr := RowToSfen(board, row);
      rows := rows + [rowStr];
      PrefixSnoc(RowTexts(board), row);
    }
    assert rows == RowTexts(board);
    s := Join(rows, '/');
  }

  /** The column loop of `_boardToSfenBoard`, with `rowStr` and `emptyCount`. */
  method RowToSfen(board: Grid, row: int) returns (rowStr: string)
    requires 0 <= row < 9
    ensures rowStr == RowText(board, row, 0, 0)
  {
    rowStr := "";
    var emptyCount: nat := 0;
    for col := 0 to 9
      invariant rowStr + RowText(board, row, col, emptyCount) == RowText(board, row, 0, 0)
    {
      var piece := board[Idx(row, col)];
      if piece.None? {
        assert RowText(board, row, col, emptyCount) == RowText(board, row, col + 1, emptyCount + 1);
        emptyCount := emptyCount + 1;
      } else {
        ghost var prefix := rowStr;
        ghost var e := emptyCount;
        if emptyCount > 0 {
          rowStr := rowStr + NatToString(emptyCount);
          emptyCount := 0;
        }
        assert rowStr == prefix + EmptyText(e);
        var sfenPiece := PieceToSfen(piece.value.kind);
        if piece.value.owner == Cpu {
          rowStr := rowStr + LowerString(sfenPiece);
        } else {
          rowStr := rowStr + sfenPiece;
        }
        assert rowStr == prefix + EmptyText(e) + PieceText(piece.value);
        assert RowText(board, row, col, e) == EmptyText(e) + (PieceText(piece.value) + RowText(board, row, col + 1, 0));
        AssocSeq(prefix + EmptyText(e), PieceText(piece.value), RowText(board, row, col + 1, 0));
        AssocSeq(prefix, EmptyText(e), PieceText(piece.value) + RowText(board, row, col + 1, 0));
      }
    }
    if emptyCount > 0 {
      rowStr := rowStr + NatToString(emptyCount);
    }
  }

  /** `isUpperCase ? 'player' : 'cpu'`, with `isUpperCase` = the character equals its upper case. */
  function OwnerOfCase(ch: char): Side
  {
    if ch == UpperChar(ch) then Player else Cpu
  }

  /** One row of the board `_sfenBoardToBoard` fills. */
  type Row = s: seq<Cell> | |s| == 9 witness [None, None, None, None, None, None, None, None, None]

  const EmptyRow: Row := [None, None, None, None, None, None, None, None, None]

  /**
   * The `while (i < rowStr.length && col < 9)` loop of `_sfenBoardToBoard`
   * on the rest `s` of the row text, writing into the row `cells`.
   */
  function ParseRowFrom(s: string, col: nat, cells: Row): Result<Row>
    decreases |s|
  {
    if |s| == 0 || col >= 9 then Ok(cells)
    else if s[0] == '+' then
      if |s| < 2 then Err("TypeError: cannot read toUpperCase of undefined")
      else
        var key := ['+', UpperChar(s[1])];
        if key !in SfenToPieceTable then Err("Unknown promoted piece: " + key)
        else ParseRowFrom(s[2..], col + 1, cells[col := Some(Piece(SfenToPieceTable[key], OwnerOfCase(s[1]), true))])
    else if '1' <= s[0] <= '9' then
      ParseRowFrom(s[1..], col + DigitValue(s[0]), cells)
    else
      var key := [UpperChar(s[0])];
      if key !in SfenToPieceTable then Err("Unknown piece: " + [s[0]])
      else ParseRowFrom(s[1..], col + 1, cells[col := Some(Piece(SfenToPieceTable[key], OwnerOfCase(s[0]), false))])
  }

  /** Rows r.. of the board text, each parsed into nine cells; the first failing row decides the error. */
  function ParseRows(rows: seq<string>, r: nat): (res: Result<seq<Row>>)
    requires r <= |rows|
    ensures res.Ok? ==> |res.value| == |rows| - r
    decreases |rows| - r
  {
    if r == |rows| then Ok([])
    else
      match ParseRowFrom(rows[r], 0, EmptyRow)
      case Err(e) => Err(e)
      case Ok(cells) =>
        match ParseRows(rows, r + 1)
        case Err(e) => Err(e)
        case Ok(rest) => Ok([cells] + rest)
  }

  /** Nine rows of nine cells, row-major. */
  function Flatten(rows: seq<Row>): (b: seq<Cell>)
    ensures |b| == 9 * |rows|
  {
    if |rows| == 0 then [] else rows[0] + Flatten(rows[1..])
  }

  lemma {:induction false} FlattenAt(rows: seq<Row>, r: nat, c: nat)
    requires r < |rows| && c < 9
    ensures Flatten(rows)[r * 9 + c] == rows[r][c]
  {
    if r > 0 {
      FlattenAt(rows[1..], r - 1, c);
      assert Flatten(rows) == rows[0] + Flatten(rows[1..]);
      assert (r - 1) * 9 + c + 9 == r * 9 + c;
    }
  }

  /** `_sfenBoardToBoard(sfenBoard)`. */
  function SfenBoard(sfenBoard: string): Result<Grid>
  {
    var rows := Split(sfenBoard, '/');
    if |rows| != 9 then Err("Invalid SFEN board: expected 9 rows")
    else
      match ParseRows(rows, 0)
      case Err(e) => Err(e)
      case Ok(cellRows) => Ok(Flatten(cellRows))
  }

  /** The rows parsed so far, put in front of the outcome of the rest. */
  function RowsPrefixed(done: seq<Row>, r: Result<seq<Row>>): Result<seq<Row>>
  {
    match r
    case Err(e) => Err(e)
    case Ok(rest) => Ok(done + rest)
  }

  /** Row `row` either fails, and the whole board fails with it, or leads the remaining rows. */
  lemma ParseRowsStep(rows: seq<string>, row: nat)
    requires row < |rows|
    ensures var c := ParseRowFrom(rows[row], 0, EmptyRow);
      ParseRows(rows, row) == if c.Err? then Err(c.msg) else RowsPrefixed([c.value], ParseRows(rows, row + 1))
  {
  }

  lemma RowsPrefixedAppend(done: seq<Row>, cells: Row, r: Result<seq<Row>>)
    ensures RowsPrefixed(done, RowsPrefixed([cells], r)) == RowsPrefixed(done + [cells], r)
  {
    if r.Ok? {
      assert done + ([cells] + r.value) == done + [cells] + r.value;
    }
  }

  /** `_sfenBoardToBoard`: the rows of a fresh 9x9 board filled by the scan of each row text. */
  method SfenBoardToBoard(sfenBoard: string) returns (r: Result<Grid>)
    ensures r == SfenBoard(sfenBoard)
  {
    var rows := Split(sfenBoard, '/');
    if |rows| != 9 {
      return Err("Invalid SFEN board: expected 9 rows");
    }
    var board: seq<Row> := [];
    assert RowsPrefixed([], ParseRows(rows, 0)) == ParseRows(rows, 0) by {
      if ParseRows(rows, 0).Ok? {
        assert [] + ParseRows(rows, 0).value == ParseRows(rows, 0).value;
      }
    }
    for row := 0 to 9
      invariant |board| == row
      invariant ParseRows(rows, 0) == RowsPrefixed(board, ParseRows(rows, row))
    {
      var cells := ScanRow(rows[row]);
      ParseRowsStep(rows, row);
      if cells.Err? {
        return Err(cells.msg);
      }
      RowsPrefixedAppend(board, cells.value, ParseRows(rows, row + 1));
      board := board + [cells.value];
    }
    assert board + [] == board;
    return Ok(Flatten(board));
  }

  /** One step of `ParseRowFrom` read at position i of the row text rather than on a suffix. */
  lemma ParseRowAt(s: string, i: nat, col: nat, cells: Row)
    requires i < |s| && col < 9
    ensures ParseRowFrom(s[i..], col, cells) ==
      if s[i] == '+' then
        if i + 1 >= |s| then Err("TypeError: cannot read toUpperCase of undefined")
        else
          var key := ['+', UpperChar(s[i + 1])];
          if key !in SfenToPieceTable then Err("Unknown promoted piece: " + key)
          else ParseRowFrom(s[i + 2..], col + 1, cells[col := Some(Piece(SfenToPieceTable[key], OwnerOfCase(s[i + 1]), true))])
      else if '1' <= s[i] <= '9' then
        ParseRowFrom(s[i + 1..], col + DigitValue(s[i]), cells)
      else
        var key := [UpperChar(s[i])];
        if key !in SfenToPieceTable then Err("Unknown piece: " + [s[i]])
        else ParseRowFrom(s[i + 1..], col + 1, cells[col := Some(Piece(SfenToPieceTable[key], OwnerOfCase(s[i]), false))])
  {
    var t := s[i..];
    assert t[0] == s[i];
    assert t[1..] == s[i + 1..];
    if i + 1 < |s| {
      assert t[1] == s[i + 1];
      assert t[2..] == s[i + 2..];
    }
  }

  /** One row of `_sfenBoardToBoard`: `i` walks the text, `col` the squares. */
  method ScanRow(rowStr: string) returns (r: Result<Row>)
    ensures r == ParseRowFrom(rowStr, 0, EmptyRow)
  {
    var cells := EmptyRow;
    var col: nat := 0;
    var i := 0;
    while i < |rowStr| && col < 9
      invariant 0 <= i <= |rowStr|
      invariant ParseRowFrom(rowStr, 0, EmptyRow) == ParseRowFrom(rowStr[i..], col, cells)
      decreases |rowStr| - i
    {
      var ch := rowStr[i];
      ParseRowAt(rowStr, i, col, cells);
      if ch == '+' {
        if i + 1 >= |rowStr| {
          return Err("TypeError: cannot read toUpperCase of undefined");
        }
        var nextChar := rowStr[i + 1];
        var sfenPiece := ['+', UpperChar(nextChar)];
        if sfenPiece !in SfenToPieceTable {
          return Err("Unknown promoted piece: " + sfenPiece);
        }
        cells := cells[col := Some(Piece(SfenToPieceTable[sfenPiece], OwnerOfCase(nextChar), true))];
        col := col + 1;
        i := i + 2;
      } else if '1' <= ch <= '9' {
        col := col + DigitValue(ch);
        i := i + 1;
      } else {
        var sfenPiece := [UpperChar(ch)];
        if sfenPiece !in SfenToPieceTable {
          return Err("Unknown piece: " + [ch]);
        }
        cells := cells[col := Some(Piece(SfenToPieceTable[sfenPiece], OwnerOfCase(ch), false))];
        col := col + 1;
        i := i + 1;
      }
    }
    return Ok(cells);
  }

  /** ======== The board part read back ======== */

  /** The square as `_sfenBoardToBoard` reads it back: 王 for either king, `promoted` exactly for '+' kinds. */
  function ReadBack(x: Cell): Cell
  {
    match x
    case None => None
    case Some(p) => Some(Piece(ReadBackKind(p.kind), p.owner, IsPromotedKind(p.kind)))
  }

  function ReadBackRow(b: Grid, r: int): Row
    requires 0 <= r < 9
  {
    seq(9, c requires 0 <= c < 9 => ReadBack(At(b, r, c)))
  }

  function ReadBackBoard(b: Grid): Grid
  {
    seq(81, i requires 0 <= i < 81 => ReadBack(b[i]))
  }

  predicate IsCapital(ch: char)
  {
    'A' <= ch <= 'Z'
  }

  lemma CaseFacts(ch: char)
    requires IsCapital(ch)
    ensures UpperChar(ch) == ch && UpperChar(LowerChar(ch)) == ch
    ensures LowerChar(ch) != ch && !IsDigit(LowerChar(ch)) && LowerChar(ch) != '+'
    ensures 'a' <= LowerChar(ch) <= 'z'
  {
  }

  lemma SfenTokenShape(t: PieceType)
    ensures IsPromotedKind(t) ==> PieceToSfen(t)[0] == '+' && IsCapital(PieceToSfen(t)[1])
    ensures !IsPromotedKind(t) ==> IsCapital(PieceToSfen(t)[0])
  {
  }

  /** Reading a single-digit count of empty squares advances the column by the count. */
  lemma DigitStep(e: nat, rest: string, col: nat, cells: Row)
    requires 1 <= e <= 9 && col < 9
    ensures ParseRowFrom(NatToString(e) + rest, col, cells) == ParseRowFrom(rest, col + e, cells)
  {
    var s := NatToString(e) + rest;
    assert s[0] == ('0' as int + e) as char;
    assert s[1..] == rest;
  }

  /** Reading a piece token fills the square with the piece as read back. */
  lemma PieceStep(p: Piece, rest: string, col: nat, cells: Row)
    requires col < 9
    ensures ParseRowFrom(PieceText(p) + rest, col, cells) == ParseRowFrom(rest, col + 1, cells[col := ReadBack(Some(p))])
  {
    var u := PieceToSfen(p.kind);
    var t := PieceText(p);
    var s := t + rest;
    SfenTokenShape(p.kind);
    PieceTablesInverse(p.kind);
    if IsPromotedKind(p.kind) {
      CaseFacts(u[1]);
      assert t[0] == '+';
      assert s[0] == '+' && s[1] == t[1] && s[2..] == rest;
      assert ['+', UpperChar(s[1])] == u;
      assert OwnerOfCase(s[1]) == p.owner;
    } else {
      CaseFacts(u[0]);
      assert s[0] == t[0] && s[1..] == rest;
      assert [UpperChar(s[0])] == u;
      assert OwnerOfCase(s[0]) == p.owner;
    }
  }

  /** The row array of `_sfenBoardToBoard` once the squares before k are read back. */
  function FilledUpTo(b: Grid, r: int, k: int): Row
    requires 0 <= r < 9
  {
    seq(9, c requires 0 <= c < 9 => if c < k then ReadBack(At(b, r, c)) else None)
  }

  /** An empty square read back leaves the row array as it was. */
  lemma FilledSkip(b: Grid, r: int, col: nat)
    requires 0 <= r < 9 && col < 9 && At(b, r, col) == None
    ensures FilledUpTo(b, r, col) == FilledUpTo(b, r, col + 1)
  {
  }

  /** Reading back the square at col extends the filled part by one. */
  lemma FilledStep(b: Grid, r: int, col: nat, x: Cell)
    requires 0 <= r < 9 && col < 9 && x == ReadBack(At(b, r, col))
    ensures FilledUpTo(b, r, col)[col := x] == FilledUpTo(b, r, col + 1)
  {
  }

  /**
   * The text of row r from column col on, with e empty squares pending since
   * column start, reads back the rest of the row: the squares before start
   * are already filled, the rest of the row array is still empty.
   */
  lemma {:induction false} RowTextReadBack(b: Grid, r: int, start: nat, col: nat, e: nat)
    requires 0 <= r < 9 && start + e == col <= 9
    requires FilledUpTo(b, r, start) == FilledUpTo(b, r, col)
    ensures ParseRowFrom(RowText(b, r, col, e), start, FilledUpTo(b, r, start)) == Ok(ReadBackRow(b, r))
    decreases 9 - col
  {
    if col == 9 {
      RowEndReadBack(b, r, start, e);
    } else if At(b, r, col).None? {
      FilledSkip(b, r, col);
      RowTextReadBack(b, r, start, col + 1, e + 1);
      EmptySquareReadBack(b, r, start, col, e);
    } else {
      RowTextReadBack(b, r, col + 1, col + 1, 0);
      PieceSquareReadBack(b, r, start, col, e);
    }
  }

  /** An empty square adds one to the pending count and reads back like the rest of the row. */
  lemma EmptySquareReadBack(b: Grid, r: int, start: nat, col: nat, e: nat)
    requires 0 <= r < 9 && start + e == col < 9 && At(b, r, col).None?
    requires ParseRowFrom(RowText(b, r, col + 1, e + 1), start, FilledUpTo(b, r, start)) == Ok(ReadBackRow(b, r))
    ensures ParseRowFrom(RowText(b, r, col, e), start, FilledUpTo(b, r, start)) == Ok(ReadBackRow(b, r))
  {
    assert RowText(b, r, col, e) == RowText(b, r, col + 1, e + 1);
  }

  /**
   * A piece flushes the pending count, fills its own square, and the rest of
   * the row reads back from the next column with nothing pending.
   */
  lemma PieceSquareReadBack(b: Grid, r: int, start: nat, col: nat, e: nat)
    requires 0 <= r < 9 && start + e == col < 9 && At(b, r, col).Some?
    requires FilledUpTo(b, r, start) == FilledUpTo(b, r, col)
    requires ParseRowFrom(RowText(b, r, col + 1, 0), col + 1, FilledUpTo(b, r, col + 1)) == Ok(ReadBackRow(b, r))
    ensures ParseRowFrom(RowText(b, r, col, e), start, FilledUpTo(b, r, start)) == Ok(ReadBackRow(b, r))
  {
    var p := At(b, r, col).value;
    var cells := FilledUpTo(b, r, start);
    var rest := RowText(b, r, col + 1, 0);
    assert RowText(b, r, col, e) == EmptyText(e) + (PieceText(p) + rest);
    PendingStep(e, PieceText(p) + rest, start, col, cells);
    PieceStep(p, rest, col, cells);
    FilledStep(b, r, col, ReadBack(Some(p)));
  }

  /** At the end of the row only the pending count is left, and the row is complete. */
  lemma RowEndReadBack(b: Grid, r: int, start: nat, e: nat)
    requires 0 <= r < 9 && start + e == 9
    requires FilledUpTo(b, r, start) == FilledUpTo(b, r, 9)
    ensures ParseRowFrom(RowText(b, r, 9, e), start, FilledUpTo(b, r, start)) == Ok(ReadBackRow(b, r))
  {
    var cells := FilledUpTo(b, r, start);
    assert RowText(b, r, 9, e) == EmptyText(e);
    if e > 0 {
      DigitStep(e, "", start, cells);
      assert NatToString(e) + "" == NatToString(e);
    }
    assert cells == ReadBackRow(b, r);
  }

  /** Reading the pending count of empty squares, if any, moves the column past them. */
  lemma PendingStep(e: nat, u: string, start: nat, col: nat, cells: Row)
    requires start + e == col < 9
    ensures ParseRowFrom(EmptyText(e) + u, start, cells) == ParseRowFrom(u, col, cells)
  {
    if e > 0 {
      DigitStep(e, u, start, cells);
    } else {
      assert EmptyText(e) + u == u;
    }
  }

  /** The characters a row text is made of: digits, letters and '+'. */
  predicate TokenChar(ch: char)
  {
    IsDigit(ch) || IsCapital(ch) || ('a' <= ch <= 'z') || ch == '+'
  }

  predicate TokenChars(s: string)
  {
    forall j :: 0 <= j < |s| ==> TokenChar(s[j])
  }

  lemma PieceTextChars(p: Piece)
    ensures TokenChars(PieceText(p)) && |PieceText(p)| > 0
  {
    SfenTokenShape(p.kind);
    var u := PieceToSfen(p.kind);
    forall j | 0 <= j < |u|
      ensures TokenChar(u[j]) && TokenChar(LowerChar(u[j]))
    {
      if IsCapital(u[j]) {
        CaseFacts(u[j]);
      }
    }
  }

  lemma TokenCharsConcat(a: string, b: string)
    requires TokenChars(a) && TokenChars(b)
    ensures TokenChars(a + b)
  {
    forall j | 0 <= j < |a + b|
      ensures TokenChar((a + b)[j])
    {
      if j >= |a| {
        assert (a + b)[j] == b[j - |a|];
      }
    }
  }

  lemma {:induction false} RowTextChars(b: Grid, r: int, col: nat, e: nat)
    requires 0 <= r < 9 && col <= 9
    ensures TokenChars(RowText(b, r, col, e))
    decreases 9 - col
  {
    if col < 9 {
      match At(b, r, col)
      case None =>
        RowTextChars(b, r, col + 1, e + 1);
      case Some(p) =>
        RowTextChars(b, r, col + 1, 0);
        PieceTextChars(p);
        TokenCharsConcat(PieceText(p), RowText(b, r, col + 1, 0));
        TokenCharsConcat(EmptyText(e), PieceText(p) + RowText(b, r, col + 1, 0));
    }
  }

  /** Every row text is non-empty: it always covers nine squares. */
  lemma {:induction false} RowTextNonEmpty(b: Grid, r: int, col: nat, e: nat)
    requires 0 <= r < 9 && col <= 9 && (col == 9 ==> e > 0)
    ensures |RowText(b, r, col, e)| > 0
    decreases 9 - col
  {
    if col < 9 {
      match At(b, r, col)
      case None =>
        RowTextNonEmpty(b, r, col + 1, e + 1);
      case Some(p) =>
        PieceTextChars(p);
    }
  }

  /** The rows r.. of a board as read back. */
  function ReadBackRows(b: Grid, r: nat): (rows: seq<Row>)
    requires r <= 9
    ensures |rows| == 9 - r
    decreases 9 - r
  {
    if r == 9 then [] else [ReadBackRow(b, r)] + ReadBackRows(b, r + 1)
  }

  lemma RowReadBack(b: Grid, r: nat)
    requires r < 9
    ensures ParseRowFrom(RowTexts(b)[r], 0, EmptyRow) == Ok(ReadBackRow(b, r))
  {
    assert FilledUpTo(b, r, 0) == EmptyRow;
    RowTextReadBack(b, r, 0, 0, 0);
  }

  lemma {:induction false} ParseRowsReadBack(b: Grid, r: nat)
    requires r <= 9
    ensures ParseRows(RowTexts(b), r) == Ok(ReadBackRows(b, r))
    decreases 9 - r
  {
    if r < 9 {
      RowReadBack(b, r);
      ParseRowsReadBack(b, r + 1);
    }
  }

  lemma ReadBackRowSlice(b: Grid, r: nat)
    requires r < 9
    ensures ReadBackRow(b, r) == ReadBackBoard(b)[9 * r..9 * r + 9]
  {
    forall c | 0 <= c < 9
      ensures ReadBackRow(b, r)[c] == ReadBackBoard(b)[9 * r..9 * r + 9][c]
    {
      assert Idx(r, c) == 9 * r + c;
    }
  }

  lemma {:induction false} FlattenReadBack(b: Grid, r: nat)
    requires r <= 9
    ensures Flatten(ReadBackRows(b, r)) == ReadBackBoard(b)[9 * r..]
    decreases 9 - r
  {
    if r < 9 {
      FlattenReadBack(b, r + 1);
      ReadBackRowSlice(b, r);
      var rows := ReadBackRows(b, r);
      assert rows[1..] == ReadBackRows(b, r + 1);
      assert Flatten(rows) == ReadBackRow(b, r) + Flatten(ReadBackRows(b, r + 1));
      assert ReadBackBoard(b)[9 * r..] == ReadBackBoard(b)[9 * r..9 * r + 9] + ReadBackBoard(b)[9 * r + 9..];
    }
  }

  /** `_sfenBoardToBoard(_boardToSfenBoard(b))` gives back every square's owner and type (either king as 王), `promoted` set exactly for '+' kinds. */
  lemma BoardRoundTrip(b: Grid)
    ensures SfenBoard(BoardText(b)) == Ok(ReadBackBoard(b))
  {
    forall k | 0 <= k < 9
      ensures '/' !in RowTexts(b)[k]
    {
      RowTextChars(b, k, 0, 0);
    }
    JoinSplit(RowTexts(b), '/');
    ParseRowsReadBack(b, 0);
    FlattenReadBack(b, 0);
    assert ReadBackBoard(b)[0..] == ReadBackBoard(b);
  }

  /** ======== Shape of a row text ======== */

  /** The squares a row text covers: a '+' token is one square, a digit that many, any other letter one. */
  function Squares(s: string): int
    decreases |s|
  {
    if |s| == 0 then 0
    else if s[0] == '+' then 1 + (if |s| >= 2 then Squares(s[2..]) else 0)
    else if IsDigit(s[0]) then DigitValue(s[0]) + Squares(s[1..])
    else 1 + Squares(s[1..])
  }

  /** A piece token is one square; its letters are upper case for the player, lower case for the CPU. */
  lemma PieceTextShape(p: Piece, rest: string)
    ensures Squares(PieceText(p) + rest) == 1 + Squares(rest)
    ensures IsPromotedKind(p.kind) <==> PieceText(p)[0] == '+'
    ensures forall j :: 0 <= j < |PieceText(p)| ==> !IsDigit(PieceText(p)[j])
    ensures p.owner == Cpu ==> forall j :: 0 <= j < |PieceText(p)| ==> !IsCapital(PieceText(p)[j])
    ensures p.owner == Player ==> forall j :: 0 <= j < |PieceText(p)| ==> !('a' <= PieceText(p)[j] <= 'z')
  {
    var u := PieceToSfen(p.kind);
    var t := PieceText(p);
    var s := t + rest;
    SfenTokenShape(p.kind);
    if IsPromotedKind(p.kind) {
      CaseFacts(u[1]);
      assert s[0] == '+' && s[2..] == rest;
    } else {
      CaseFacts(u[0]);
      assert s[0] == t[0] && s[1..] == rest;
    }
  }

  lemma DigitSquares(e: nat, rest: string)
    requires 1 <= e <= 9
    ensures Squares(NatToString(e) + rest) == e + Squares(rest)
  {
    var s := NatToString(e) + rest;
    assert s[0] == ('0' as int + e) as char;
    assert s[1..] == rest;
  }

  /** Row text from column col with e pending empties covers the 9 - col remaining squares and the e pending ones. */
  lemma {:induction false} RowTextSquares(b: Grid, r: int, col: nat, e: nat)
    requires 0 <= r < 9 && e <= col <= 9
    ensures Squares(RowText(b, r, col, e)) == 9 - col + e
    decreases 9 - col
  {
    if col == 9 {
      if e > 0 {
        DigitSquares(e, "");
        assert NatToString(e) + "" == NatToString(e);
      }
    } else {
      match At(b, r, col)
      case None =>
        RowTextSquares(b, r, col + 1, e + 1);
      case Some(p) =>
        var rest := RowText(b, r, col + 1, 0);
        RowTextSquares(b, r, col + 1, 0);
        PieceTextShape(p, rest);
        if e > 0 {
          DigitSquares(e, PieceText(p) + rest);
        } else {
          assert EmptyText(e) + (PieceText(p) + rest) == PieceText(p) + rest;
        }
    }
  }

  /** No two digits in a row: a run of empty squares is written as one digit. */
  predicate NoDigitPair(s: string)
  {
    forall j :: 0 <= j < |s| - 1 ==> !(IsDigit(s[j]) && IsDigit(s[j + 1]))
  }

  lemma NoDigitPairConcat(a: string, b: string)
    requires NoDigitPair(a) && NoDigitPair(b)
    requires |a| > 0 && |b| > 0 ==> !(IsDigit(a[|a| - 1]) && IsDigit(b[0]))
    ensures NoDigitPair(a + b)
  {
    var s := a + b;
    forall j | 0 <= j < |s| - 1
      ensures !(IsDigit(s[j]) && IsDigit(s[j + 1]))
    {
      if j + 1 < |a| {
        assert s[j] == a[j] && s[j + 1] == a[j + 1];
      } else if j >= |a| {
        assert s[j] == b[j - |a|] && s[j + 1] == b[j + 1 - |a|];
      } else {
        assert s[j] == a[|a| - 1] && s[j + 1] == b[0];
      }
    }
  }

  lemma {:induction false} RowTextNoDigitPair(b: Grid, r: int, col: nat, e: nat)
    requires 0 <= r < 9 && e <= col <= 9
    ensures NoDigitPair(RowText(b, r, col, e))
    decreases 9 - col
  {
    if col < 9 {
      match At(b, r, col)
      case None =>
        RowTextNoDigitPair(b, r, col + 1, e + 1);
      case Some(p) =>
        var rest := RowText(b, r, col + 1, 0);
        RowTextNoDigitPair(b, r, col + 1, 0);
        PieceTextShape(p, rest);
        var t := PieceText(p);
        NoDigitPairConcat(t, rest);
        assert (t + rest)[0] == t[0];
        NoDigitPairConcat(EmptyText(e), t + rest);
    }
  }

  /** Each of the nine rows of `_boardToSfenBoard` covers exactly nine squares, each run of empties as one digit. */
  lemma BoardTextRows(b: Grid)
    ensures Split(BoardText(b), '/') == RowTexts(b)
    ensures forall r :: 0 <= r < 9 ==> Squares(RowTexts(b)[r]) == 9 && NoDigitPair(RowTexts(b)[r])
  {
    forall k | 0 <= k < 9
      ensures '/' !in RowTexts(b)[k]
    {
      RowTextChars(b, k, 0, 0);
    }
    JoinSplit(RowTexts(b), '/');
    forall r | 0 <= r < 9
      ensures Squares(RowTexts(b)[r]) == 9 && NoDigitPair(RowTexts(b)[r])
    {
      RowTextSquares(b, r, 0, 0);
      RowTextNoDigitPair(b, r, 0, 0);
    }
  }

  /** ======== The hands ======== */

  /**
   * An element of a captured-piece array: the game keeps plain type strings,
   * the converter's own reader produces `{ type, owner, promoted }` objects.
   */
  datatype HandItem = TypeName(kind: PieceType) | PieceObject(piece: Piece)

  /**
   * The key `_countCapturedPieces` counts an element under: the base kind of
   * an object's `type`; a plain string has no `type` field, and its count
   * goes to the key "undefined" (here None), which no hand letter reads.
   */
  function BaseKey(x: HandItem): Option<PieceType>
  {
    match x
    case TypeName(_) => None
    case PieceObject(p) => Some(CapturedKind(p.kind))
  }

  /** How many elements count under key k. */
  function CountOf(items: seq<HandItem>, k: Option<PieceType>): nat
  {
    if |items| == 0 then 0
    else CountOf(items[..|items| - 1], k) + (if BaseKey(items[|items| - 1]) == k then 1 else 0)
  }

  /** `_countCapturedPieces(captured)`: the `counts` object built by the loop. */
  method CountCapturedPieces(captured: seq<HandItem>) returns (counts: map<Option<PieceType>, nat>)
    ensures forall k :: k in counts <==> CountOf(captured, k) > 0
    ensures forall k :: k in counts ==> counts[k] == CountOf(captured, k)
  {
    counts := map[];
    for i := 0 to |captured|
      invariant forall k :: k in counts <==> CountOf(captured[..i], k) > 0
      invariant forall k :: k in counts ==> counts[k] == CountOf(captured[..i], k)
    {
      var baseType := BaseKey(captured[i]);
      counts := counts[baseType := (if baseType in counts then counts[baseType] else 0) + 1];
      assert captured[..i + 1][..i] == captured[..i];
    }
    assert captured[..|captured|] == captured;
  }

  /** `SFEN_TO_PIECE[letter]` for the letters of `HAND_PIECE_ORDER`. */
  function HandKind(letter: char): PieceType
  {
    match LetterKind(letter)
    case Some(k) => k
    case None => Pawn
  }

  /** The letter for one side: upper case for the player, lower case for the CPU. */
  function SideLetter(letter: char, side: Side): char
  {
    if side == Cpu then LowerChar(letter) else letter
  }

  /** What one kind contributes to a hand string: nothing, the letter, or the count then the letter. */
  function HandEntry(count: nat, letter: char, side: Side): string
  {
    if count == 0 then ""
    else if count > 1 then NatToString(count) + [SideLetter(letter, side)]
    else [SideLetter(letter, side)]
  }

  /** One side's hand from position n of `HAND_PIECE_ORDER` on. */
  function HandPart(items: seq<HandItem>, n: nat, side: Side): string
    requires n <= |HandOrder|
    decreases |HandOrder| - n
  {
    if n == |HandOrder| then ""
    else HandEntry(CountOf(items, Some(HandKind(HandOrder[n]))), HandOrder[n], side) + HandPart(items, n + 1, side)
  }

  /** `_capturedToSfenHand(playerCaptured, cpuCaptured)`. */
  function HandText(pp: seq<HandItem>, cp: seq<HandItem>): string
  {
    var result := HandPart(pp, 0, Player) + HandPart(cp, 0, Cpu);
    if result == "" then "-" else result
  }

  /** `_capturedToSfenHand`: counts both sides, then one loop per side over `HAND_PIECE_ORDER`. */
  method CapturedToSfenHand(playerCaptured: seq<HandItem>, cpuCaptured: seq<HandItem>) returns (hand: string)
    ensures hand == HandText(playerCaptured, cpuCaptured)
  {
    var playerPart := SideToSfenHand(playerCaptured, Player);
    var cpuPart := SideToSfenHand(cpuCaptured, Cpu);
    var result := playerPart + cpuPart;
    hand := if result == "" then "-" else result;
  }

  /** One loop of `_capturedToSfenHand`: a side's counts written in `HAND_PIECE_ORDER`. */
  method SideToSfenHand(captured: seq<HandItem>, side: Side) returns (result: string)
    ensures result == HandPart(captured, 0, side)
  {
    var hand := CountCapturedPieces(captured);
    result := "";
    for n := 0 to |HandOrder|
      invariant result + HandPart(captured, n, side) == HandPart(captured, 0, side)
    {
      var sfenPiece := HandOrder[n];
      var pieceType := HandKind(sfenPiece);
      var count := if Some(pieceType) in hand then hand[Some(pieceType)] else 0;
      assert count == CountOf(captured, Some(pieceType));
      var letter := if side == Cpu then LowerChar(sfenPiece) else sfenPiece;
      ghost var before := result;
      if count > 0 {
        result := result + (if count > 1 then NatToString(count) + [letter] else [letter]);
      }
      HandPartStep(captured, n, side, before, result);
    }
  }

  lemma HandPartStep(items: seq<HandItem>, n: nat, side: Side, before: string, after: string)
    requires n < |HandOrder|
    requires after == before + HandEntry(CountOf(items, Some(HandKind(HandOrder[n]))), HandOrder[n], side)
    ensures before + HandPart(items, n, side) == after + HandPart(items, n + 1, side)
  {
  }

  /** `SFEN_TO_PIECE[letter]` for a one-character key. */
  function LetterKind(c: char): Option<PieceType>
  {
    match c
    case 'P' => Some(Pawn)
    case 'L' => Some(Lance)
    case 'N' => Some(Knight)
    case 'S' => Some(Silver)
    case 'G' => Some(Gold)
    case 'B' => Some(Bishop)
    case 'R' => Some(Rook)
    case 'K' => Some(King)
    case _ => None
  }

  /** `LetterKind` is the table's lookup of a one-character key. */
  lemma LetterKindTable(c: char)
    ensures LetterKind(c).Some? <==> [c] in SfenToPieceTable
    ensures LetterKind(c).Some? ==> SfenToPieceTable[[c]] == LetterKind(c).value
  {
  }

  /** `count` copies of one piece, as the inner loop of `_sfenHandToCaptured` pushes them. */
  function Copies(p: Piece, count: nat): (r: seq<Piece>)
    ensures |r| == count && forall j :: 0 <= j < count ==> r[j] == p
  {
    if count == 0 then [] else Copies(p, count - 1) + [p]
  }

  /** What one pass of the loop of `_sfenHandToCaptured` does: end the loop with a result, or consume some text. */
  datatype HandStep = Stop(result: Result<(seq<Piece>, seq<Piece>)>) | Continue(used: nat, pp: seq<Piece>, cp: seq<Piece>)

  /**
   * One pass over the non-empty remaining text s: an optional digit run
   * gives the count (1 without one), trailing digits end the loop, a letter
   * outside the table is an error, and the case of the letter chooses the
   * side that receives the copies.
   */
  function HandPass(s: string, pp: seq<Piece>, cp: seq<Piece>): (r: HandStep)
    requires |s| > 0
    ensures r.Continue? ==> 0 < r.used <= |s|
  {
    var n := DigitRun(s);
    var count := if n > 0 then DigitsValue(s[..n]) else 1;
    if n == |s| then Stop(Ok((pp, cp)))
    else
      var ch := s[n];
      var kind := LetterKind(UpperChar(ch));
      if kind.None? then Stop(Err("Unknown hand piece: " + [ch]))
      else
        var piece := Piece(kind.value, OwnerOfCase(ch), false);
        if piece.owner == Player then Continue(n + 1, pp + Copies(piece, count), cp)
        else Continue(n + 1, pp, cp + Copies(piece, count))
  }

  /** The loop of `_sfenHandToCaptured` over the remaining text s. */
  function ParseHand(s: string, pp: seq<Piece>, cp: seq<Piece>): Result<(seq<Piece>, seq<Piece>)>
    decreases |s|
  {
    if |s| == 0 then Ok((pp, cp))
    else
      match HandPass(s, pp, cp)
      case Stop(r) => r
      case Continue(k, pp', cp') => ParseHand(s[k..], pp', cp')
  }

  /** `_sfenHandToCaptured(sfenHand)`: "-" is the empty hand. */
  function SfenHand(hand: string): Result<(seq<Piece>, seq<Piece>)>
  {
    if hand == "-" then Ok(([], [])) else ParseHand(hand, [], [])
  }

  /** `parseInt` of a digit run is its value. */
  lemma ParseDigits(d: string)
    requires |d| > 0 && forall j :: 0 <= j < |d| ==> IsDigit(d[j])
    ensures ParseInt(d) == Int(DigitsValue(d))
  {
    assert !IsSpace(d[0]);
    assert TrimStart(d) == d;
    LeadingDigitsAll(d);
  }

  /** `_sfenHandToCaptured`: "-" or a scan of counts and letters. */
  method SfenHandToCaptured(sfenHand: string) returns (r: Result<(seq<Piece>, seq<Piece>)>)
    ensures r == SfenHand(sfenHand)
  {
    if sfenHand == "-" {
      return Ok(([], []));
    }
    r := ScanHand(sfenHand);
  }

  /** The scanning loop of `_sfenHandToCaptured`. */
  method ScanHand(sfenHand: string) returns (r: Result<(seq<Piece>, seq<Piece>)>)
    ensures r == ParseHand(sfenHand, [], [])
  {
    var playerCaptured: seq<Piece> := [];
    var cpuCaptured: seq<Piece> := [];
    var i := 0;
    ghost var goal := ParseHand(sfenHand, [], []);
    assert sfenHand[i..] == sfenHand;
    while i < |sfenHand|
      invariant 0 <= i <= |sfenHand|
      invariant ParseHand(sfenHand[i..], playerCaptured, cpuCaptured) == goal
      decreases |sfenHand| - i
    {
      var step := ScanHandPass(sfenHand, i, playerCaptured, cpuCaptured);
      if step.Stop? {
        return step.result;
      }
      assert sfenHand[i..][step.used..] == sfenHand[i + step.used..];
      i, playerCaptured, cpuCaptured := i + step.used, step.pp, step.cp;
    }
    assert sfenHand[i..] == [];
    return Ok((playerCaptured, cpuCaptured));
  }

  /** One pass of the scanning loop from index i0: the count, then the letter and its copies. */
  method ScanHandPass(sfenHand: string, i0: nat, playerCaptured: seq<Piece>, cpuCaptured: seq<Piece>) returns (step: HandStep)
    requires i0 < |sfenHand|
    ensures step == HandPass(sfenHand[i0..], playerCaptured, cpuCaptured)
  {
    var count, i := ReadHandCount(sfenHand, i0);
    if i >= |sfenHand| {
      return Stop(Ok((playerCaptured, cpuCaptured)));
    }
    var ch := sfenHand[i];
    var pieceType := LetterKind(UpperChar(ch));
    assert sfenHand[i0..][i - i0] == ch;
    assert sfenHand[i0..][..i - i0] == sfenHand[i0..i];
    if pieceType.None? {
      return Stop(Err("Unknown hand piece: " + [ch]));
    }
    var isUpperCase := ch == UpperChar(ch);
    var piece := Piece(pieceType.value, if isUpperCase then Player else Cpu, false);
    var pp, cp := playerCaptured, cpuCaptured;
    if isUpperCase {
      pp := PushCopies(pp, piece, count);
    } else {
      cp := PushCopies(cp, piece, count);
    }
    step := Continue(i + 1 - i0, pp, cp);
  }

  /** The push loop of `_sfenHandToCaptured`: count copies appended to the side's array. */
  method PushCopies(targetArray: seq<Piece>, piece: Piece, count: nat) returns (target: seq<Piece>)
    ensures target == targetArray + Copies(piece, count)
  {
    target := targetArray;
    for j := 0 to count
      invariant target == targetArray + Copies(piece, j)
    {
      target := target + [piece];
    }
  }

  /** The count in front of a letter in `_sfenHandToCaptured`, and where the letter is. */
  method ReadHandCount(sfenHand: string, i0: nat) returns (count: nat, i: nat)
    requires i0 < |sfenHand|
    ensures i == i0 + DigitRun(sfenHand[i0..]) && i <= |sfenHand|
    ensures count == if i > i0 then DigitsValue(sfenHand[i0..i]) else 1
  {
    i := i0;
    count := 1;
    if IsDigit(sfenHand[i]) {
      var numStr;
      numStr, i := ScanDigits(sfenHand, i0);
      ParseDigits(numStr);
      var parsed := ParseInt(numStr);
      count := parsed.n;
    }
    DigitRunIs(sfenHand[i0..], i - i0);
  }

  /** The digit loop of `_sfenHandToCaptured`: the longest run of digits from i0. */
  method ScanDigits(sfenHand: string, i0: nat) returns (numStr: string, i: nat)
    requires i0 < |sfenHand| && IsDigit(sfenHand[i0])
    ensures i0 < i <= |sfenHand| && numStr == sfenHand[i0..i]
    ensures forall j :: i0 <= j < i ==> IsDigit(sfenHand[j])
    ensures i == |sfenHand| || !IsDigit(sfenHand[i])
  {
    i := i0;
    numStr := "";
    while i < |sfenHand| && IsDigit(sfenHand[i])
      invariant i0 <= i <= |sfenHand|
      invariant numStr == sfenHand[i0..i]
      invariant forall j :: i0 <= j < i ==> IsDigit(sfenHand[j])
      invariant i == i0 ==> IsDigit(sfenHand[i0])
    {
      numStr := numStr + [sfenHand[i]];
      i := i + 1;
    }
  }

  /** A maximal run of k digits at the front of s is the digit run. */
  lemma {:induction false} DigitRunIs(s: string, k: nat)
    requires k <= |s| && forall j :: 0 <= j < k ==> IsDigit(s[j])
    requires k == |s| || !IsDigit(s[k])
    ensures DigitRun(s) == k
  {
    if k > 0 {
      DigitRunIs(s[1..], k - 1);
    }
  }

  /** ======== Hand round trip ======== */

  /** The pieces a hand string stands for, from position n of `HAND_PIECE_ORDER` on: unpromoted, of the given side. */
  function CanonFrom(items: seq<HandItem>, n: nat, side: Side): seq<Piece>
    requires n <= |HandOrder|
    decreases |HandOrder| - n
  {
    if n == |HandOrder| then []
    else
      var kind := HandKind(HandOrder[n]);
      Copies(Piece(kind, side, false), CountOf(items, Some(kind))) + CanonFrom(items, n + 1, side)
  }

  /** A side's pieces as they come back from its hand string: grouped by kind in `HAND_PIECE_ORDER`. */
  function Canon(items: seq<HandItem>, side: Side): seq<Piece>
  {
    CanonFrom(items, 0, side)
  }

  /** A hand letter of either case reads back as its kind and side, and is not a digit. */
  lemma HandLetterFacts(n: nat, side: Side)
    requires n < |HandOrder|
    ensures var c := SideLetter(HandOrder[n], side);
            UpperChar(c) == HandOrder[n] && OwnerOfCase(c) == side && !IsDigit(c)
            && LetterKind(HandOrder[n]) == Some(HandKind(HandOrder[n]))
  {
  }

  /** The digits of a count, then a non-digit: the digit run is the count's digits. */
  lemma CountDigitRun(d: string, rest: string)
    requires forall j :: 0 <= j < |d| ==> IsDigit(d[j])
    requires |rest| > 0 && !IsDigit(rest[0])
    ensures DigitRun(d + rest) == |d|
  {
    var s := d + rest;
    assert forall j :: 0 <= j < |d| ==> IsDigit(s[j]);
    DigitRunIs(s, |d|);
  }

  lemma AssocSeq<T>(a: seq<T>, b: seq<T>, c: seq<T>)
    ensures (a + b) + c == a + (b + c)
  {
  }

  lemma PrefixSnoc<T>(xs: seq<T>, i: nat)
    requires i < |xs|
    ensures xs[..i + 1] == xs[..i] + [xs[i]]
  {
  }

  /** The count in front of a letter: nothing for one piece, the digits otherwise; the run ends at the letter. */
  lemma EntryDigits(count: nat, c: char, rest: string)
    requires count > 0 && !IsDigit(c)
    ensures var digits := if count > 1 then NatToString(count) else "";
            var s := digits + ([c] + rest);
            DigitRun(s) == |digits| && |s| == |digits| + 1 + |rest|
            && s[|digits|] == c && s[|digits| + 1..] == rest
            && (if |digits| > 0 then DigitsValue(s[..|digits|]) else 1) == count
  {
    var digits := if count > 1 then NatToString(count) else "";
    var s := digits + ([c] + rest);
    CountDigitRun(digits, [c] + rest);
    assert s[..|digits|] == digits;
    assert s[|digits| + 1..] == rest;
    if count > 1 {
      NatToStringValue(count);
    }
  }

  /** One pass over a written non-empty entry consumes exactly that entry and adds its copies. */
  lemma EntryPass(count: nat, n: nat, side: Side, rest: string, pp: seq<Piece>, cp: seq<Piece>)
    requires n < |HandOrder| && count > 0
    ensures var piece := Piece(HandKind(HandOrder[n]), side, false);
            var s := HandEntry(count, HandOrder[n], side) + rest;
            |s| > |rest| && s[|s| - |rest|..] == rest
            && HandPass(s, pp, cp)
               == if side == Player then Continue(|s| - |rest|, pp + Copies(piece, count), cp)
                  else Continue(|s| - |rest|, pp, cp + Copies(piece, count))
  {
    var c := SideLetter(HandOrder[n], side);
    HandLetterFacts(n, side);
    var digits := if count > 1 then NatToString(count) else "";
    var s := HandEntry(count, HandOrder[n], side) + rest;
    assert s == digits + ([c] + rest);
    EntryDigits(count, c, rest);
    PassOne(s, |digits|, count, pp, cp);
  }

  /** A pass whose digit run of length k gives the count and ends at a hand letter. */
  lemma PassOne(s: string, k: nat, count: nat, pp: seq<Piece>, cp: seq<Piece>)
    requires k < |s| && DigitRun(s) == k
    requires (if k > 0 then DigitsValue(s[..k]) else 1) == count
    requires LetterKind(UpperChar(s[k])).Some?
    ensures var piece := Piece(LetterKind(UpperChar(s[k])).value, OwnerOfCase(s[k]), false);
            HandPass(s, pp, cp)
            == if piece.owner == Player then Continue(k + 1, pp + Copies(piece, count), cp)
               else Continue(k + 1, pp, cp + Copies(piece, count))
  {
  }

  /** Reading one written entry back adds its copies to the side's pieces. */
  lemma EntryParse(count: nat, n: nat, side: Side, rest: string, pp: seq<Piece>, cp: seq<Piece>)
    requires n < |HandOrder|
    ensures var piece := Piece(HandKind(HandOrder[n]), side, false);
            ParseHand(HandEntry(count, HandOrder[n], side) + rest, pp, cp)
            == if side == Player then ParseHand(rest, pp + Copies(piece, count), cp)
               else ParseHand(rest, pp, cp + Copies(piece, count))
  {
    if count == 0 {
      assert HandEntry(count, HandOrder[n], side) + rest == rest;
      assert pp + [] == pp && cp + [] == cp;
    } else {
      EntryPass(count, n, side, rest, pp, cp);
    }
  }

  /** One kind's entry read back: its copies go to the side, and the rest of the side's hand follows. */
  lemma HandPartParseStep(items: seq<HandItem>, n: nat, side: Side, rest: string, pp: seq<Piece>, cp: seq<Piece>)
    requires n < |HandOrder|
    ensures var kind := HandKind(HandOrder[n]);
            var copies := Copies(Piece(kind, side, false), CountOf(items, Some(kind)));
            CanonFrom(items, n, side) == copies + CanonFrom(items, n + 1, side)
            && ParseHand(HandPart(items, n, side) + rest, pp, cp)
               == if side == Player then ParseHand(HandPart(items, n + 1, side) + rest, pp + copies, cp)
                  else ParseHand(HandPart(items, n + 1, side) + rest, pp, cp + copies)
  {
    var count := CountOf(items, Some(HandKind(HandOrder[n])));
    var tail := HandPart(items, n + 1, side);
    HandPartUnfold(items, n, side, rest);
    EntryParse(count, n, side, tail + rest, pp, cp);
  }

  lemma HandPartUnfold(items: seq<HandItem>, n: nat, side: Side, rest: string)
    requires n < |HandOrder|
    ensures HandPart(items, n, side) + rest
            == HandEntry(CountOf(items, Some(HandKind(HandOrder[n]))), HandOrder[n], side) + (HandPart(items, n + 1, side) + rest)
  {
  }

  /** Reading a side's written hand back, from position n on, adds that side's canonical pieces. */
  lemma {:induction false} HandPartParse(items: seq<HandItem>, n: nat, side: Side, rest: string, pp: seq<Piece>, cp: seq<Piece>)
    requires n <= |HandOrder|
    ensures ParseHand(HandPart(items, n, side) + rest, pp, cp)
            == if side == Player then ParseHand(rest, pp + CanonFrom(items, n, side), cp)
               else ParseHand(rest, pp, cp + CanonFrom(items, n, side))
    decreases |HandOrder| - n
  {
    if n == |HandOrder| {
      assert HandPart(items, n, side) + rest == rest;
      assert pp + [] == pp && cp + [] == cp;
    } else {
      var kind := HandKind(HandOrder[n]);
      var copies := Copies(Piece(kind, side, false), CountOf(items, Some(kind)));
      var later := CanonFrom(items, n + 1, side);
      HandPartParseStep(items, n, side, rest, pp, cp);
      if side == Player {
        HandPartParse(items, n + 1, side, rest, pp + copies, cp);
        AssocSeq(pp, copies, later);
      } else {
        HandPartParse(items, n + 1, side, rest, pp, cp + copies);
        AssocSeq(cp, copies, later);
      }
    }
  }

  /** A side writes nothing exactly when it holds no piece of a hand kind. */
  lemma {:induction false} HandPartEmpty(items: seq<HandItem>, n: nat, side: Side)
    requires n <= |HandOrder|
    ensures HandPart(items, n, side) == "" <==> CanonFrom(items, n, side) == []
    decreases |HandOrder| - n
  {
    if n < |HandOrder| {
      HandPartEmpty(items, n + 1, side);
    }
  }

  /** The characters of a written hand: digits and letters only. */
  predicate HandChar(ch: char)
  {
    IsDigit(ch) || 'A' <= ch <= 'Z' || 'a' <= ch <= 'z'
  }

  predicate HandChars(s: string)
  {
    forall j :: 0 <= j < |s| ==> HandChar(s[j])
  }

  lemma HandCharsConcat(a: string, b: string)
    requires HandChars(a) && HandChars(b)
    ensures HandChars(a + b)
  {
    assert forall j :: 0 <= j < |a + b| ==> (a + b)[j] == (if j < |a| then a[j] else b[j - |a|]);
  }

  lemma EntryChars(count: nat, n: nat, side: Side)
    requires n < |HandOrder|
    ensures HandChars(HandEntry(count, HandOrder[n], side))
  {
    var c := SideLetter(HandOrder[n], side);
    assert HandChar(c);
    if count > 1 {
      var d := NatToString(count);
      assert HandChars(d);
      HandCharsConcat(d, [c]);
    }
  }

  lemma {:induction false} HandPartChars(items: seq<HandItem>, n: nat, side: Side)
    requires n <= |HandOrder|
    ensures HandChars(HandPart(items, n, side))
    decreases |HandOrder| - n
  {
    if n < |HandOrder| {
      HandPartChars(items, n + 1, side);
      var count := CountOf(items, Some(HandKind(HandOrder[n])));
      EntryChars(count, n, side);
      HandCharsConcat(HandEntry(count, HandOrder[n], side), HandPart(items, n + 1, side));
    }
  }

  /**
   * `_sfenHandToCaptured(_capturedToSfenHand(p, c))`: each side gets back
   * unpromoted pieces of its own, as many of each hand kind as it held,
   * grouped in `HAND_PIECE_ORDER`.
   */
  lemma HandRoundTrip(pp: seq<HandItem>, cp: seq<HandItem>)
    ensures SfenHand(HandText(pp, cp)) == Ok((Canon(pp, Player), Canon(cp, Cpu)))
  {
    var a := HandPart(pp, 0, Player);
    var b := HandPart(cp, 0, Cpu);
    var mine := Canon(pp, Player);
    var theirs := Canon(cp, Cpu);
    var t := a + b;
    if t == "" {
      HandPartEmpty(pp, 0, Player);
      HandPartEmpty(cp, 0, Cpu);
    } else {
      HandPartChars(pp, 0, Player);
      HandPartChars(cp, 0, Cpu);
      HandCharsConcat(a, b);
      assert HandChar(t[0]);
      assert HandText(pp, cp) == t;
      HandPartParse(pp, 0, Player, b, [], []);
      assert ParseHand(t, [], []) == ParseHand(b, [] + mine, []);
      assert [] + mine == mine;
      HandPartParse(cp, 0, Cpu, "", mine, []);
      assert b + "" == b;
      assert ParseHand(b, mine, []) == ParseHand("", mine, [] + theirs);
      assert [] + theirs == theirs;
    }
  }


  /** Elements counting under the same keys give the same counts. */
  lemma {:induction false} CountOfSameKeys(a: seq<HandItem>, b: seq<HandItem>, k: Option<PieceType>)
    requires |a| == |b| && forall i :: 0 <= i < |a| ==> BaseKey(a[i]) == BaseKey(b[i])
    ensures CountOf(a, k) == CountOf(b, k)
    decreases |a|
  {
    if |a| > 0 {
      CountOfSameKeys(a[..|a| - 1], b[..|b| - 1], k);
    }
  }

  lemma {:induction false} HandPartSameKeys(a: seq<HandItem>, b: seq<HandItem>, n: nat, side: Side)
    requires n <= |HandOrder|
    requires |a| == |b| && forall i :: 0 <= i < |a| ==> BaseKey(a[i]) == BaseKey(b[i])
    ensures HandPart(a, n, side) == HandPart(b, n, side)
    decreases |HandOrder| - n
  {
    if n < |HandOrder| {
      CountOfSameKeys(a, b, Some(HandKind(HandOrder[n])));
      HandPartSameKeys(a, b, n + 1, side);
    }
  }

  /** A promoted piece in a hand is written as its unpromoted kind: と counts as a pawn, 竜 as a rook. */
  lemma PromotedCountsAsBase(pp: seq<HandItem>, cp: seq<HandItem>, i: nat, p: Piece)
    requires i < |pp|
    ensures HandText(pp[i := PieceObject(p)], cp) == HandText(pp[i := PieceObject(p.(kind := CapturedKind(p.kind)))], cp)
  {
    var a := pp[i := PieceObject(p)];
    var b := pp[i := PieceObject(p.(kind := CapturedKind(p.kind)))];
    assert BaseKey(a[i]) == BaseKey(b[i]);
    HandPartSameKeys(a, b, 0, Player);
  }

  /** Plain type names count under "undefined", which no hand letter reads. */
  lemma {:induction false} NamesCountNothing(items: seq<HandItem>, k: PieceType)
    requires forall i :: 0 <= i < |items| ==> items[i].TypeName?
    ensures CountOf(items, Some(k)) == 0
    decreases |items|
  {
    if |items| > 0 {
      NamesCountNothing(items[..|items| - 1], k);
    }
  }

  lemma {:induction false} NamesWriteNothing(items: seq<HandItem>, n: nat, side: Side)
    requires n <= |HandOrder|
    requires forall i :: 0 <= i < |items| ==> items[i].TypeName?
    ensures HandPart(items, n, side) == ""
    decreases |HandOrder| - n
  {
    if n < |HandOrder| {
      NamesCountNothing(items, HandKind(HandOrder[n]));
      NamesWriteNothing(items, n + 1, side);
    }
  }

  /** Pools of plain type names, as the game keeps them, are written as the empty hand "-" whatever they hold. */
  lemma NamePoolsWriteEmptyHand(pp: seq<HandItem>, cp: seq<HandItem>)
    requires forall i :: 0 <= i < |pp| ==> pp[i].TypeName?
    requires forall i :: 0 <= i < |cp| ==> cp[i].TypeName?
    ensures HandText(pp, cp) == "-"
  {
    NamesWriteNothing(pp, 0, Player);
    NamesWriteNothing(cp, 0, Cpu);
  }

  /** A pawn in the player's hand, kept as a type name, is lost: the hand is written "-". */
  lemma PawnNameLost()
    ensures HandText([TypeName(Pawn)], []) == "-"
  {
    NamePoolsWriteEmptyHand([TypeName(Pawn)], []);
  }

  /**
   * The game's pools of type names as the counter reads them: each name as a
   * piece object of its side, so that `piece.type` is the name.
   */
  function AsPieces(names: seq<PieceType>, side: Side): seq<HandItem>
  {
    if |names| == 0 then []
    else AsPieces(names[..|names| - 1], side) + [PieceObject(Piece(names[|names| - 1], side, false))]
  }

  /** Pools of base kinds passed as pieces are counted exactly: kind k counts as often as the pool holds it. */
  lemma {:induction false} NamedCounts(names: seq<PieceType>, side: Side, k: PieceType)
    requires forall i :: 0 <= i < |names| ==> !IsPromotedKind(names[i])
    ensures CountOf(AsPieces(names, side), Some(k)) == multiset(names)[k]
    decreases |names|
  {
    if |names| > 0 {
      var init, last := names[..|names| - 1], names[|names| - 1];
      NamedCounts(init, side, k);
      var items := AsPieces(names, side);
      assert items[..|items| - 1] == AsPieces(init, side);
      assert names == init + [last];
      assert multiset(names) == multiset(init) + multiset{last};
    }
  }

  /**
   * With the pools passed as pieces, the hand text carries each side's pool:
   * every kind is written with the number of copies the pool holds, and the
   * text reads back as those pieces, grouped in `HAND_PIECE_ORDER`.
   */
  lemma NamedHandRoundTrip(pp: seq<PieceType>, cp: seq<PieceType>)
    requires forall i :: 0 <= i < |pp| ==> !IsPromotedKind(pp[i])
    requires forall i :: 0 <= i < |cp| ==> !IsPromotedKind(cp[i])
    ensures var a, b := AsPieces(pp, Player), AsPieces(cp, Cpu);
      SfenHand(HandText(a, b)) == Ok((Canon(a, Player), Canon(b, Cpu)))
      && forall k :: CountOf(a, Some(k)) == multiset(pp)[k] && CountOf(b, Some(k)) == multiset(cp)[k]
  {
    var a, b := AsPieces(pp, Player), AsPieces(cp, Cpu);
    HandRoundTrip(a, b);
    forall k
      ensures CountOf(a, Some(k)) == multiset(pp)[k] && CountOf(b, Some(k)) == multiset(cp)[k]
    {
      NamedCounts(pp, Player, k);
      NamedCounts(cp, Cpu, k);
    }
  }

  /** The same pawn passed as a piece is written "P". */
  lemma PawnPieceWritten()
    ensures HandText(AsPieces([Pawn], Player), []) == "P"
  {
    NamedCounts([Pawn], Player, Pawn);
    assert multiset([Pawn])[Pawn] == 1;
  }

  /** ======== The whole SFEN string ======== */

  /** The turn field: "b" for the player (sente), "w" for the CPU (gote). */
  function TurnText(side: Side): string
  {
    if side == Player then "b" else "w"
  }

  /** `boardToSfen(board, playerCaptured, cpuCaptured, currentPlayer, moveCount)`: four fields joined by spaces. */
  function SfenOf(b: Grid, pp: seq<HandItem>, cp: seq<HandItem>, currentPlayer: Side, moveCount: int): string
  {
    BoardText(b) + " " + TurnText(currentPlayer) + " " + HandText(pp, cp) + " " + IntToString(moveCount)
  }

  /** What `sfenToBoard` returns. */
  datatype Position = Position(board: Grid, currentPlayer: Side, playerCaptured: seq<Piece>, cpuCaptured: seq<Piece>, moveCount: int)

  /** `parseInt(movePart, 10) || 1`: NaN and 0 both become 1. */
  function MoveCountOf(movePart: string): int
  {
    match ParseInt(movePart)
    case NaN => 1
    case Int(n) => if n == 0 then 1 else n
  }

  /**
   * `sfenToBoard(sfen)`: fields after the fourth are ignored; any turn other
   * than "b" is the CPU's; the board is read before the hands, so a bad
   * board is the error reported when both are bad.
   */
  function ReadSfen(sfen: string): Result<Position>
  {
    var parts := Split(Trim(sfen), ' ');
    if |parts| < 4 then Err("Invalid SFEN format: expected 4 parts")
    else
      match SfenBoard(parts[0])
      case Err(m) => Err(m)
      case Ok(board) =>
        match SfenHand(parts[2])
        case Err(m) => Err(m)
        case Ok(hands) =>
          Ok(Position(board, if parts[1] == "b" then Player else Cpu, hands.0, hands.1, MoveCountOf(parts[3])))
  }

  /** `boardToSfen`: the board loop, the hand loops, then the four fields. */
  method BoardToSfen(board: Grid, playerCaptured: seq<HandItem>, cpuCaptured: seq<HandItem>, currentPlayer: Side, moveCount: int)
    returns (sfen: string)
    ensures sfen == SfenOf(board, playerCaptured, cpuCaptured, currentPlayer, moveCount)
  {
    var boardPart := BoardToSfenBoard(board);
    var turnPart := if currentPlayer == Player then "b" else "w";
    var handPart := CapturedToSfenHand(playerCaptured, cpuCaptured);
    var movePart := IntToString(moveCount);
    sfen := boardPart + " " + turnPart + " " + handPart + " " + movePart;
  }

  /** `sfenToBoard`: split, then the board loop and the hand loop. */
  method SfenToBoard(sfen: string) returns (r: Result<Position>)
    ensures r == ReadSfen(sfen)
  {
    var parts := Split(Trim(sfen), ' ');
    if |parts| < 4 {
      return Err("Invalid SFEN format: expected 4 parts");
    }
    var board := SfenBoardToBoard(parts[0]);
    if board.Err? {
      return Err(board.msg);
    }
    var hands := SfenHandToCaptured(parts[2]);
    if hands.Err? {
      return Err(hands.msg);
    }
    r := Ok(Position(board.value, if parts[1] == "b" then Player else Cpu, hands.value.0, hands.value.1, MoveCountOf(parts[3])));
  }

  /** `getInitialSfen()`. */
  function InitialSfen(): string
  {
    "lnsgkgsnl/1r5b1/ppppppppp/9/9/9/PPPPPPPPP/1B5R1/LNSGKGSNL b - 1"
  }

  /** The characters of a board text: row tokens and '/'. */
  predicate BoardChars(s: string)
  {
    forall j :: 0 <= j < |s| ==> TokenChar(s[j]) || s[j] == '/'
  }

  lemma {:induction false} JoinBoardChars(parts: seq<string>)
    requires forall k :: 0 <= k < |parts| ==> TokenChars(parts[k])
    ensures BoardChars(Join(parts, '/'))
    decreases |parts|
  {
    if |parts| > 1 {
      JoinBoardChars(parts[1..]);
      var a := parts[0] + ['/'];
      var t := Join(parts[1..], '/');
      assert BoardChars(a) by {
        assert TokenChars(parts[0]);
      }
      assert forall j :: 0 <= j < |a + t| ==> (a + t)[j] == (if j < |a| then a[j] else t[j - |a|]);
    } else if |parts| == 1 {
      assert TokenChars(parts[0]);
    }
  }

  /** A board text has no space, and starts with a row token. */
  lemma BoardTextShape(b: Grid)
    ensures BoardChars(BoardText(b)) && |BoardText(b)| > 0 && TokenChar(BoardText(b)[0])
  {
    var rows := RowTexts(b);
    forall k | 0 <= k < 9
      ensures TokenChars(rows[k])
    {
      RowTextChars(b, k, 0, 0);
    }
    JoinBoardChars(rows);
    RowTextNonEmpty(b, 0, 0, 0);
    assert BoardText(b) == rows[0] + ['/'] + Join(rows[1..], '/');
    assert BoardText(b)[0] == rows[0][0];
  }

  lemma NoSpaceIn(s: string)
    requires forall j :: 0 <= j < |s| ==> s[j] != ' '
    ensures ' ' !in s
  {
  }

  /** `toString()` of an integer has no space and ends in a digit. */
  lemma IntTextShape(n: int)
    ensures ' ' !in IntToString(n) && |IntToString(n)| > 0
    ensures IsDigit(IntToString(n)[|IntToString(n)| - 1])
  {
    var m := if n < 0 then -n else n;
    var d := NatToString(m);
    if n < 0 {
      assert IntToString(n) == "-" + d;
      assert forall j :: 0 <= j < |"-" + d| ==> ("-" + d)[j] != ' ';
    }
    NoSpaceIn(IntToString(n));
  }

  lemma HandTextShape(pp: seq<HandItem>, cp: seq<HandItem>)
    ensures ' ' !in HandText(pp, cp)
  {
    HandPartChars(pp, 0, Player);
    HandPartChars(cp, 0, Cpu);
    HandCharsConcat(HandPart(pp, 0, Player), HandPart(cp, 0, Cpu));
    var t := HandText(pp, cp);
    assert forall j :: 0 <= j < |t| ==> t[j] != ' ';
    NoSpaceIn(t);
  }

  /** `trim` leaves alone a string that neither starts nor ends with white space. */
  lemma TrimNothing(s: string)
    requires |s| > 0 && !IsSpace(s[0]) && !IsSpace(s[|s| - 1])
    ensures Trim(s) == s
  {
    assert TrimStart(s) == s;
    assert TrimEnd(s) == s;
  }

  lemma BoardTextNoSpace(b: Grid)
    ensures ' ' !in BoardText(b) && |BoardText(b)| > 0 && !IsSpace(BoardText(b)[0])
  {
    var t := BoardText(b);
    BoardTextShape(b);
    assert forall j :: 0 <= j < |t| ==> t[j] != ' ';
    NoSpaceIn(t);
  }

  /** Four space-free fields joined by spaces split back into the four. */
  lemma SplitFour(f0: string, f1: string, f2: string, f3: string)
    requires ' ' !in f0 && ' ' !in f1 && ' ' !in f2 && ' ' !in f3
    ensures Split(f0 + " " + f1 + " " + f2 + " " + f3, ' ') == [f0, f1, f2, f3]
  {
    var parts := [f0, f1, f2, f3];
    assert parts[1..] == [f1, f2, f3] && parts[1..][1..] == [f2, f3] && parts[1..][1..][1..] == [f3];
    assert Join([f2, f3], ' ') == f2 + " " + f3;
    assert Join([f1, f2, f3], ' ') == f1 + " " + (f2 + " " + f3);
    assert Join(parts, ' ') == f0 + " " + (f1 + " " + (f2 + " " + f3));
    AssocSeq(f1 + " ", f2 + " ", f3);
    AssocSeq(f1, " ", f2 + " ");
    AssocSeq(f0 + " ", f1 + " " + f2 + " ", f3);
    AssocSeq(f0 + " ", f1 + " " + f2, " ");
    AssocSeq(f0 + " ", f1 + " ", f2);
    AssocSeq(f0 + " ", f1, " ");
    assert f0 + " " + f1 + " " + f2 + " " + f3 == Join(parts, ' ');
    JoinSplit(parts, ' ');
  }

  /** Four fields joined by spaces, the first starting and the last ending with a non-space, are left alone by `trim`. */
  lemma TrimFour(f0: string, f1: string, f2: string, f3: string)
    requires |f0| > 0 && !IsSpace(f0[0]) && |f3| > 0 && IsDigit(f3[|f3| - 1])
    ensures Trim(f0 + " " + f1 + " " + f2 + " " + f3) == f0 + " " + f1 + " " + f2 + " " + f3
  {
    var s := f0 + " " + f1 + " " + f2 + " " + f3;
    assert s[0] == f0[0];
    assert s[|s| - 1] == f3[|f3| - 1];
    TrimNothing(s);
  }

  /** The four fields of `boardToSfen` come back apart when the string is trimmed and split on spaces. */
  lemma SfenFields(b: Grid, pp: seq<HandItem>, cp: seq<HandItem>, side: Side, n: int)
    ensures Trim(SfenOf(b, pp, cp, side, n)) == SfenOf(b, pp, cp, side, n)
    ensures Split(SfenOf(b, pp, cp, side, n), ' ') == [BoardText(b), TurnText(side), HandText(pp, cp), IntToString(n)]
  {
    var f0 := BoardText(b);
    var f3 := IntToString(n);
    BoardTextNoSpace(b);
    HandTextShape(pp, cp);
    IntTextShape(n);
    SplitFour(f0, TurnText(side), HandText(pp, cp), f3);
    TrimFour(f0, TurnText(side), HandText(pp, cp), f3);
  }

  /**
   * `sfenToBoard(boardToSfen(...))`: the board comes back with kings read
   * as 王, the hands come back canonical, the turn comes back, and the move
   * count comes back except that 0 reads as 1.
   */
  lemma SfenRoundTrip(b: Grid, pp: seq<HandItem>, cp: seq<HandItem>, side: Side, n: int)
    ensures ReadSfen(SfenOf(b, pp, cp, side, n))
            == Ok(Position(ReadBackBoard(b), side, Canon(pp, Player), Canon(cp, Cpu), if n == 0 then 1 else n))
  {
    SfenFields(b, pp, cp, side, n);
    BoardRoundTrip(b);
    HandRoundTrip(pp, cp);
    IntToStringParse(n);
  }

  /** The texts of the pieces row[c..], one after another. */
  function PiecesText(row: seq<Piece>, c: nat): string
    requires c <= |row|
    decreases |row| - c
  {
    if c == |row| then "" else PieceText(row[c]) + PiecesText(row, c + 1)
  }

  /** A row with a piece on every square from col on is the texts of those pieces. */
  lemma {:induction false} FullRowText(b: Grid, r: int, row: seq<Piece>, col: nat)
    requires 0 <= r < 9 && |row| == 9 && col <= 9
    requires forall c :: col <= c < 9 ==> At(b, r, c) == Some(row[c])
    ensures RowText(b, r, col, 0) == PiecesText(row, col)
    decreases 9 - col
  {
    if col < 9 {
      FullRowText(b, r, row, col + 1);
    }
  }

  lemma InitialRow0(b: Grid)
    requires forall r, c :: OnBoard(r, c) ==> At(b, r, c) == InitialCell(r, c)
    ensures RowText(b, 0, 0, 0) == "lnsgkgsnl"
  {
    var row := [Piece(Lance, Cpu, false), Piece(Knight, Cpu, false), Piece(Silver, Cpu, false), Piece(Gold, Cpu, false), Piece(Jewel, Cpu, false), Piece(Gold, Cpu, false), Piece(Silver, Cpu, false), Piece(Knight, Cpu, false), Piece(Lance, Cpu, false)];
    FullRowText(b, 0, row, 0);
    RowOfPiecesText0(row);
  }

  /** The computer's back-rank pieces are written in lower case. */
  lemma CpuBackRankTexts()
    ensures PieceText(Piece(Lance, Cpu, false)) == "l" && PieceText(Piece(Knight, Cpu, false)) == "n"
    ensures PieceText(Piece(Silver, Cpu, false)) == "s" && PieceText(Piece(Gold, Cpu, false)) == "g"
    ensures PieceText(Piece(Jewel, Cpu, false)) == "k"
  {
    assert LowerString("L") == "l";
    assert LowerString("N") == "n";
    assert LowerString("S") == "s";
    assert LowerString("G") == "g";
    assert LowerString("K") == "k";
  }

  lemma RowOfPiecesText0(row: seq<Piece>)
    requires row == [Piece(Lance, Cpu, false), Piece(Knight, Cpu, false), Piece(Silver, Cpu, false), Piece(Gold, Cpu, false), Piece(Jewel, Cpu, false), Piece(Gold, Cpu, false), Piece(Silver, Cpu, false), Piece(Knight, Cpu, false), Piece(Lance, Cpu, false)]
    ensures PiecesText(row, 0) == "lnsgkgsnl"
  {
    CpuBackRankTexts();
    assert PiecesText(row, 8) == "l";
    assert PiecesText(row, 7) == "nl";
    assert PiecesText(row, 6) == "snl";
    assert PiecesText(row, 5) == "gsnl";
    assert PiecesText(row, 4) == "kgsnl";
    assert PiecesText(row, 3) == "gkgsnl";
    assert PiecesText(row, 2) == "sgkgsnl";
    assert PiecesText(row, 1) == "nsgkgsnl";
    assert PiecesText(row, 0) == "lnsgkgsnl";
  }

  lemma InitialRow1(b: Grid)
    requires forall r, c :: OnBoard(r, c) ==> At(b, r, c) == InitialCell(r, c)
    ensures RowText(b, 1, 0, 0) == "1r5b1"
  {
    assert RowText(b, 1, 9, 1) == "1";
    assert RowText(b, 1, 8, 0) == "1";
    assert RowText(b, 1, 7, 5) == "5b1";
    assert RowText(b, 1, 6, 4) == "5b1";
    assert RowText(b, 1, 5, 3) == "5b1";
    assert RowText(b, 1, 4, 2) == "5b1";
    assert RowText(b, 1, 3, 1) == "5b1";
    assert RowText(b, 1, 2, 0) == "5b1";
    assert RowText(b, 1, 1, 1) == "1r5b1";
    assert RowText(b, 1, 0, 0) == "1r5b1";
  }

  lemma InitialRow2(b: Grid)
    requires forall r, c :: OnBoard(r, c) ==> At(b, r, c) == InitialCell(r, c)
    ensures RowText(b, 2, 0, 0) == "ppppppppp"
  {
    var row := [Piece(Pawn, Cpu, false), Piece(Pawn, Cpu, false), Piece(Pawn, Cpu, false), Piece(Pawn, Cpu, false), Piece(Pawn, Cpu, false), Piece(Pawn, Cpu, false), Piece(Pawn, Cpu, false), Piece(Pawn, Cpu, false), Piece(Pawn, Cpu, false)];
    FullRowText(b, 2, row, 0);
    RowOfPiecesText2(row);
  }

  lemma RowOfPiecesText2(row: seq<Piece>)
    requires row == [Piece(Pawn, Cpu, false), Piece(Pawn, Cpu, false), Piece(Pawn, Cpu, false), Piece(Pawn, Cpu, false), Piece(Pawn, Cpu, false), Piece(Pawn, Cpu, false), Piece(Pawn, Cpu, false), Piece(Pawn, Cpu, false), Piece(Pawn, Cpu, false)]
    ensures PiecesText(row, 0) == "ppppppppp"
  {
    assert PiecesText(row, 8) == "p";
    assert PiecesText(row, 7) == "pp";
    assert PiecesText(row, 6) == "ppp";
    assert PiecesText(row, 5) == "pppp";
    assert PiecesText(row, 4) == "ppppp";
    assert PiecesText(row, 3) == "pppppp";
    assert PiecesText(row, 2) == "ppppppp";
    assert PiecesText(row, 1) == "pppppppp";
    assert PiecesText(row, 0) == "ppppppppp";
  }

  lemma InitialRow3(b: Grid)
    requires forall r, c :: OnBoard(r, c) ==> At(b, r, c) == InitialCell(r, c)
    ensures RowText(b, 3, 0, 0) == "9"
  {
    assert RowText(b, 3, 9, 9) == "9";
    assert RowText(b, 3, 8, 8) == "9";
    assert RowText(b, 3, 7, 7) == "9";
    assert RowText(b, 3, 6, 6) == "9";
    assert RowText(b, 3, 5, 5) == "9";
    assert RowText(b, 3, 4, 4) == "9";
    assert RowText(b, 3, 3, 3) == "9";
    assert RowText(b, 3, 2, 2) == "9";
    assert RowText(b, 3, 1, 1) == "9";
    assert RowText(b, 3, 0, 0) == "9";
  }

  lemma InitialRow4(b: Grid)
    requires forall r, c :: OnBoard(r, c) ==> At(b, r, c) == InitialCell(r, c)
    ensures RowText(b, 4, 0, 0) == "9"
  {
    assert RowText(b, 4, 9, 9) == "9";
    assert RowText(b, 4, 8, 8) == "9";
    assert RowText(b, 4, 7, 7) == "9";
    assert RowText(b, 4, 6, 6) == "9";
    assert RowText(b, 4, 5, 5) == "9";
    assert RowText(b, 4, 4, 4) == "9";
    assert RowText(b, 4, 3, 3) == "9";
    assert RowText(b, 4, 2, 2) == "9";
    assert RowText(b, 4, 1, 1) == "9";
    assert RowText(b, 4, 0, 0) == "9";
  }

  lemma InitialRow5(b: Grid)
    requires forall r, c :: OnBoard(r, c) ==> At(b, r, c) == InitialCell(r, c)
    ensures RowText(b, 5, 0, 0) == "9"
  {
    assert RowText(b, 5, 9, 9) == "9";
    assert RowText(b, 5, 8, 8) == "9";
    assert RowText(b, 5, 7, 7) == "9";
    assert RowText(b, 5, 6, 6) == "9";
    assert RowText(b, 5, 5, 5) == "9";
    assert RowText(b, 5, 4, 4) == "9";
    assert RowText(b, 5, 3, 3) == "9";
    assert RowText(b, 5, 2, 2) == "9";
    assert RowText(b, 5, 1, 1) == "9";
    assert RowText(b, 5, 0, 0) == "9";
  }

  lemma InitialRow6(b: Grid)
    requires forall r, c :: OnBoard(r, c) ==> At(b, r, c) == InitialCell(r, c)
    ensures RowText(b, 6, 0, 0) == "PPPPPPPPP"
  {
    var row := [Piece(Pawn, Player, false), Piece(Pawn, Player, false), Piece(Pawn, Player, false), Piece(Pawn, Player, false), Piece(Pawn, Player, false), Piece(Pawn, Player, false), Piece(Pawn, Player, false), Piece(Pawn, Player, false), Piece(Pawn, Player, false)];
    FullRowText(b, 6, row, 0);
    RowOfPiecesText6(row);
  }

  lemma RowOfPiecesText6(row: seq<Piece>)
    requires row == [Piece(Pawn, Player, false), Piece(Pawn, Player, false), Piece(Pawn, Player, false), Piece(Pawn, Player, false), Piece(Pawn, Player, false), Piece(Pawn, Player, false), Piece(Pawn, Player, false), Piece(Pawn, Player, false), Piece(Pawn, Player, false)]
    ensures PiecesText(row, 0) == "PPPPPPPPP"
  {
    assert PiecesText(row, 8) == "P";
    assert PiecesText(row, 7) == "PP";
    assert PiecesText(row, 6) == "PPP";
    assert PiecesText(row, 5) == "PPPP";
    assert PiecesText(row, 4) == "PPPPP";
    assert PiecesText(row, 3) == "PPPPPP";
    assert PiecesText(row, 2) == "PPPPPPP";
    assert PiecesText(row, 1) == "PPPPPPPP";
    assert PiecesText(row, 0) == "PPPPPPPPP";
  }

  lemma InitialRow7(b: Grid)
    requires forall r, c :: OnBoard(r, c) ==> At(b, r, c) == InitialCell(r, c)
    ensures RowText(b, 7, 0, 0) == "1B5R1"
  {
    assert RowText(b, 7, 9, 1) == "1";
    assert RowText(b, 7, 8, 0) == "1";
    assert RowText(b, 7, 7, 5) == "5R1";
    assert RowText(b, 7, 6, 4) == "5R1";
    assert RowText(b, 7, 5, 3) == "5R1";
    assert RowText(b, 7, 4, 2) == "5R1";
    assert RowText(b, 7, 3, 1) == "5R1";
    assert RowText(b, 7, 2, 0) == "5R1";
    assert RowText(b, 7, 1, 1) == "1B5R1";
    assert RowText(b, 7, 0, 0) == "1B5R1";
  }

  lemma InitialRow8(b: Grid)
    requires forall r, c :: OnBoard(r, c) ==> At(b, r, c) == InitialCell(r, c)
    ensures RowText(b, 8, 0, 0) == "LNSGKGSNL"
  {
    var row := [Piece(Lance, Player, false), Piece(Knight, Player, false), Piece(Silver, Player, false), Piece(Gold, Player, false), Piece(King, Player, false), Piece(Gold, Player, false), Piece(Silver, Player, false), Piece(Knight, Player, false), Piece(Lance, Player, false)];
    FullRowText(b, 8, row, 0);
    RowOfPiecesText8(row);
  }

  lemma RowOfPiecesText8(row: seq<Piece>)
    requires row == [Piece(Lance, Player, false), Piece(Knight, Player, false), Piece(Silver, Player, false), Piece(Gold, Player, false), Piece(King, Player, false), Piece(Gold, Player, false), Piece(Silver, Player, false), Piece(Knight, Player, false), Piece(Lance, Player, false)]
    ensures PiecesText(row, 0) == "LNSGKGSNL"
  {
    assert PiecesText(row, 8) == "L";
    assert PiecesText(row, 7) == "NL";
    assert PiecesText(row, 6) == "SNL";
    assert PiecesText(row, 5) == "GSNL";
    assert PiecesText(row, 4) == "KGSNL";
    assert PiecesText(row, 3) == "GKGSNL";
    assert PiecesText(row, 2) == "SGKGSNL";
    assert PiecesText(row, 1) == "NSGKGSNL";
    assert PiecesText(row, 0) == "LNSGKGSNL";
  }

  /** The row texts of the starting position. */
  lemma InitialRowTexts(b: Grid)
    requires forall r, c :: OnBoard(r, c) ==> At(b, r, c) == InitialCell(r, c)
    ensures RowText(b, 0, 0, 0) == "lnsgkgsnl"
    ensures RowText(b, 1, 0, 0) == "1r5b1"
    ensures RowText(b, 2, 0, 0) == "ppppppppp"
    ensures RowText(b, 3, 0, 0) == "9"
    ensures RowText(b, 4, 0, 0) == "9"
    ensures RowText(b, 5, 0, 0) == "9"
    ensures RowText(b, 6, 0, 0) == "PPPPPPPPP"
    ensures RowText(b, 7, 0, 0) == "1B5R1"
    ensures RowText(b, 8, 0, 0) == "LNSGKGSNL"
  {
    InitialRow0(b);
    InitialRow1(b);
    InitialRow2(b);
    InitialRow3(b);
    InitialRow4(b);
    InitialRow5(b);
    InitialRow6(b);
    InitialRow7(b);
    InitialRow8(b);
  }

  /** Nine row texts of the starting position, joined by '/', make its board field. */
  lemma InitialBoardText(b: Grid)
    requires RowText(b, 0, 0, 0) == "lnsgkgsnl"
    requires RowText(b, 1, 0, 0) == "1r5b1"
    requires RowText(b, 2, 0, 0) == "ppppppppp"
    requires RowText(b, 3, 0, 0) == "9"
    requires RowText(b, 4, 0, 0) == "9"
    requires RowText(b, 5, 0, 0) == "9"
    requires RowText(b, 6, 0, 0) == "PPPPPPPPP"
    requires RowText(b, 7, 0, 0) == "1B5R1"
    requires RowText(b, 8, 0, 0) == "LNSGKGSNL"
    ensures BoardText(b) == "lnsgkgsnl/1r5b1/ppppppppp/9/9/9/PPPPPPPPP/1B5R1/LNSGKGSNL"
  {
    var rows := RowTexts(b);
    assert rows[0] == RowText(b, 0, 0, 0);
    assert rows[1] == RowText(b, 1, 0, 0);
    assert rows[2] == RowText(b, 2, 0, 0);
    assert rows[3] == RowText(b, 3, 0, 0);
    assert rows[4] == RowText(b, 4, 0, 0);
    assert rows[5] == RowText(b, 5, 0, 0);
    assert rows[6] == RowText(b, 6, 0, 0);
    assert rows[7] == RowText(b, 7, 0, 0);
    assert rows[8] == RowText(b, 8, 0, 0);
    JoinNine(rows);
    InitialChars0();
    InitialChars1();
    InitialChars2();
    InitialChars3();
  }

  /** `parts.join('/')` of nine parts, as a left-nested concatenation. */
  lemma JoinNine(rows: seq<string>)
    requires |rows| == 9
    ensures Join(rows, '/') == rows[0] + "/" + rows[1] + "/" + rows[2] + "/" + rows[3] + "/" + rows[4] + "/" + rows[5] + "/" + rows[6] + "/" + rows[7] + "/" + rows[8]
  {
    assert rows[8..] == [rows[8]];
    assert Join(rows, '/') == rows[0] + "/" + Join(rows[1..], '/');
    assert Join(rows[1..], '/') == rows[1] + "/" + Join(rows[2..], '/') by {
      assert rows[1..][1..] == rows[2..];
    }
    AssocSeq(rows[0] + "/", rows[1] + "/", Join(rows[2..], '/'));
    AssocSeq(rows[0] + "/", rows[1], "/");
    assert Join(rows[2..], '/') == rows[2] + "/" + Join(rows[3..], '/') by {
      assert rows[2..][1..] == rows[3..];
    }
    AssocSeq(rows[0] + "/" + rows[1] + "/", rows[2] + "/", Join(rows[3..], '/'));
    AssocSeq(rows[0] + "/" + rows[1] + "/", rows[2], "/");
    assert Join(rows[3..], '/') == rows[3] + "/" + Join(rows[4..], '/') by {
      assert rows[3..][1..] == rows[4..];
    }
    AssocSeq(rows[0] + "/" + rows[1] + "/" + rows[2] + "/", rows[3] + "/", Join(rows[4..], '/'));
    AssocSeq(rows[0] + "/" + rows[1] + "/" + rows[2] + "/", rows[3], "/");
    assert Join(rows[4..], '/') == rows[4] + "/" + Join(rows[5..], '/') by {
      assert rows[4..][1..] == rows[5..];
    }
    AssocSeq(rows[0] + "/" + rows[1] + "/" + rows[2] + "/" + rows[3] + "/", rows[4] + "/", Join(rows[5..], '/'));
    AssocSeq(rows[0] + "/" + rows[1] + "/" + rows[2] + "/" + rows[3] + "/", rows[4], "/");
    assert Join(rows[5..], '/') == rows[5] + "/" + Join(rows[6..], '/') by {
      assert rows[5..][1..] == rows[6..];
    }
    AssocSeq(rows[0] + "/" + rows[1] + "/" + rows[2] + "/" + rows[3] + "/" + rows[4] + "/", rows[5] + "/", Join(rows[6..], '/'));
    AssocSeq(rows[0] + "/" + rows[1] + "/" + rows[2] + "/" + rows[3] + "/" + rows[4] + "/", rows[5], "/");
    assert Join(rows[6..], '/') == rows[6] + "/" + Join(rows[7..], '/') by {
      assert rows[6..][1..] == rows[7..];
    }
    AssocSeq(rows[0] + "/" + rows[1] + "/" + rows[2] + "/" + rows[3] + "/" + rows[4] + "/" + rows[5] + "/", rows[6] + "/", Join(rows[7..], '/'));
    AssocSeq(rows[0] + "/" + rows[1] + "/" + rows[2] + "/" + rows[3] + "/" + rows[4] + "/" + rows[5] + "/", rows[6], "/");
    assert Join(rows[7..], '/') == rows[7] + "/" + Join(rows[8..], '/') by {
      assert rows[7..][1..] == rows[8..];
    }
    AssocSeq(rows[0] + "/" + rows[1] + "/" + rows[2] + "/" + rows[3] + "/" + rows[4] + "/" + rows[5] + "/" + rows[6] + "/", rows[7] + "/", Join(rows[8..], '/'));
    AssocSeq(rows[0] + "/" + rows[1] + "/" + rows[2] + "/" + rows[3] + "/" + rows[4] + "/" + rows[5] + "/" + rows[6] + "/", rows[7], "/");
  }

  lemma InitialChars0()
    ensures "lnsgkgsnl" + "/" + "1r5b1" + "/" + "ppppppppp" == "lnsgkgsnl/1r5b1/ppppppppp"
  {
    assert "lnsgkgsnl" + "/" == "lnsgkgsnl/";
    assert "lnsgkgsnl/" + "1r5b1" == "lnsgkgsnl/1r5b1";
    assert "lnsgkgsnl/1r5b1" + "/" == "lnsgkgsnl/1r5b1/";
    assert "lnsgkgsnl/1r5b1/" + "ppppppppp" == "lnsgkgsnl/1r5b1/ppppppppp";
  }

  lemma InitialChars1()
    ensures "lnsgkgsnl/1r5b1/ppppppppp" + "/" + "9" + "/" + "9" == "lnsgkgsnl/1r5b1/ppppppppp/9/9"
  {
    assert "lnsgkgsnl/1r5b1/ppppppppp" + "/" == "lnsgkgsnl/1r5b1/ppppppppp/";
    assert "lnsgkgsnl/1r5b1/ppppppppp/" + "9" == "lnsgkgsnl/1r5b1/ppppppppp/9";
    assert "lnsgkgsnl/1r5b1/ppppppppp/9" + "/" == "lnsgkgsnl/1r5b1/ppppppppp/9/";
    assert "lnsgkgsnl/1r5b1/ppppppppp/9/" + "9" == "lnsgkgsnl/1r5b1/ppppppppp/9/9";
  }

  lemma InitialChars2()
    ensures "lnsgkgsnl/1r5b1/ppppppppp/9/9" + "/" + "9" + "/" + "PPPPPPPPP" == "lnsgkgsnl/1r5b1/ppppppppp/9/9/9/PPPPPPPPP"
  {
    assert "lnsgkgsnl/1r5b1/ppppppppp/9/9" + "/" == "lnsgkgsnl/1r5b1/ppppppppp/9/9/";
    assert "lnsgkgsnl/1r5b1/ppppppppp/9/9/" + "9" == "lnsgkgsnl/1r5b1/ppppppppp/9/9/9";
    assert "lnsgkgsnl/1r5b1/ppppppppp/9/9/9" + "/" == "lnsgkgsnl/1r5b1/ppppppppp/9/9/9/";
    assert "lnsgkgsnl/1r5b1/ppppppppp/9/9/9/" + "PPPPPPPPP" == "lnsgkgsnl/1r5b1/ppppppppp/9/9/9/PPPPPPPPP";
  }

  lemma InitialChars3()
    ensures "lnsgkgsnl/1r5b1/ppppppppp/9/9/9/PPPPPPPPP" + "/" + "1B5R1" + "/" + "LNSGKGSNL" == "lnsgkgsnl/1r5b1/ppppppppp/9/9/9/PPPPPPPPP/1B5R1/LNSGKGSNL"
  {
    assert "lnsgkgsnl/1r5b1/ppppppppp/9/9/9/PPPPPPPPP" + "/" == "lnsgkgsnl/1r5b1/ppppppppp/9/9/9/PPPPPPPPP/";
    assert "lnsgkgsnl/1r5b1/ppppppppp/9/9/9/PPPPPPPPP/" + "1B5R1" == "lnsgkgsnl/1r5b1/ppppppppp/9/9/9/PPPPPPPPP/1B5R1";
    assert "lnsgkgsnl/1r5b1/ppppppppp/9/9/9/PPPPPPPPP/1B5R1" + "/" == "lnsgkgsnl/1r5b1/ppppppppp/9/9/9/PPPPPPPPP/1B5R1/";
    assert "lnsgkgsnl/1r5b1/ppppppppp/9/9/9/PPPPPPPPP/1B5R1/" + "LNSGKGSNL" == "lnsgkgsnl/1r5b1/ppppppppp/9/9/9/PPPPPPPPP/1B5R1/LNSGKGSNL";
  }

  lemma InitialChars4()
    ensures "lnsgkgsnl/1r5b1/ppppppppp/9/9/9/PPPPPPPPP/1B5R1/LNSGKGSNL" + " " + "b" + " " + "-" == "lnsgkgsnl/1r5b1/ppppppppp/9/9/9/PPPPPPPPP/1B5R1/LNSGKGSNL b -"
  {
    assert "lnsgkgsnl/1r5b1/ppppppppp/9/9/9/PPPPPPPPP/1B5R1/LNSGKGSNL" + " " == "lnsgkgsnl/1r5b1/ppppppppp/9/9/9/PPPPPPPPP/1B5R1/LNSGKGSNL ";
    assert "lnsgkgsnl/1r5b1/ppppppppp/9/9/9/PPPPPPPPP/1B5R1/LNSGKGSNL " + "b" == "lnsgkgsnl/1r5b1/ppppppppp/9/9/9/PPPPPPPPP/1B5R1/LNSGKGSNL b";
    assert "lnsgkgsnl/1r5b1/ppppppppp/9/9/9/PPPPPPPPP/1B5R1/LNSGKGSNL b" + " " == "lnsgkgsnl/1r5b1/ppppppppp/9/9/9/PPPPPPPPP/1B5R1/LNSGKGSNL b ";
    assert "lnsgkgsnl/1r5b1/ppppppppp/9/9/9/PPPPPPPPP/1B5R1/LNSGKGSNL b " + "-" == "lnsgkgsnl/1r5b1/ppppppppp/9/9/9/PPPPPPPPP/1B5R1/LNSGKGSNL b -";
  }

  lemma InitialChars5()
    ensures "lnsgkgsnl/1r5b1/ppppppppp/9/9/9/PPPPPPPPP/1B5R1/LNSGKGSNL b -" + " " + "1" == "lnsgkgsnl/1r5b1/ppppppppp/9/9/9/PPPPPPPPP/1B5R1/LNSGKGSNL b - 1"
  {
    assert "lnsgkgsnl/1r5b1/ppppppppp/9/9/9/PPPPPPPPP/1B5R1/LNSGKGSNL b -" + " " == "lnsgkgsnl/1r5b1/ppppppppp/9/9/9/PPPPPPPPP/1B5R1/LNSGKGSNL b - ";
    assert "lnsgkgsnl/1r5b1/ppppppppp/9/9/9/PPPPPPPPP/1B5R1/LNSGKGSNL b - " + "1" == "lnsgkgsnl/1r5b1/ppppppppp/9/9/9/PPPPPPPPP/1B5R1/LNSGKGSNL b - 1";
  }

  /** The board field written for `initializeBoard()`. */
  lemma InitialBoardField()
    ensures BoardText(InitialBoard()) == "lnsgkgsnl/1r5b1/ppppppppp/9/9/9/PPPPPPPPP/1B5R1/LNSGKGSNL"
  {
    var b := InitialBoard();
    InitialRowTexts(b);
    InitialBoardText(b);
  }

  /** `getInitialSfen()` is what `boardToSfen` writes for the starting position with empty hands. */
  lemma InitialSfenIsStart()
    ensures SfenOf(InitialBoard(), [], [], Player, 1) == InitialSfen()
  {
    var b := InitialBoard();
    InitialRowTexts(b);
    InitialBoardText(b);
    NamePoolsWriteEmptyHand([], []);
    assert IntToString(1) == "1";
    InitialChars4();
    InitialChars5();
  }
}
