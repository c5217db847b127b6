/**
 * The static piece data of the game: the two sides, the fifteen piece type
 * names, the movement offset table, promotion data, material values and the
 * piece-square tables.
 */
module Pieces {
  import opened Wrappers

  /** The human (moves up the board, rows decreasing) and the computer. */
  datatype Side = Player | Cpu

  function Opponent(s: Side): (o: Side)
    ensures o != s
  {
    if s == Player then Cpu else Player
  }

  /** The strings 'player' and 'cpu' that the game stores. */
  function SideName(s: Side): string
  {
    if s == Player then "player" else "cpu"
  }

  /**
   * One constructor per type string of the source:
   * 歩 香 桂 銀 金 角 飛 王 玉 and the promoted !と !杏 !圭 !全 !馬 !竜.
   * King is 王 (the player's king), Jewel is 玉 (the computer's king).
   */
  datatype PieceType =
    | Pawn | Lance | Knight | Silver | Gold | Bishop | Rook | King | Jewel
    | Tokin | PromotedLance | PromotedKnight | PromotedSilver | Horse | Dragon

  /** The type string the game stores in `piece.type` and in the captured pools. */
  function Name(t: PieceType): string
  {
    match t
    case Pawn => "歩"
    case Lance => "香"
    case Knight => "桂"
    case Silver => "銀"
    case Gold => "金"
    case Bishop => "角"
    case Rook => "飛"
    case King => "王"
    case Jewel => "玉"
    case Tokin => "!と"
    case PromotedLance => "!杏"
    case PromotedKnight => "!圭"
    case PromotedSilver => "!全"
    case Horse => "!馬"
    case Dragon => "!竜"
  }

  /** The type a one-character name stands for. */
  function BaseOfChar(ch: char): Option<PieceType>
  {
    match ch
    case '歩' => Some(Pawn)
    case '香' => Some(Lance)
    case '桂' => Some(Knight)
    case '銀' => Some(Silver)
    case '金' => Some(Gold)
    case '角' => Some(Bishop)
    case '飛' => Some(Rook)
    case '王' => Some(King)
    case '玉' => Some(Jewel)
    case _ => None
  }

  /** The promoted type whose name is '!' followed by ch. */
  function PromotedOfChar(ch: char): Option<PieceType>
  {
    match ch
    case 'と' => Some(Tokin)
    case '杏' => Some(PromotedLance)
    case '圭' => Some(PromotedKnight)
    case '全' => Some(PromotedSilver)
    case '馬' => Some(Horse)
    case '竜' => Some(Dragon)
    case _ => None
  }

  /** The type a type string names, if any. */
  function KindOfName(s: string): Option<PieceType>
  {
    if |s| == 1 then BaseOfChar(s[0])
    else if |s| == 2 && s[0] == '!' then PromotedOfChar(s[1])
    else None
  }

  /**
   * Every type string reads back as its type, so different types have
   * different names; a name is one or two characters, each '!' or a CJK
   * character (above U+2FFF), so it holds no ASCII letter, digit or
   * punctuation used as a separator.
   */
  lemma NameFacts(t: PieceType)
    ensures KindOfName(Name(t)) == Some(t)
    ensures 1 <= |Name(t)| <= 2
    ensures forall j :: 0 <= j < |Name(t)| ==> Name(t)[j] == '!' || Name(t)[j] > '\U{2FFF}'
  {
  }

  lemma NameInjective(a: PieceType, b: PieceType)
    requires Name(a) == Name(b)
    ensures a == b
  {
    NameFacts(a);
    NameFacts(b);
  }

  /** The side names are ASCII lower-case words: "player" ends in 'r', "cpu" in 'u'. */
  lemma SideNameFacts(s: Side)
    ensures |SideName(s)| == (if s == Player then 6 else 3)
    ensures SideName(s)[|SideName(s)| - 1] == (if s == Player then 'r' else 'u')
    ensures SideName(s)[0] == (if s == Player then 'p' else 'c')
    ensures forall j :: 0 <= j < |SideName(s)| ==> 'a' <= SideName(s)[j] <= 'z'
  {
  }

  /** A piece on the board: `{ type, owner, promoted }`. */
  datatype Piece = Piece(kind: PieceType, owner: Side, promoted: bool)

  predicate IsKing(t: PieceType)
  {
    t == King || t == Jewel
  }

  /** The promoted types: those whose name starts with '!'. */
  predicate IsPromotedKind(t: PieceType)
  {
    t in {Tokin, PromotedLance, PromotedKnight, PromotedSilver, Horse, Dragon}
  }

  /** An offset (dx, dy) as written for the player: dy < 0 is forward. */
  type Offset = (int, int)

  /** The offsets (k*dx, k*dy) for k = 1..8: one sliding ray. */
  function Ray(dx: int, dy: int): seq<Offset>
  {
    seq(8, k => (dx * (k + 1), dy * (k + 1)))
  }

  /** The `moves` lists of the PIECES table, in table order. */
  function Offsets(t: PieceType): seq<Offset>
  {
    match t
    case Pawn => [(0, -1)]
    case Lance => Ray(0, -1)
    case Knight => [(-1, -2), (1, -2)]
    case Silver => [(-1, -1), (0, -1), (1, -1), (-1, 1), (1, 1)]
    case Gold => GoldOffsets()
    case Bishop => Ray(-1, -1) + Ray(1, -1) + Ray(-1, 1) + Ray(1, 1)
    case Rook => Ray(0, -1) + Ray(0, 1) + Ray(-1, 0) + Ray(1, 0)
    case King => KingOffsets()
    case Jewel => KingOffsets()
    case Tokin => GoldOffsets()
    case PromotedLance => GoldOffsets()
    case PromotedKnight => GoldOffsets()
    case PromotedSilver => GoldOffsets()
    case Horse => Ray(-1, -1) + Ray(1, -1) + Ray(-1, 1) + Ray(1, 1) + [(0, -1), (0, 1), (-1, 0), (1, 0)]
    case Dragon => Ray(0, -1) + Ray(0, 1) + Ray(-1, 0) + Ray(1, 0) + [(-1, -1), (1, -1), (-1, 1), (1, 1)]
  }

  function GoldOffsets(): seq<Offset>
  {
    [(-1, -1), (0, -1), (1, -1), (-1, 0), (1, 0), (0, 1)]
  }

  function KingOffsets(): seq<Offset>
  {
    [(-1, -1), (0, -1), (1, -1), (-1, 0), (1, 0), (-1, 1), (0, 1), (1, 1)]
  }

  /** The pieces whose moves stop at the first occupied square: 飛 角 香 !馬 !竜. */
  predicate IsSliding(t: PieceType)
  {
    t in {Rook, Bishop, Lance, Horse, Dragon}
  }

  /** `PIECES[t].canPromote`. */
  predicate CanPromote(t: PieceType)
  {
    t in {Pawn, Lance, Knight, Silver, Bishop, Rook}
  }

  /** `PIECES[t].promoted`: the promoted type, or null. */
  function PromotesTo(t: PieceType): (r: Option<PieceType>)
    ensures r.Some? <==> CanPromote(t)
    ensures r.Some? ==> IsPromotedKind(r.value)
  {
    match t
    case Pawn => Some(Tokin)
    case Lance => Some(PromotedLance)
    case Knight => Some(PromotedKnight)
    case Silver => Some(PromotedSilver)
    case Bishop => Some(Horse)
    case Rook => Some(Dragon)
    case _ => None
  }

  /**
   * The type a captured piece is added to the pool as: the leading '!' is
   * stripped and と 杏 圭 全 馬 竜 become 歩 香 桂 銀 角 飛; other types stay.
   */
  function CapturedKind(t: PieceType): (r: PieceType)
    ensures !IsPromotedKind(r)
    ensures !IsPromotedKind(t) ==> r == t
    ensures IsPromotedKind(t) ==> PromotesTo(r) == Some(t)
  {
    match t
    case Tokin => Pawn
    case PromotedLance => Lance
    case PromotedKnight => Knight
    case PromotedSilver => Silver
    case Horse => Bishop
    case Dragon => Rook
    case _ => t
  }

  /** The `pieceValues` table of `orderMoves` and `evaluateBoard`. */
  function PieceValue(t: PieceType): int
  {
    match t
    case Pawn => 100
    case Lance => 300
    case Knight => 400
    case Silver => 500
    case Gold => 600
    case Bishop => 800
    case Rook => 1000
    case King => 100000
    case Jewel => 100000
    case Tokin => 700
    case PromotedLance => 700
    case PromotedKnight => 700
    case PromotedSilver => 700
    case Horse => 1000
    case Dragon => 1200
  }

  type Table = s: seq<seq<int>> | |s| == 9 && forall r :: 0 <= r < 9 ==> |s[r]| == 9
    witness seq(9, _ => seq(9, _ => 0))

  /** Add a constant to every entry of a table (the !馬 and !竜 tables). */
  function Plus(t: Table, k: int): Table
  {
    seq(9, r requires 0 <= r < 9 => seq(9, c requires 0 <= c < 9 => t[r][c] + k))
  }

  /**
   * PIECE_SQUARE_TABLES, written from the computer's side (row 0 is the
   * computer's back rank); 玉 shares 王's table, the four small promoted
   * pieces share 金's, and !馬, !竜 are 角, 飛 plus 20.
   */
  function Pst(t: PieceType): Table
  {
    match t
    case Pawn => PawnTable()
    case Lance => LanceTable()
    case Knight => KnightTable()
    case Silver => SilverTable()
    case Gold => GoldTable()
    case Bishop => BishopTable()
    case Rook => RookTable()
    case King => KingTable()
    case Jewel => KingTable()
    case Tokin => GoldTable()
    case PromotedLance => GoldTable()
    case PromotedKnight => GoldTable()
    case PromotedSilver => GoldTable()
    case Horse => Plus(BishopTable(), 20)
    case Dragon => Plus(RookTable(), 20)
  }

  function PawnTable(): Table
  {
    [[  0,   0,   0,   0,   0,   0,   0,   0,   0],
     [ 90,  95, 100, 105, 110, 105, 100,  95,  90],
     [ 70,  80,  90,  95, 100,  95,  90,  80,  70],
     [ 50,  60,  70,  75,  80,  75,  70,  60,  50],
     [ 30,  40,  50,  55,  60,  55,  50,  40,  30],
     [ 15,  20,  25,  30,  35,  30,  25,  20,  15],
     [  5,  10,  10,  15,  20,  15,  10,  10,   5],
     [  0,   0,   0,   0,   0,   0,   0,   0,   0],
     [  0,   0,   0,   0,   0,   0,   0,   0,   0]]
  }

  function LanceTable(): Table
  {
    [[  0,   0,   0,   0,   0,   0,   0,   0,   0],
     [ 50,  50,  50,  50,  50,  50,  50,  50,  50],
     [ 40,  40,  40,  45,  50,  45,  40,  40,  40],
     [ 30,  30,  35,  40,  45,  40,  35,  30,  30],
     [ 20,  25,  30,  35,  40,  35,  30,  25,  20],
     [ 10,  15,  20,  25,  30,  25,  20,  15,  10],
     [  5,  10,  10,  15,  20,  15,  10,  10,   5],
     [  0,   5,   5,  10,  10,  10,   5,   5,   0],
     [  0,   0,   0,   0,   0,   0,   0,   0,   0]]
  }

  function KnightTable(): Table
  {
    [[  0,   0,   0,   0,   0,   0,   0,   0,   0],
     [  0,   0,   0,   0,   0,   0,   0,   0,   0],
     [ 30,  40,  50,  55,  60,  55,  50,  40,  30],
     [ 25,  35,  45,  50,  55,  50,  45,  35,  25],
     [ 20,  30,  40,  45,  50,  45,  40,  30,  20],
     [ 15,  25,  35,  40,  45,  40,  35,  25,  15],
     [ 10,  15,  20,  25,  30,  25,  20,  15,  10],
     [  5,  10,  10,  15,  20,  15,  10,  10,   5],
     [  0,   0,   0,   0,   0,   0,   0,   0,   0]]
  }

  function SilverTable(): Table
  {
    [[  0,   5,  10,  15,  20,  15,  10,   5,   0],
     [ 20,  30,  40,  45,  50,  45,  40,  30,  20],
     [ 30,  40,  50,  55,  60,  55,  50,  40,  30],
     [ 35,  45,  55,  60,  65,  60,  55,  45,  35],
     [ 30,  40,  50,  55,  60,  55,  50,  40,  30],
     [ 25,  35,  45,  50,  55,  50,  45,  35,  25],
     [ 15,  25,  35,  40,  45,  40,  35,  25,  15],
     [ 10,  15,  20,  25,  30,  25,  20,  15,  10],
     [  0,   5,  10,  15,  20,  15,  10,   5,   0]]
  }

  function GoldTable(): Table
  {
    [[  5,  10,  15,  20,  25,  20,  15,  10,   5],
     [ 25,  35,  45,  50,  55,  50,  45,  35,  25],
     [ 35,  45,  55,  60,  65,  60,  55,  45,  35],
     [ 40,  50,  60,  65,  70,  65,  60,  50,  40],
     [ 35,  45,  55,  60,  65,  60,  55,  45,  35],
     [ 25,  35,  45,  50,  55,  50,  45,  35,  25],
     [ 15,  25,  35,  40,  45,  40,  35,  25,  15],
     [ 10,  15,  20,  30,  35,  30,  20,  15,  10],
     [  5,  10,  15,  25,  30,  25,  15,  10,   5]]
  }

  function BishopTable(): Table
  {
    [[ 10,  15,  20,  25,  30,  25,  20,  15,  10],
     [ 30,  40,  50,  55,  60,  55,  50,  40,  30],
     [ 40,  55,  65,  70,  75,  70,  65,  55,  40],
     [ 45,  60,  70,  80,  85,  80,  70,  60,  45],
     [ 40,  55,  65,  75,  80,  75,  65,  55,  40],
     [ 35,  50,  60,  65,  70,  65,  60,  50,  35],
     [ 25,  40,  50,  55,  60,  55,  50,  40,  25],
     [ 15,  25,  35,  40,  45,  40,  35,  25,  15],
     [ 10,  15,  20,  25,  30,  25,  20,  15,  10]]
  }

  function RookTable(): Table
  {
    [[ 20,  25,  30,  35,  40,  35,  30,  25,  20],
     [ 35,  45,  55,  60,  65,  60,  55,  45,  35],
     [ 40,  55,  65,  70,  75,  70,  65,  55,  40],
     [ 45,  60,  70,  80,  85,  80,  70,  60,  45],
     [ 45,  60,  70,  80,  85,  80,  70,  60,  45],
     [ 40,  55,  65,  70,  75,  70,  65,  55,  40],
     [ 30,  45,  55,  60,  65,  60,  55,  45,  30],
     [ 20,  30,  40,  45,  50,  45,  40,  30,  20],
     [ 15,  20,  25,  30,  35,  30,  25,  20,  15]]
  }

  function KingTable(): Table
  {
    [[  0,   0,   0,   0,   0,   0,   0,   0,   0],
     [  0,   5,  10,  10,  10,  10,  10,   5,   0],
     [  5,  10,  15,  15,  15,  15,  15,  10,   5],
     [ 10,  15,  20,  25,  25,  25,  20,  15,  10],
     [ 15,  20,  25,  30,  30,  30,  25,  20,  15],
     [ 20,  25,  30,  35,  35,  35,  30,  25,  20],
     [ 30,  35,  40,  45,  45,  45,  40,  35,  30],
     [ 40,  50,  55,  60,  60,  60,  55,  50,  40],
     [ 50,  60,  65,  70,  70,  70,  65,  60,  50]]
  }
}
