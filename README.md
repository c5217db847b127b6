# Shogi rules, search and notation: a Dafny model

This project models the core of a browser shogi game, in Dafny.

- **Rules engine.** The game keeps a 9×9 board, two captured-piece pools, a position history and a take-back stack. Its class generates and filters moves, detects check, checkmate and stalemate, and rules on drops, including nifu (two pawns on a file) and uchifuzume (mate by a dropped pawn). It promotes pieces, plays moves, and ends the game on repetition (sennichite) and perpetual check.
- **Search.** The computer opponent searches with minimax, alpha-beta pruning, a transposition table and MVV-LVA move ordering. Moves are tried in place and undone, and positions are scored by a piece-square evaluation.
- **Notation.** Two pure converters translate the internal board to and from SFEN, the USI position notation, and internal moves to and from USI move strings ("7g7f", "7g7d+", "P*5e").
- **Engine output.** A worker parses `info` and `bestmove` lines from the YaneuraOu engine.
- **Built-in engine.** A thin wrapper maps strength and option settings to a difficulty and picks the first best move at the root.

The modules:

- **`Pieces`.** The `PIECES` move tables, the promotion tables, piece values and piece-square tables.
- **`Board`.** Row-major 81-square boards and the starting position.
- **`Rules`.** Pseudo-moves, legal moves, check, drops and the list of all legal moves, as pure functions.
- **`Game`.** The class `ShogiGame`.
  - Its `board` is an `array<Cell>`.
  - Its pools, history and snapshot stack are `seq` fields that the methods reassign.
  - The transposition table is a `map`.
  - Each method is proved against a function of the old state.
- **`Hashing`.** `getBoardHash`, `getPositionHash` and `checkRepetition`.
- **`Search`.** The evaluation, move ordering, apply/undo, the transposition table, alpha-beta and the root loop.
  - Alpha-beta is written over a record of function values (`GameTree`), and `Shogi` instantiates it.
- **`Sfen`, `Usi`, `Worker`.** The converters and the engine line parsers.
  - `JsText` supplies the JavaScript string built-ins they rely on: `trim`, `split`, `indexOf`, `parseInt`, `toString`, `toUpperCase` and `toLowerCase`.
- **`Engine`.** The class `BuiltinEngine`.
- **`Positions` and `Opening`.** Two concrete positions examined through the rule functions: the corner mate of the test suite and the 30 opening moves.

The original's 2D arrays `board[r][c]` become `b[9*r + c]`. Piece types keep the game's own type strings (歩 香 桂 銀 金 角 飛 王 玉 and the promoted `!と` … `!竜`).

The repository's documentation and its code disagree once. The docstring of `toUsi` (shogi/src/ai/MoveConverter.js:35) gives `fromCol: 6` → "7g7f". The tables at MoveConverter.js:7 map column 6 to '3'. The model follows the tables.

## Model

| member | source | states |
|---|---|---|
| Pieces.Opponent | shogi/game.js:513 | the opponent of a side is the other side |
| Pieces.NameFacts | shogi/game.js:105-144 | each type string names exactly one piece type and is one or two characters long: `!` then a CJK glyph, or a glyph alone |
| Pieces.NameInjective | shogi/game.js:105-144 | distinct piece types have distinct type strings |
| Pieces.SideNameFacts | shogi/game.js:537 | "player" and "cpu" are lower-case words that differ in their first and last letters |
| Pieces.PromotesTo | shogi/game.js:105-144 | `PIECES[t].promoted` exists exactly for the kinds with `canPromote`, and is always a promoted kind |
| Pieces.CapturedKind | shogi/game.js:1009-1018 | a captured piece enters the pool as an unpromoted kind: a base kind unchanged, a promoted kind as the kind that promotes to it |
| Board.IdxInjective | shogi/game.js:292 | two on-board squares share a flat index exactly when they are the same square |
| Board.Put | shogi/game.js:1036-1037 | writing one square changes that square and no other |
| Board.RowColOf | shogi/game.js:533-534 | the index scan 0..80 visits every square once, in row-major order |
| Board.InitialLayout | shogi/game.js:290-327 | the starting board holds the CPU's pieces on rows 0-2 and the player's on rows 6-8, rows 3-5 empty, pawns exactly on rows 2 and 6, nothing promoted, and the only kings are 玉 at (0, 4) and 王 at (8, 4) |
| JsText.TrimStart | shogi/src/ai/MoveConverter.js:197 | `trim` drops exactly the leading white space: the result is a suffix that is empty or starts with a non-space |
| JsText.TrimEnd | shogi/src/ai/MoveConverter.js:197 | `trim` drops exactly the trailing white space: the result is a prefix that is empty or ends with a non-space |
| JsText.Trim | shogi/src/ai/SfenConverter.js:57 | a trimmed string neither starts nor ends with white space |
| JsText.IndexOf | shogi/src/ai/SfenConverter.js:132 | the first occurrence of a character, or the length when there is none |
| JsText.Split | shogi/src/ai/SfenConverter.js:132 | `split(sep)` gives at least one piece and no piece contains the separator |
| JsText.SplitJoin | shogi/src/ai/SfenConverter.js:123 | joining the pieces of a split with the same separator gives the string back |
| JsText.JoinSplit | shogi/src/ai/SfenConverter.js:123 | splitting a join of separator-free pieces gives the pieces back |
| JsText.StrLessIrreflexive | shogi/game.js:542 | the string order of `sort()` is irreflexive |
| JsText.StrLessTransitive | shogi/game.js:542 | the string order of `sort()` is transitive |
| JsText.StrLessTotal | shogi/game.js:542 | any two distinct strings are ordered one way or the other |
| JsText.SplitSpaces | shogi/src/ai/MoveConverter.js:197 | `split(/\s+/)` gives at least one piece, none containing white space |
| JsText.SplitSpacesWords | shogi/src/ai/MoveConverter.js:197 | on a non-empty trimmed string, every piece of `split(/\s+/)` is non-empty |
| JsText.DigitRun | shogi/src/ai/SfenConverter.js:246 | the length of the leading run of decimal digits |
| JsText.LeadingDigits | shogi/src/ai/workers/yaneuraou.worker.js:255 | `parseInt(s, 10)` is a number exactly when the text after the optional sign starts with a digit, and NaN otherwise; the number is the value of that digit run, negated after a '-' |
| JsText.ParseIntAt | shogi/src/ai/workers/yaneuraou.worker.js:255 | `parseInt(parts[i], 10)` past the end of the array reads `undefined` and gives NaN |
| JsText.NatToString | shogi/src/ai/SfenConverter.js:98 | `n.toString()` is a non-empty string of digits |
| JsText.NatToStringValue | shogi/src/ai/SfenConverter.js:98 | the digits of `n.toString()` denote n |
| JsText.IntToStringParse | shogi/src/ai/SfenConverter.js:46 | `parseInt(n.toString(), 10)` is n, for negative n too |
| JsText.LowerString | shogi/src/ai/SfenConverter.js:109 | `toLowerCase` maps each character and keeps the length |
| Usi.ColTablesInverse | shogi/src/ai/MoveConverter.js:7-12 | `COL_TO_USI` and `USI_TO_COL` are mutually inverse on columns 0..8 |
| Usi.RowTablesInverse | shogi/src/ai/MoveConverter.js:9-14 | `ROW_TO_USI` and `USI_TO_ROW` are mutually inverse on rows 0..8 |
| Usi.PieceTablesInverse | shogi/src/ai/MoveConverter.js:17-26 | `PIECE_TO_USI` covers exactly the seven unpromoted hand kinds 歩..飛, and `USI_TO_PIECE` is its inverse |
| Usi.ToUsi | shogi/src/ai/MoveConverter.js:39-58 | `toUsi` throws exactly for a drop whose `piece` and `pieceType` are both missing from `PIECE_TO_USI` |
| Usi.CoordinateToUsi | shogi/src/ai/MoveConverter.js:130-132 | a coordinate on the board is written with two characters |
| Usi.CoordinateRoundTrip | shogi/src/ai/MoveConverter.js:130-152 | `usiToCoordinate(coordinateToUsi(r, c))` is `{r, c}` on the board |
| Usi.CoordinateRoundTripBack | shogi/src/ai/MoveConverter.js:130-152 | a string `usiToCoordinate` accepts is on the board and is written back unchanged |
| Usi.BoardMoveRoundTrip | shogi/src/ai/MoveConverter.js:50-57 | for a board move on the board, `fromUsi(toUsi(m))` has the same squares and the same promote flag, and the given owner |
| Usi.DropRoundTrip | shogi/src/ai/MoveConverter.js:40-48 | for a drop of 歩..飛, `fromUsi(toUsi(d))` is a drop of the same kind on the same square (shogi/src/ai/MoveConverter.js:77-99) |
| Usi.DropErrorIff | shogi/src/ai/MoveConverter.js:42-45 | a drop throws exactly when neither `piece` nor `pieceType` is a hand kind |
| Usi.ToUsiValid | shogi/src/ai/MoveConverter.js:159-188 | every string `toUsi` returns for a move on the board passes `isValidUsi` |
| Usi.ValidIffParses | shogi/src/ai/MoveConverter.js:159-188 | `isValidUsi` holds exactly when `fromUsi` succeeds and, for a board move, the length is 4, or 5 with a final '+' |
| Usi.PromoteFlag | shogi/src/ai/MoveConverter.js:106 | a parsed board move has `promote` true exactly when the string is longer than 4 and its fifth character is '+' |
| Usi.FromUsiErrors | shogi/src/ai/MoveConverter.js:72-111 | `fromUsi` throws when the string is shorter than 4, the drop piece is unknown, or any coordinate is missing from its table |
| Usi.FromUsiOwner | shogi/src/ai/MoveConverter.js:71-121 | a parsed move carries the owner it was given |
| Usi.ParseUsiMoves | shogi/src/ai/MoveConverter.js:196-205 | the method returns the parse of the trimmed word list, starting with `startingPlayer` |
| Usi.ParseMoveList | shogi/src/ai/MoveConverter.js:200-204 | the `map` loop returns the parse of the word list, or the first word's error |
| Usi.ParseWordsAlternate | shogi/src/ai/MoveConverter.js:198-203 | on success there is one move per word, the i-th parsed with owner `startingPlayer` for even i and the opponent for odd i |
| Usi.ParseWordsFails | shogi/src/ai/MoveConverter.js:200-204 | parsing fails exactly when some word fails `fromUsi` under the owner of its position |
| Usi.BlankListFails | shogi/src/ai/MoveConverter.js:197 | a blank move list trims to "", splits into `[""]` and throws |
| Sfen.PieceToSfen | shogi/src/ai/SfenConverter.js:7-12 | a promoted kind is written with two characters, any other kind with one |
| Sfen.PieceTablesInverse | shogi/src/ai/SfenConverter.js:7-20 | `SFEN_TO_PIECE` maps each kind's SFEN letter back to its kind, except that 玉 reads back as 王 |
| Sfen.BoardToSfenBoard | shogi/src/ai/SfenConverter.js:84-124 | the nested loop yields the board text: nine row texts joined by '/' |
| Sfen.RowToSfen | shogi/src/ai/SfenConverter.js:88-120 | the inner loop over one row yields that row's text |
| Sfen.BoardTextRows | shogi/src/ai/SfenConverter.js:84-124 | the board text has nine '/'-separated rows; each covers exactly 9 squares and never has two digits in a row |
| Sfen.RowTextSquares | shogi/src/ai/SfenConverter.js:91-118 | the digits and piece tokens of a row stand for exactly 9 squares |
| Sfen.RowTextNoDigitPair | shogi/src/ai/SfenConverter.js:94-100 | consecutive empty squares collapse into a single digit |
| Sfen.PieceTextShape | shogi/src/ai/SfenConverter.js:102-112 | a piece token has no digit, starts with '+' exactly when the kind is promoted, and is lower case for the CPU and upper case for the player |
| Sfen.SfenBoardToBoard | shogi/src/ai/SfenConverter.js:130-194 | the parsing loop returns what `SfenBoard` specifies, error messages included |
| Sfen.ScanRow | shogi/src/ai/SfenConverter.js:143-190 | the `while` loop over one row equals the step-by-step row parse |
| Sfen.ParseRows | shogi/src/ai/SfenConverter.js:138-191 | parsed rows come out one per input row |
| Sfen.BoardRoundTrip | shogi/src/ai/SfenConverter.js:84-194 | parsing the board text of any board gives the board back, each piece with its owner and kind (玉 as 王) and `promoted` true exactly for promoted kinds |
| Sfen.CountCapturedPieces | shogi/src/ai/SfenConverter.js:285-293 | the count map has a key exactly for the base kinds present, holding their number, promoted kinds counted as their base |
| Sfen.CapturedToSfenHand | shogi/src/ai/SfenConverter.js:200-225 | the two loops yield the hand text: the player's hand, then the CPU's, or '-' when both are empty |
| Sfen.SideToSfenHand | shogi/src/ai/SfenConverter.js:207-222 | one loop over `HAND_PIECE_ORDER` yields that side's part of the hand text |
| Sfen.SfenHandToCaptured | shogi/src/ai/SfenConverter.js:231-279 | the parsing loop returns what `SfenHand` specifies |
| Sfen.ScanHand | shogi/src/ai/SfenConverter.js:239-276 | the `while` loop equals the pass-by-pass hand parse |
| Sfen.ReadHandCount | shogi/src/ai/SfenConverter.js:241-251 | the count is the value of the digit run, or 1 when there is none |
| Sfen.ScanDigits | shogi/src/ai/SfenConverter.js:245-249 | the inner loop collects exactly the maximal digit run |
| Sfen.PushCopies | shogi/src/ai/SfenConverter.js:267-273 | the `for` loop appends `count` copies of the piece |
| Sfen.Copies | shogi/src/ai/SfenConverter.js:267-273 | `count` copies of the piece, and nothing else |
| Sfen.HandPass | shogi/src/ai/SfenConverter.js:240-276 | each pass of the hand loop consumes at least one character |
| Sfen.ParseDigits | shogi/src/ai/SfenConverter.js:250 | `parseInt` of a digit run is its value |
| Sfen.HandPartParse | shogi/src/ai/SfenConverter.js:207-213 | parsing one side's hand text appends that side's pieces in `HAND_PIECE_ORDER` order (shogi/src/ai/SfenConverter.js:240-276) |
| Sfen.HandPartEmpty | shogi/src/ai/SfenConverter.js:210 | a side's hand text is empty exactly when it holds no hand piece |
| Sfen.HandRoundTrip | shogi/src/ai/SfenConverter.js:200-279 | parsing the hand text of two pools gives each side's pieces back, as unpromoted base kinds in the order R,B,G,S,N,L,P |
| Sfen.PromotedCountsAsBase | shogi/src/ai/SfenConverter.js:285-305 | a promoted piece in a pool is written exactly as its base kind |
| Sfen.NamePoolsWriteEmptyHand | shogi/game.js:227-235 | pools of plain type strings, the game's own pools, always write '-': hands never reach the SFEN (shogi/src/ai/SfenConverter.js:289) |
| Sfen.PawnNameLost | shogi/game.js:227-235 | as written, a pawn in the player's hand, kept as the type name 歩, is written as the empty hand "-" |
| Sfen.NamedCounts | shogi/src/ai/SfenConverter.js:285-293 | with the pools passed as pieces, the counter counts each kind exactly as often as the pool holds it |
| Sfen.NamedHandRoundTrip | shogi/src/ai/SfenConverter.js:200-293 | with the pools passed as pieces, the hand text writes every kind with its multiplicity in the pool and reads back as those pieces in the order R,B,G,S,N,L,P |
| Sfen.PawnPieceWritten | shogi/src/ai/SfenConverter.js:200-293 | the same pawn passed as a piece is written "P" |
| Sfen.BoardToSfen | shogi/src/ai/SfenConverter.js:35-49 | the method yields the four fields `board turn hand moveCount`, turn 'b' for the player and 'w' for the CPU |
| Sfen.SfenToBoard | shogi/src/ai/SfenConverter.js:56-70 | the method returns what `ReadSfen` specifies: an error for fewer than 4 fields, 'b' for the player and anything else for the CPU, and move count `parseInt(movePart, 10)`, replaced by 1 when that is NaN or 0 |
| Sfen.SfenFields | shogi/src/ai/SfenConverter.js:35-57 | an emitted SFEN is trimmed already and splits on ' ' into its four fields |
| Sfen.SfenRoundTrip | shogi/src/ai/SfenConverter.js:35-70 | `sfenToBoard(boardToSfen(b, pp, cp, side, n))` gives back the board, the side, both hands as base kinds, and n, or 1 when n is 0 |
| Sfen.InitialBoardText | shogi/src/ai/SfenConverter.js:77 | the nine row texts of the starting position, joined by '/', make the board field `lnsgkgsnl/1r5b1/ppppppppp/9/9/9/PPPPPPPPP/1B5R1/LNSGKGSNL` |
| Sfen.InitialBoardField | shogi/src/ai/SfenConverter.js:77 | the board field written for the board of `initializeBoard` (shogi/game.js:290-327) is `lnsgkgsnl/1r5b1/ppppppppp/9/9/9/PPPPPPPPP/1B5R1/LNSGKGSNL` |
| Sfen.InitialSfenIsStart | shogi/src/ai/SfenConverter.js:76-78 | `getInitialSfen()` equals `boardToSfen(initializeBoard(), [], [], 'player', 1)` (shogi/game.js:290-327) |
| Rules.Scale | shogi/game.js:444-449 | a unit step times k, the ray square k steps out |
| Rules.FirstKingInRow | shogi/game.js:499-507 | the scan of one row finds its first king of the side, or none exactly when the rest of the row has none |
| Rules.FindKingSound | shogi/game.js:496-510 | the king search finds a king of the side when there is one; with none, `isKingInCheck` is false |
| Rules.KingAfterRowsSound | shogi/game.js:499-508 | after the rows scanned so far, the king found belongs to the side, and none is found exactly when those rows hold none ('break' leaves only the inner loop) |
| Rules.PseudoOnBoard | shogi/game.js:435 | every pseudo-move lands on the board |
| Rules.PseudoMovesIff | shogi/game.js:431-468 | a square is a pseudo-move exactly when some offset of the piece's table, mirrored for the CPU, reaches it unblocked |
| Rules.SlidingMoves | shogi/game.js:439-466 | a destination is never a friendly piece; a sliding piece reaches a square only over empty squares, and always reaches an enemy piece behind empty squares |
| Rules.LegalPrefixIff | shogi/game.js:472-489 | the filter keeps exactly the candidates after which the mover's king is not in check |
| Rules.ValidMovesIff | shogi/game.js:421-493 | `getValidMoves(r, c)` lists exactly the pseudo-moves that leave the owner's king safe |
| Rules.AttackedBeforeIff | shogi/game.js:514-525 | the attack scan finds an attacker in the squares before n exactly when one exists there |
| Rules.KingInCheckIff | shogi/game.js:496-528 | a side is in check exactly when it has a king and some opponent piece's pseudo-moves include the king square |
| Rules.DeadDropMeansNoMove | shogi/game.js:719-728 | the drops forbidden on the last ranks are exactly those after which the piece could never move |
| Rules.PawnDropKeepsOnePerFile | shogi/game.js:708-715 | after a pawn drop that passes the nifu test, the file holds exactly one unpromoted pawn of the side |
| Rules.LegalMovesFound | shogi/game.js:790-820 | a non-empty legal move list implies `hasAnyLegalMove`, and a board piece with a valid move makes the list non-empty |
| Rules.UchifuzumeMates | shogi/game.js:752-786 | a pawn drop that `isUchifuzume` rejects would checkmate the opponent |
| Rules.AllLegalMovesWellFormed | shogi/game.js:1389-1433 | every generated move carries the moving piece from its square, or a kind from the mover's pool, and lands on the board |
| Rules.SquareMovesIff | shogi/game.js:1396-1407 | the moves generated for one square are exactly the side's piece there paired with each of its valid destinations |
| Rules.DropsOfKindsIff | shogi/game.js:1413-1430 | the drops generated are exactly the pool kinds on the squares where `canPlaceCapturedPiece` holds |
| Rules.AllLegalMovesIff | shogi/game.js:1389-1433 | `getAllLegalMoves` contains a move exactly when it is a valid board move of the side or an allowed drop of a kind in its pool |
| Game.ShogiGame.GetValidMoves | shogi/game.js:421-493 | returns `ValidMoves` of the board on entry, and the board is identical on return after the swap-and-restore |
| Game.ShogiGame.FilterSafe | shogi/game.js:472-489 | the filter loop keeps the candidates that leave the king safe, and restores the board |
| Game.ShogiGame.LeavesKingSafe | shogi/game.js:476-487 | one swap, check test and restore: the answer is `LeavesSafe` and the board is unchanged |
| Game.ShogiGame.CollectPseudoMoves | shogi/game.js:431-468 | the offset loop yields the pseudo-moves |
| Game.ShogiGame.OffsetTarget | shogi/game.js:432-466 | one offset yields its target exactly when it is on the board, unblocked and not friendly |
| Game.ShogiGame.RayBlocked | shogi/game.js:440-459 | the step loop reports a block exactly when some intermediate square is occupied or off the board |
| Game.ShogiGame.FindKingSquare | shogi/game.js:498-508 | the nested loop returns `FindKing` of the board |
| Game.ShogiGame.IsKingInCheck | shogi/game.js:496-528 | returns `KingInCheck` of the board on entry and leaves it unchanged |
| Game.ShogiGame.AttackInRow | shogi/game.js:515-524 | the scan up to the end of a row answers whether an attacker sits in those squares |
| Game.ShogiGame.AttackAt | shogi/game.js:516-522 | one square attacks the king exactly when it holds an opponent piece whose pseudo-moves include the king square |
| Game.ShogiGame.PawnOnFile | shogi/game.js:708-715 | the file scan finds an own unpromoted pawn exactly when nifu forbids the drop |
| Game.ShogiGame.CanPlaceCapturedPieceWithoutUchifuzume | shogi/game.js:823-858 | returns `CanDropNoUchi`: empty square, no nifu, no dead drop, own king not left in check; board restored |
| Game.ShogiGame.HasAnyLegalMove | shogi/game.js:790-820 | returns whether some board piece has a valid move or some pool kind can be dropped somewhere; board unchanged |
| Game.ShogiGame.RowHasMove | shogi/game.js:792-802 | a row scan that finds nothing proves that no square of the row has a move |
| Game.ShogiGame.SquareHasMove | shogi/game.js:794-799 | one square has a move exactly when it holds a piece of the side with a valid destination |
| Game.ShogiGame.DropAnywhere | shogi/game.js:808-817 | the square scan finds a drop of the kind exactly when one exists |
| Game.ShogiGame.IsUchifuzume | shogi/game.js:752-786 | returns `IsUchifuzume`; the board is unchanged, except that the placed pawn is cleared to null when it stood in front of the enemy king, exactly as the code leaves it |
| Game.ShogiGame.CanPlaceCapturedPiece | shogi/game.js:701-748 | returns `CanDrop`, which rejects an occupied square, nifu, a dead drop, uchifuzume and a drop leaving the own king in check; board unchanged |
| Game.ShogiGame.GetAllLegalMoves | shogi/game.js:1389-1433 | returns `AllLegalMoves`: board moves in square order, then drops kind by kind; board unchanged |
| Game.ShogiGame.BoardMoves | shogi/game.js:1393-1410 | the square loop yields the board moves of all 81 squares |
| Game.ShogiGame.PoolDrops | shogi/game.js:1413-1430 | the kind loop yields the drops of each distinct pool kind in first-occurrence order |
| Game.ShogiGame.PieceMoves | shogi/game.js:1395-1407 | one square yields its piece's valid moves as board moves |
| Game.ShogiGame.MovesForTargets | shogi/game.js:1398-1407 | each destination becomes one board move carrying the piece |
| Game.ShogiGame.DropsOfKind | shogi/game.js:1417-1429 | the square loop yields the allowed drops of one kind |
| Game.ShogiGame.DropsInRow | shogi/game.js:1417-1429 | after a row, the drops of the squares scanned so far |
| Game.ShogiGame.DropAt | shogi/game.js:1419-1427 | one square adds a drop exactly when `canPlaceCapturedPiece` holds there |
| Game.ShogiGame.IsCheckmate | shogi/game.js:628-634 | returns whether the side is in check with no legal move; board unchanged |
| Game.ShogiGame.IsStalemate | shogi/game.js:637-643 | returns whether the side is not in check and has no legal move; board unchanged |
| Game.ShogiGame.RecordPosition | shogi/game.js:548-559 | appends exactly one history entry, `Recorded`, and changes nothing else |
| Game.RecordedCounts | shogi/game.js:548-559 | the new entry raises the count of its own hash by one and no other; its checker is the previous mover exactly when the side to move is in check |
| Game.ShogiGame.EndGame | shogi/game.js:1812-1820 | sets `gameOver` and the winner, nothing else |
| Game.ShogiGame.EndGameDraw | shogi/game.js:677-681 | sets `gameOver` and a draw, nothing else |
| Game.ShogiGame.CheckGameEndConditions | shogi/game.js:646-674 | repetition first, then checkmate, then stalemate; returns true exactly when one of them ends the game |
| Game.Concluded | shogi/game.js:646-674 | only `gameOver` and the outcome change, and the game is over afterwards exactly when it was already or an end condition holds |
| Game.EndStateIff | shogi/game.js:646-674 | no end condition holds exactly when the hash occurs fewer than 4 times and a legal move exists; below 4, checkmate means the opponent wins and stalemate means a draw |
| Game.EndStateRepetition | shogi/game.js:648-658 | at a repetition, the opponent of X wins exactly when X gave perpetual check, and a draw follows exactly when neither did |
| Game.EndStateOnRepetition | shogi/game.js:648-658 | at a repetition, the result follows `checkRepetition`'s perpetual checker |
| Game.RepetitionVerdict | shogi/game.js:650-657 | a perpetual checker loses, otherwise it is a draw |
| Game.PromoteDecision | shogi/game.js:959-988 | a promotion is chosen only when one is allowed; a forced promotion always happens; the CPU promotes here exactly when forced; otherwise the player's choice decides |
| Game.ShogiGame.InitiateMove | shogi/game.js:959-988 | sets the pending move and completes it with `PromoteDecision` (the player's choice replaces the dialog) |
| Game.ShogiGame.CompleteMove | shogi/game.js:990-1075 | the new state is `CompleteMoveSpec`: snapshot for a player move, capture, king-capture end, move, promote, switch sides, record, end check |
| Game.CompletedPiece | shogi/game.js:1039-1043 | the piece changes exactly when promotion is asked for and it is unpromoted with `canPromote`; it then becomes its promoted kind |
| Game.CompleteMoveConserves | shogi/game.js:990-1075 | a completed non-capturing-king move keeps the number of pieces, adds one history entry, switches sides, clears the pending move and puts the completed piece on the target |
| Game.ShogiGame.TakeTarget | shogi/game.js:1085-1116 | a captured piece goes to the mover's pool as its base kind; the method reports whether it was a king |
| Game.ShogiGame.MakeMove | shogi/game.js:1077-1153 | the new state is `MakeMoveSpec`. This models the intended rule: promotion applies only to an unpromoted piece with `canPromote` (see Findings) |
| Game.MovedPiece | shogi/game.js:1122-1128 | intended rule: the piece promotes exactly when asked or a CPU piece reaches row 6 or beyond, and it is unpromoted with `canPromote` |
| Game.MovedAsWritten | shogi/game.js:1124-1127 | as written: the type becomes null exactly when promotion is asked for a kind without `canPromote` |
| Game.MakeMoveGoldPromotion | shogi/game.js:1124-1127 | as written, `makeMove(…, true)` on a CPU gold gives a null type; the intended rule leaves the gold unchanged |
| Game.MovedPieceAgrees | shogi/game.js:1122-1128 | wherever the code as written yields a type, it agrees with the intended rule |
| Game.MakeMoveConserves | shogi/game.js:1077-1153 | a move that does not take a king keeps the number of pieces, adds one history entry, switches sides, empties the origin and puts the moved piece on the target |
| Game.KingCaptureEnds | shogi/game.js:1111-1115 | capturing a king ends the game for the mover before the board changes: board, side and history are unchanged, and the king is in the pool |
| Game.ShogiGame.ShiftPiece | shogi/game.js:1118-1128 | target takes the moved piece, origin becomes null, sides switch |
| Game.ShogiGame.FinishMove | shogi/game.js:1143-1152 | records the position, then runs the end check |
| Game.Finish | shogi/game.js:1143-1152 | only the history grows, by one recorded entry, and only `gameOver` and the outcome may change |
| Game.TakeShiftConserves | shogi/game.js:1085-1128 | capture plus shift: pieces conserved, only origin and target change, and the mover's pool gains the base kind of the victim |
| Game.ShogiGame.ExecuteCpuDrop | shogi/game.js:1349-1386 | the new state is `CpuDropSpec`: snapshot, one copy removed from the CPU pool, piece placed, player to move, recorded, end check |
| Game.ShogiGame.DropStep | shogi/game.js:1353-1363 | removes the first copy from the pool (if any) and places the piece |
| Game.ShogiGame.TakeFromHand | shogi/game.js:872-875 | `indexOf` + `splice(index, 1)` removes the first copy from that side's pool only |
| Game.DroppingConserves | shogi/game.js:1353-1363 | a drop from the pool keeps the number of pieces and takes exactly one copy from the dropping side |
| Game.DropConserves | shogi/game.js:1349-1386 | after the drop and record the piece is on the square, the other side is to move, and the history has grown by one |
| Game.ShogiGame.PlaceCapturedPiece | shogi/game.js:860-906 | the new state is `PlaceSpec`: nothing when the drop is illegal, otherwise snapshot, drop, CPU to move, record, end check |
| Game.PlaceConserves | shogi/game.js:860-906 | the player's drop keeps the number of pieces, and changes the state exactly when `canPlaceCapturedPiece` allows it |
| Game.ValidateMoveIff | shogi/game.js:1295-1312 | a parsed engine move passes validation exactly when it is a legal drop of a pool kind or a valid move of the side's own piece |
| Game.ShogiGame.ExecuteAIMove | shogi/game.js:1318-1330 | a board move goes to `makeMove` with its promote flag, a drop to `executeCpuDrop` |
| Game.ShogiGame.SaveStateSnapshot | shogi/game.js:1827-1845 | pushes a snapshot, dropping the oldest beyond 100 |
| Game.Saved | shogi/game.js:1827-1845 | only the stack changes; its top is the current state; it never grows past 100 |
| Game.ShogiGame.Undo | shogi/game.js:1848-1886 | the new state and answer are `UndoSpec`: refused when the game is over, the CPU is to move or fewer than two snapshots exist; otherwise pops two and restores the second |
| Game.UndoTakesBackTwo | shogi/game.js:1848-1886 | a player move then a CPU move, each snapshotting, are undone back to the state before them |
| Game.ShogiGame.CpuTurnWithBuiltinAI | shogi/game.js:1226-1289 | the new state is `CpuTurnSpec`: resign when there is no legal move, otherwise play the chosen move; the table is cleared and refilled only for hard |
| Game.CpuChoice | shogi/game.js:1228-1280 | no choice exactly when there is no legal move, otherwise a legal move; medium with a capture available and the 70% branch picks a capture; hard picks a best root move |
| Game.RandomPick | shogi/game.js:1237-1249 | the move is legal; the capture branch picks a capture; otherwise it is `legalMoves[pick mod n]` |
| Game.CpuChoiceCases | shogi/game.js:1237-1280 | easy, medium and hard choose as their branches say, and hard picks among the tied best moves |
| Game.HardPick | shogi/game.js:1279 | the hard choice is a legal move with the best root score |
| Game.HardRootBest | shogi/game.js:1250-1280 | the tied-best list is non-empty and legal, each member scored the maximum, and no move scored above it |
| Game.Captures | shogi/game.js:1243 | the capture filter keeps exactly the board moves onto an occupied square |
| Game.Chosen | shogi/game.js:1256-1268 | choosing a move changes only the order of the pools (sorting by the position hash), as multisets they are unchanged |
| Game.CpuTurnResigned | shogi/game.js:1230-1233 | without legal moves the player wins and the table is untouched |
| Game.CpuTurnPlays | shogi/game.js:1282-1288 | the chosen move is applicable and is played |
| Game.CpuTurnConserves | shogi/game.js:1226-1289 | a CPU turn resigns, or ends by taking the king, or keeps the number of pieces, hands the move to the player and records one position |
| Game.PlayConserves | shogi/game.js:1282-1288 | playing a legal CPU move that does not take a king keeps the pieces, gives the move to the player and records one position |
| Game.ShogiGame.ApplyVirtualMove | shogi/game.js:1663-1734 | the new position and the undo record are `ApplyMove` of the old position |
| Game.ShogiGame.UndoVirtualMove | shogi/game.js:1737-1770 | the new position is `UndoMove` of the old one |
| Game.ShogiGame.GetPositionHash | shogi/game.js:1436-1446 | returns `PositionHash` and leaves both pools sorted in place, as the code does |
| Game.ShogiGame.SquaresKey | shogi/game.js:1438-1443 | the square loop yields the board part of the key |
| Game.ShogiGame.Minimax | shogi/game.js:1499-1574 | score and table are `Search(Shogi, …)` of the state on entry; the position afterwards has only its pools sorted |
| Game.ShogiGame.LookUp | shogi/game.js:1501-1508 | the table probe follows the depth test and the exact/lower/upper rules |
| Game.ShogiGame.Expand | shogi/game.js:1514-1573 | no legal move gives ∓1000000; otherwise the child loop's result is stored with its flag |
| Game.ShogiGame.SearchOrdered | shogi/game.js:1523-1573 | the ordered moves are searched and the entry stored, clearing first when the table is full |
| Game.ShogiGame.SearchChildren | shogi/game.js:1528-1564 | the alpha-beta loop over the children equals `SearchMoves` |
| Game.ShogiGame.SearchChild | shogi/game.js:1531-1533 | apply, search one level down, undo: the score is the child's search value |
| Game.ShogiGame.CpuMove | shogi/game.js:1235-1288 | choose, then play |
| Game.ShogiGame.ChooseCpuMove | shogi/game.js:1235-1280 | returns the choice `CpuChoice` makes |
| Game.ShogiGame.ChooseAtRandom | shogi/game.js:1237-1249 | the easy and medium branches return the choice `CpuChoice` makes |
| Game.ShogiGame.ChooseHard | shogi/game.js:1250-1280 | the hard branch returns the choice `CpuChoice` makes and leaves the table of the root search |
| Game.ShogiGame.PlayCpuMove | shogi/game.js:1282-1288 | a board move goes to `makeMove` without promote, a drop to `executeCpuDrop` |
| Game.ShogiGame.HardSearch | shogi/game.js:1252-1277 | clears the table, orders the moves and runs the root loop |
| Game.ShogiGame.RootSearch | shogi/game.js:1262-1277 | the root loop equals `RootOver` |
| Game.ShogiGame.RootChild | shogi/game.js:1266-1268 | one root child: apply, minimax at depth 3, undo |
| Hashing.SortKinds | shogi/game.js:542 | `sort()` on a pool gives a sorted permutation |
| Hashing.SortPermutation | shogi/game.js:542 | pools that are permutations of each other sort to the same sequence |
| Hashing.SortIdempotent | shogi/game.js:1444 | sorting a sorted pool changes nothing |
| Hashing.HashParts | shogi/game.js:531-545 | the hash splits on the bar character into the side, one segment per occupied square, and the pools |
| Hashing.BoardHashIff | shogi/game.js:531-545 | two states hash alike exactly when side, every square's type and owner, and both pools as multisets agree |
| Hashing.HashSeesSide | shogi/game.js:532 | changing the side to move changes the hash |
| Hashing.HashSeesMove | shogi/game.js:533-540 | moving a piece to a different square changes the hash |
| Hashing.HashSeesPool | shogi/game.js:542-543 | adding a kind to either pool changes the hash |
| Hashing.PositionHashSound | shogi/game.js:1436-1446 | equal boards (type and owner) and pools equal as multisets give equal position keys |
| Hashing.PositionHashConflatesHands | shogi/game.js:1444 | the position key cannot tell which hand a piece is in: `[t], []` and `[], [t]` collide |
| Hashing.SameIndices | shogi/game.js:578-585 | the index scan collects, in increasing order, the entries whose hash is the current one |
| Hashing.CountSameIndices | shogi/game.js:567-570 | the filter count equals the number of collected indices |
| Hashing.PerpetualScanIff | shogi/game.js:593-613 | the scan keeps a side's flag exactly when every entry from there on was checked by that side (a legacy entry clears both) |
| Hashing.CheckRepetitionIff | shogi/game.js:563-625 | a repetition exactly when the hash occurs at least 4 times; checker X exactly when, from the first occurrence to the end, every entry was checked by X |
| Search.Max | shogi/game.js:1273 | `Math.max` over extended scores is an upper bound equal to one argument |
| Search.LtTrichotomy | shogi/game.js:1270-1276 | scores compare in exactly one of three ways |
| Search.MaterialPut | shogi/game.js:1587-1613 | the square loop scores each square on its own: writing one square changes the material score by that square's term and nothing more |
| Search.SafetyWithoutKings | shogi/game.js:1632-1657 | only kings earn safety: a board without a 王 or 玉 has king-safety score 0 |
| Search.SafetyTermSigned | shogi/game.js:1634-1655 | a computer king adds 0 to 160, a player king subtracts 0 to 160, in steps of 20; other squares add nothing |
| Search.EvaluateMirror | shogi/game.js:1577-1660 | rotating the board 180° and swapping owners and hands negates every term of the evaluation except the check term |
| Search.MirrorSquare | shogi/game.js:1597-1603 | the square term of square i on the rotated board, owners swapped, is the negated term of square 80 − i on the original board |
| Search.OrderMoves | shogi/game.js:1449-1496 | the ordered moves are a permutation of the input, sorted by descending MVV-LVA score |
| Search.OrderMovesStable | shogi/game.js:1495 | moves of equal score keep their relative order (the sort is stable) |
| Search.OrderMovesCapturesFirst | shogi/game.js:1459-1466 | no quiet move comes before a capture of a non-king |
| Search.CaptureOutscoresQuiet | shogi/game.js:1459-1491 | a capture of a non-king scores above any quiet move |
| Search.KindIndex | shogi/game.js:1720 | `indexOf`: −1 exactly when absent, otherwise an index holding the kind |
| Search.LastKindIndex | shogi/game.js:1755 | `lastIndexOf`: −1 exactly when absent, otherwise an index holding the kind |
| Search.ApplyUndo | shogi/game.js:1663-1770 | undoing an applied move restores the position exactly: every square and both pools |
| Search.UndoRestoresBoard | shogi/game.js:1737-1759 | undo puts back the original piece and the captured one |
| Search.UndoPoolExact | shogi/game.js:1752-1768 | undo removes the last copy a capture appended, or reinserts a dropped kind at its old index |
| Search.UndoAfterSort | shogi/game.js:1663-1770 | with the pools sorted in between by the position hash, undo restores the board, and both pools as multisets (exactly, when they were sorted before) |
| Search.Store | shogi/game.js:1566-1571 | a store sets the entry; below `ttMaxSize` other entries survive, at the limit the table is cleared first |
| Search.StoreBounded | shogi/game.js:1566-1571 | the table never exceeds `ttMaxSize` entries |
| Search.NodeMovesLegal | shogi/game.js:1514-1523 | the ordered moves at a node are a permutation of the mover's legal moves |
| Search.SearchUnfold | shogi/game.js:1499-1574 | a table hit returns its score; depth 0 returns `evaluateBoard('cpu')`; no legal move gives −1000000 when maximizing and +1000000 otherwise; otherwise the child loop's result is stored |
| Search.SearchMovesStep | shogi/game.js:1528-1564 | a cutoff (beta ≤ alpha) ends the loop with flag lower or upper; otherwise the loop continues with the new bounds |
| Search.SearchFinite | shogi/game.js:1499-1574 | from a table of finite scores, minimax returns a finite score and keeps the table finite |
| Search.SearchDepthOne | shogi/game.js:1499-1574 | at depth 1 with a full window and an empty table, minimax returns the best leaf score of the mover, stored as exact |
| Search.Minimax | shogi/game.js:1499-1574 | minimax over any game tree returns a finite score, and leaves a table of finite scores, when started from one |
| Search.TryMove | shogi/game.js:1266-1268 | a root trial restores the board and the pools as multisets, and returns a finite score |
| Search.MaxOf | shogi/game.js:1270-1276 | the best root score bounds all scores and is one of them, and −∞ only for no moves |
| Search.Ties | shogi/game.js:1272-1275 | every move in the tie list scored the best score |
| Search.RootLoopCorrect | shogi/game.js:1265-1277 | the root loop ends with the maximum score and exactly the moves that reach it, in order |
| Search.RootOver | shogi/game.js:1260-1277 | the root search returns the scores, their maximum and the tied moves, with board and pools (as multisets) restored |
| Search.HardRoot | shogi/game.js:1250-1280 | the hard root search, over the legal CPU moves, yields a non-empty tie list of legal moves with the maximum score |
| Search.FirstMax | shogi/src/ai/BuiltinEngine.js:201-204 | the first index holding the maximum, every earlier score strictly below it |
| Search.BestFromCorrect | shogi/src/ai/BuiltinEngine.js:187-205 | the `score > bestScore` loop ends holding the first strictly best move and its score |
| Search.MinimaxSearchFirstBest | shogi/src/ai/BuiltinEngine.js:180-208 | when aborted, no move and −∞ with nothing changed; otherwise the first move of highest score, no earlier move scoring as high, with the board and pools restored |
| Search.BestFromKeeps | shogi/src/ai/BuiltinEngine.js:192-199 | the chosen move is one of the candidates and the board is unchanged after apply and undo |
| Worker.MateScore | shogi/src/ai/workers/yaneuraou.worker.js:263-264 | a mate score is NaN exactly when the mate count is NaN |
| Worker.ParseInfoLine | shogi/src/ai/workers/yaneuraou.worker.js:248-282 | the token loop, with its index moved inside the switch, returns `InfoOf(line)` |
| Worker.InfoCase | shogi/src/ai/workers/yaneuraou.worker.js:253-278 | one pass of the switch does what `InfoStep` specifies |
| Worker.InfoStep | shogi/src/ai/workers/yaneuraou.worker.js:253-278 | each pass of the loop advances the index |
| Worker.OtherTokenSkipped | shogi/src/ai/workers/yaneuraou.worker.js:253-278 | an unrecognised token is skipped |
| Worker.BareScoreSkipped | shogi/src/ai/workers/yaneuraou.worker.js:257-267 | `score` followed by neither `cp` nor `mate` leaves the score unset and moves on by one |
| Worker.PvEndsParse | shogi/src/ai/workers/yaneuraou.worker.js:274-277 | `pv` takes all remaining tokens and ends the parse |
| Worker.MateScoresOrdered | shogi/src/ai/workers/yaneuraou.worker.js:264 | a shorter winning mate scores higher, and any winning mate is above any losing one |
| Worker.InfoTokensParse | shogi/src/ai/workers/yaneuraou.worker.js:252-278 | a standard info line yields depth, score (cp, or 30000−N / −30000−N for mate), nodes, nps and pv |
| Worker.InfoRoundTrip | shogi/src/ai/workers/yaneuraou.worker.js:248-282 | parsing a printed `info depth … score … nodes … nps … time … pv …` line gives back its numbers, its score value and its pv |
| Worker.BestmoveReply | shogi/src/ai/workers/yaneuraou.worker.js:227-240 | for `bestmove m …`, the move is null for resign, win or none, and m otherwise |
| Engine.OptionsToDifficulty | shogi/src/ai/BuiltinEngine.js:112-119 | an explicit difficulty is returned; otherwise depth (default 4) at most 1 gives easy, at most 3 medium, more hard |
| Engine.DifficultyMonotone | shogi/src/ai/BuiltinEngine.js:115-118 | a greater depth never gives an easier difficulty |
| Engine.StrengthToOptions | shogi/src/ai/BuiltinEngine.js:98-106 | the four names map to their presets, other names to the intermediate preset, and inherited `Object.prototype` names to no preset (None) |
| Engine.PresetsAgree | shogi/src/ai/BuiltinEngine.js:98-119 | each preset's depth alone maps to the preset's own difficulty |
| Engine.SearchBestSpec | shogi/src/ai/BuiltinEngine.js:125-174 | no legal move gives `{move: null, score: -Infinity}`; otherwise a legal move written in USI, or the throw of `toUsi` for a drop it cannot write; the board is restored |
| Engine.HardAnswer | shogi/src/ai/BuiltinEngine.js:153-173 | the hard branch answers a legal move in USI, falling back to `legalMoves[0]` |
| Engine.ShapedError | shogi/src/ai/BuiltinEngine.js:167 | shaping the answer fails only for a drop of a kind `toUsi` cannot write |
| Engine.AnswerPlayable | shogi/src/ai/BuiltinEngine.js:166-173 | the USI answer parses back to the internal move and passes `validateMove` (shogi/game.js:1295-1312) |
| Engine.HardAnswerFirstBest | shogi/src/ai/BuiltinEngine.js:153-159 | the hard answer is the first ordered move with the highest score |
| Engine.BuiltinEngine.Stop | shogi/src/ai/BuiltinEngine.js:80-82 | sets the abort flag |
| Engine.BuiltinEngine.Dispose | shogi/src/ai/BuiltinEngine.js:88-91 | sets the abort flag and clears readiness |
| Engine.BuiltinEngine.Initialize | shogi/src/ai/BuiltinEngine.js:36-47 | the engine becomes ready |
| Engine.BuiltinEngine.UpdateGame | shogi/src/ai/BuiltinEngine.js:214-216 | replaces the game reference |
| Engine.BuiltinEngine.GetBestMove | shogi/src/ai/BuiltinEngine.js:55-74 | not ready: "Engine is not ready" and nothing changes; ready: clears the abort flag and returns `SearchBestSpec` for the difficulty the options give |
| Engine.BuiltinEngine.SearchBestMove | shogi/src/ai/BuiltinEngine.js:125-174 | the method returns `SearchBestSpec` and leaves its state and table |
| Engine.BuiltinEngine.MinimaxSearch | shogi/src/ai/BuiltinEngine.js:180-208 | the method returns `MinimaxSearchSpec` over the ordered legal moves |
| Engine.BuiltinEngine.ScoreMoves | shogi/src/ai/BuiltinEngine.js:187-205 | the loop, stopping once aborted, equals `MinimaxSearchSpec` |
| Engine.BuiltinEngine.ScoreMove | shogi/src/ai/BuiltinEngine.js:193-204 | one candidate applied, searched at depth 3 and undone advances the specification by one step |
| Positions.CornerKingStuck | shogi/game.test.js:130-145 | the cornered king has no legal destination |
| Positions.CornerInCheck | shogi/game.test.js:130-145 | the gold on (1, 0) checks the king on (0, 0) |
| Positions.CornerNoMoves | shogi/game.test.js:130-145 | the player has no legal move in that position |
| Positions.CornerGoldMate | shogi/game.test.js:130-145 | a player king on (0, 0) with CPU golds on (1, 0) and (1, 1) and empty hands is checkmate |
| Positions.EmptyHandNoDrops | shogi/game.js:1413-1430 | with empty hands the legal moves are the board moves only |
| Opening.OpeningSwapSafe | shogi/game.js:472-489 | from the start, moving a player piece of rows 6-8 to an empty square with row index 4 or more never exposes the player's king |
| Opening.OpeningValid | shogi/game.js:421-493 | from the start, a player piece on rows 6-8 whose pseudo-moves all go to empty squares of row 4 or a higher index has all of them as valid moves |
| Opening.PieceCount | shogi/game.js:290-327 | from the start: a pawn has 1 move, the rook 6, a lance 1, a silver 2, a gold or the king 3, a knight or the bishop none |
| Opening.OpeningMoveCount | shogi/game.js:1389-1433 | in the starting position (shogi/game.js:290-327) the player has exactly 30 legal moves |

## Left out

- Search.HandValue: the hand bonus `value * 1.15` is exact integer arithmetic `value * 115 / 100`. The original multiplies doubles (shogi/game.js:1617, 1620), and `100 * 1.15` is 114.99999999999999 there. So the original's evaluation is not an integer, and the root loop's `score > bestScore` and `score === bestScore` tests (shogi/game.js:1270-1276) can decide differently from `Evaluate` when scores differ by such rounding.
- JsText.UpperChar: upper-cases only the ASCII letters and U+017F (ſ → 'S'), not all of Unicode. JavaScript's `toUpperCase` gives different error texts for other letters: "+é" throws "Unknown promoted piece: +É" where the model says "+é", and "+ß" becomes "+SS".
- JsText: strings are sequences of Unicode scalar values, not UTF-16 code units. Indexing and `length` differ from the original only for characters outside the Basic Multilingual Plane.
- Sfen.ParseRowFrom: for a '+' at the end of a row, the original reads `undefined.toUpperCase()` and throws a TypeError. The model returns an error whose text paraphrases the engine's message.
- Game.RandomPick: `Math.random` is replaced by parameters: `pick: nat` selects the index and `preferCapture: bool` stands for the 70% test (shogi/game.js:1239-1248, 1279; shogi/src/ai/BuiltinEngine.js:138-150).
- Engine.SearchBestSpec: `pick` and `preferCapture` replace `Math.random` in the easy and medium branches, as above.
- Game.ShogiGame.InitiateMove: the promotion dialog is replaced by the parameter `choice`, the answer the player would give.
- Sfen.BoardToSfen: the default argument `moveCount = 1` is not modelled; callers pass the count.
- Engine.BuiltinEngine.GetBestMove: the default `options = {}` is not modelled. The `catch` branch that returns `{move: null, score: 0, aborted: true}` when a search was aborted by an exception (shogi/src/ai/BuiltinEngine.js:66-71) is not modelled either, since the modelled search throws nothing.
- Game.ShogiGame.MakeMove: the default `promote = false` is not modelled; callers pass the flag.
- Usi.FromUsi: the default `owner = 'cpu'` (shogi/src/ai/MoveConverter.js:71) is not modelled; every caller passes the owner (shogi/game.js:1203, shogi/src/ai/MoveConverter.js:201).
- Usi.ParseUsiMoves: the default `startingPlayer = 'player'` (shogi/src/ai/MoveConverter.js:196) is not modelled; callers pass the side.
- JsText.ParseInt: numbers are exact unbounded integers, not doubles. In the original, `parseInt` of a digit run longer than 2^53 rounds to the nearest double: `parseInt("9007199254740993", 10)` is 9007199254740992.
- JsText.IntToString: writes every integer in plain decimal. The original `toString()` switches to exponent form at 10^21 and above ("1e+21"). `parseInt("1e+21", 10)` then reads 1, so the SFEN move count 10^21 comes back as 1. Consequently `JsText.IntToStringParse`, `Sfen.SfenRoundTrip` and `Worker.InfoRoundTrip` hold in the original only for |n| < 2^53.
- Engine.StrengthToOptions: for inherited `Object.prototype` names ("constructor", "toString", "__proto__", …) the original returns that inherited member. The model returns None for them.
- Game.ShogiGame: the DOM, audio (`playMoveSound`), rendering, the kifu text (`recordMove`, `moveHistory`), `lastMove`, the selection fields and localStorage persistence are not modelled. The snapshots therefore omit `moveHistory`.
- Game.ShogiGame.CheckGameEndConditions: `setTimeout(() => this.cpuTurn(), 500)` after a player move (shogi/game.js:1072-1074) is not modelled, and neither are `cpuTurn` and the external-engine path.
- Worker: the asynchronous messaging with the WASM engine, timeouts and `postMessage` are not modelled. Only `parseInfoLine` and the bestmove rule are.
- Engine: the async plumbing (`Promise`, `_setInitializing`, `_setError`) is not modelled. `initialize` only sets readiness.
- Rules.KingInCheck: the original calls `getValidMoves(r, c, true)` for each attacker. The model uses the pseudo-move function it is proved equal to (`Game.ShogiGame.CollectPseudoMoves`).
- Search.Search: the transposition table is keyed by the position text. Equal keys are assumed to mean equal positions only through `Hashing.PositionHashSound`. The model does not claim the converse, which is false (`Hashing.PositionHashConflatesHands`).

## Findings

| source | as written | input that shows it | evidently intended | confidence | as-written member | corrected member |
|---|---|---|---|---|---|---|
| shogi/game.js:1124-1127 | when `promote` is true the test passes without checking `canPromote` or `promoted`, and `piece.type = PIECES[piece.type].promoted` runs | `makeMove(fr, fc, tr, tc, true)` on a CPU 金 (or a king, or an already promoted piece). This is reachable from `executeAIMove` (shogi/game.js:1320) for a USI move ending in '+'. The type becomes null | promote only an unpromoted piece whose kind has `canPromote`, as `completeMove` does (shogi/game.js:1040) | not executed | Game.MovedAsWritten, Game.MakeMoveGoldPromotion | Game.MovedPiece, Game.MakeMoveConserves, Game.MovedPieceAgrees |
| shogi/src/ai/SfenConverter.js:285-293 | `_countCapturedPieces` reads `piece.type`, but `getSfen` (shogi/game.js:227-235) passes the game's pools, which hold plain type strings. Every string counts under "undefined", a key no hand letter reads | a game whose player holds one 歩: `getSfen()` writes the hand as "-", so the engine never sees a piece in hand | count the game's type names as their kinds, so that the hand lists every captured piece | not executed | Sfen.NamePoolsWriteEmptyHand, Sfen.PawnNameLost | Sfen.AsPieces, Sfen.NamedCounts, Sfen.NamedHandRoundTrip, Sfen.PawnPieceWritten |
