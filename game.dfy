/**
 * `ShogiGame`: the mutable game object. Its board is an array of 81 cells
 * (row-major), its pools, histories and transposition table are fields the
 * methods reassign. Every method is proved equal to the functions of modules
 * Rules, Hashing and Search, and every temporary change of the board is
 * proved undone.
 */
module Game {
  import opened Wrappers
  import opened Pieces
  import opened Board
  import opened Rules
  import opened Hashing
  import opened Search
  import Usi
  import Sfen

  class ShogiGame {
    var board: array<Cell>
    var currentPlayer: Side
    var playerCaptured: seq<PieceType>
    var cpuCaptured: seq<PieceType>
    var positionHistory: seq<Entry>
    var gameOver: bool
    var outcome: Outcome
    var stateHistory: seq<Snapshot>
    var pendingMove: Option<Pending>
    var transpositionTable: TTable
    var difficulty: Level

    ghost predicate Valid()
      reads this
    {
      board.Length == 81
    }

    /** The board as a value. */
    function Cells(): Grid
      reads this, board
      requires Valid()
    {
      board[..]
    }

    /** The fields a move changes, as a value. */
    function Value(): GameState
      reads this, board
      requires Valid()
    {
      GameState(board[..], currentPlayer, playerCaptured, cpuCaptured, positionHistory, gameOver, outcome,
                stateHistory, pendingMove)
    }

    /** `getValidMoves(row, col, ignoreCheck)`: the board is swapped and restored for each candidate. */
    method GetValidMoves(row: int, col: int, ignoreCheck: bool) returns (moves: seq<Pos>)
      requires Valid() && OnBoard(row, col)
      modifies board
      ensures board[..] == old(board[..])
      ensures moves == ValidMoves(old(Cells()), row, col, ignoreCheck)
      decreases if ignoreCheck then 0 else 10
    {
      ghost var b := Cells();
      var cell := board[Idx(row, col)];
      if cell.None? {
        return [];
      }
      var piece := cell.value;
      moves := CollectPseudoMoves(row, col, piece);
      if !ignoreCheck {
        PseudoOnBoard(b, row, col);
        moves := FilterSafe(row, col, piece.owner, moves);
      }
    }

    /** The self-check filter of `getValidMoves`: the candidates that do not leave the owner's king attacked, in order. */
    method FilterSafe(row: int, col: int, owner: Side, ms: seq<Pos>) returns (validMoves: seq<Pos>)
      requires Valid() && OnBoard(row, col) && OnBoardAll(ms)
      modifies board
      ensures board[..] == old(board[..])
      ensures validMoves == LegalPrefix(old(Cells()), row, col, owner, ms, |ms|)
      decreases 8
    {
      ghost var b := Cells();
      validMoves := [];
      for j := 0 to |ms|
        invariant board[..] == b
        invariant validMoves == LegalPrefix(b, row, col, owner, ms, j)
      {
        validMoves := FilterStep(b, row, col, owner, ms, j, validMoves);
      }
    }

    /** One candidate of the filter: kept when moving there leaves the owner's king safe. */
    method FilterStep(ghost b: Grid, row: int, col: int, owner: Side, ms: seq<Pos>, j: nat, before: seq<Pos>) returns (after: seq<Pos>)
      requires Valid() && b == Cells() && OnBoard(row, col) && j < |ms| && OnBoard(ms[j].0, ms[j].1)
      requires before == LegalPrefix(b, row, col, owner, ms, j)
      modifies board
      ensures board[..] == b
      ensures after == LegalPrefix(b, row, col, owner, ms, j + 1)
      decreases 7
    {
      var safe := LeavesKingSafe(b, row, col, ms[j], owner);
      after := if safe then before + [ms[j]] else before;
    }

    /**
     * One candidate of the self-check filter of `getValidMoves`: move the
     * piece to m, ask `isKingInCheck`, put both squares back.
     */
    method LeavesKingSafe(ghost b: Grid, row: int, col: int, m: Pos, owner: Side) returns (safe: bool)
      requires Valid() && b == Cells() && OnBoard(row, col) && OnBoard(m.0, m.1)
      modifies board
      ensures board[..] == b
      ensures safe == LeavesSafe(b, row, col, owner, m)
      decreases 6
    {
      var originalTarget := board[Idx(m.0, m.1)];
      board[Idx(m.0, m.1)] := board[Idx(row, col)];
      board[Idx(row, col)] := None;
      assert board[..] == Swapped(b, row, col, m);
      var inCheck := IsKingInCheck(owner);
      safe := !inCheck;
      board[Idx(row, col)] := board[Idx(m.0, m.1)];
      board[Idx(m.0, m.1)] := originalTarget;
      assert board[..] == b;
    }

    /** The offset loop of `getValidMoves`: the destinations before the self-check filter. */
    method CollectPseudoMoves(row: int, col: int, piece: Piece) returns (moves: seq<Pos>)
      requires Valid() && OnBoard(row, col) && At(Cells(), row, col) == Some(piece)
      ensures moves == PseudoMoves(Cells(), row, col)
    {
      var offs := Offsets(piece.kind);
      moves := [];
      for i := 0 to |offs|
        invariant moves == PseudoPrefix(Cells(), row, col, piece, i)
      {
        var target := OffsetTarget(row, col, piece, offs[i]);
        if target.Some? {
          moves := moves + [target.value];
        }
      }
    }

    /** One offset of the loop: its destination, when it is on the board, reachable and not the mover's own piece. */
    method OffsetTarget(row: int, col: int, piece: Piece, o: Offset) returns (target: Option<Pos>)
      requires Valid() && OnBoard(row, col)
      ensures target == if Emits(Cells(), row, col, piece, o) then Some(Target(row, col, piece.owner, o)) else None
    {
      var (dx, dy) := o;
      var newCol := col + (if piece.owner == Player then dx else -dx);
      var newRow := row + (if piece.owner == Player then dy else -dy);
      target := None;
      if 0 <= newRow < 9 && 0 <= newCol < 9 {
        var targetPiece := board[Idx(newRow, newCol)];
        var blocked := false;
        if IsSliding(piece.kind) {
          blocked := RayBlocked(row, col, piece.owner, dx, dy);
        }
        if !blocked && (targetPiece.None? || targetPiece.value.owner != piece.owner) {
          target := Some((newRow, newCol));
        }
      }
    }

    /**
     * The intermediate-square scan of `getValidMoves` for a sliding piece:
     * blocked exactly when a square strictly before the target is off the
     * board or occupied.
     */
    method RayBlocked(row: int, col: int, owner: Side, dx: int, dy: int) returns (blocked: bool)
      requires Valid()
      ensures blocked == !RayClear(Cells(), row, col, owner, (dx, dy))
    {
      ghost var b := Cells();
      var steps := Steps((dx, dy));
      var stepDx := Unit(dx);
      var stepDy := Unit(dy);
      blocked := false;
      var step := 1;
      while step < steps
        invariant 1 <= step
        invariant !blocked ==> step <= steps || steps == 0
        invariant !blocked <==> forall k :: 1 <= k < step ==> StepFree(b, row, col, owner, (dx, dy), k)
      {
        var checkCol := col + (if owner == Player then stepDx * step else -stepDx * step);
        var checkRow := row + (if owner == Player then stepDy * step else -stepDy * step);
        assert checkCol == col + Dir(owner, Scale(stepDx, step));
        assert checkRow == row + Dir(owner, Scale(stepDy, step));
        if checkRow < 0 || checkRow >= 9 || checkCol < 0 || checkCol >= 9 {
          blocked := true;
          assert !StepFree(b, row, col, owner, (dx, dy), step);
          break;
        }
        if board[Idx(checkRow, checkCol)].Some? {
          blocked := true;
          assert !StepFree(b, row, col, owner, (dx, dy), step);
          break;
        }
        step := step + 1;
      }
    }

    /** The king scan of `isKingInCheck`: the last row holding a king of the side, its first such column. */
    method FindKingSquare(player: Side) returns (king: Option<Pos>)
      requires Valid()
      ensures king == FindKing(Cells(), player)
    {
      ghost var b := Cells();
      king := None;
      var r := 0;
      while r < 9
        invariant 0 <= r <= 9
        invariant king == KingAfterRows(b, player, r)
      {
        var c := 0;
        while c < 9
          invariant 0 <= c <= 9
          invariant forall c' :: 0 <= c' < c ==> !IsKingOf(At(b, r, c'), player)
        {
          var piece := board[Idx(r, c)];
          if piece.Some? && piece.value.owner == player && (piece.value.kind == King || piece.value.kind == Jewel) {
            FirstKingIs(b, player, r, 0, c);
            king := Some((r, c));
            break;
          }
          c := c + 1;
        }
        if c == 9 {
          assert FirstKingInRow(b, player, r, 0).None?;
        }
        r := r + 1;
      }
    }

    /** `isKingInCheck(player)`. */
    method IsKingInCheck(player: Side) returns (inCheck: bool)
      requires Valid()
      modifies board
      ensures board[..] == old(board[..])
      ensures inCheck == KingInCheck(old(Cells()), player)
      decreases 4
    {
      ghost var b := Cells();
      var king := FindKingSquare(player);
      if king.None? {
        return false;
      }
      var k := king.value;
      var opponent := Opponent(player);
      var r := 0;
      inCheck := false;
      while r < 9 && !inCheck
        invariant 0 <= r <= 9 && board[..] == b
        invariant inCheck <==> AttackedBefore(b, opponent, k, r * 9)
      {
        inCheck := AttackInRow(b, k, opponent, r);
        r := r + 1;
      }
      if inCheck {
        AttackedMonotone(b, opponent, k, r * 9, 81);
      }
    }

    /** One row of the attacker scan of `isKingInCheck`: a piece of the opponent there whose destinations include the king's square. */
    method AttackInRow(ghost b: Grid, k: Pos, opponent: Side, r: int) returns (found: bool)
      requires Valid() && b == Cells() && 0 <= r < 9 && !AttackedBefore(b, opponent, k, r * 9)
      modifies board
      ensures board[..] == b
      ensures found == AttackedBefore(b, opponent, k, r * 9 + 9)
      decreases 3
    {
      var c := 0;
      found := false;
      while c < 9 && !found
        invariant 0 <= c <= 9 && board[..] == b
        invariant found <==> AttackedBefore(b, opponent, k, r * 9 + c)
      {
        found := AttackAt(b, k, opponent, r, c);
        c := c + 1;
      }
      if found {
        AttackedMonotone(b, opponent, k, r * 9 + c, r * 9 + 9);
      }
    }

    /** One square of the attacker scan: a piece of the opponent whose destinations, self-check ignored, include k. */
    method AttackAt(ghost b: Grid, k: Pos, opponent: Side, r: int, c: int) returns (hit: bool)
      requires Valid() && b == Cells() && OnBoard(r, c)
      modifies board
      ensures board[..] == b
      ensures hit == AttacksFrom(b, r * 9 + c, opponent, k)
      decreases 2
    {
      IdxRowCol(r, c);
      var piece := board[Idx(r, c)];
      hit := false;
      if piece.Some? && piece.value.owner == opponent {
        var moves := GetValidMoves(r, c, true);
        hit := k in moves;
      }
    }

    // -------------------------------------------------------------------
    // Drop legality
    // -------------------------------------------------------------------

    /** The file scan of the nifu test: an unpromoted pawn of `player` anywhere in column col. */
    method PawnOnFile(col: int, player: Side) returns (found: bool)
      requires Valid() && 0 <= col < 9
      ensures found == NifuBlocked(Cells(), col, player)
    {
      var r := 0;
      while r < 9
        invariant 0 <= r <= 9
        invariant forall r' :: 0 <= r' < r ==> !OwnPawn(Cells(), r', col, player)
      {
        var piece := board[Idx(r, col)];
        if piece.Some? && piece.value.owner == player && piece.value.kind == Pawn && !piece.value.promoted {
          assert OwnPawn(Cells(), r, col, player);
          return true;
        }
        r := r + 1;
      }
      return false;
    }

    /**
     * `canPlaceCapturedPieceWithoutUchifuzume(pieceType, row, col, player)`:
     * the drop tests without the uchifuzume step; the trial placement is
     * taken back.
     */
    method CanPlaceCapturedPieceWithoutUchifuzume(pieceType: PieceType, row: int, col: int, player: Side) returns (ok: bool)
      requires Valid() && OnBoard(row, col)
      modifies board
      ensures board[..] == old(board[..])
      ensures ok == CanDropNoUchi(old(Cells()), pieceType, row, col, player)
    {
      ghost var b := Cells();
      if board[Idx(row, col)].Some? {
        return false;
      }
      if pieceType == Pawn {
        var nifu := PawnOnFile(col, player);
        if nifu {
          return false;
        }
      }
      if player == Player {
        if pieceType == Pawn && row == 0 { return false; }
        if pieceType == Lance && row == 0 { return false; }
        if pieceType == Knight && (row == 0 || row == 1) { return false; }
      } else {
        if pieceType == Pawn && row == 8 { return false; }
        if pieceType == Lance && row == 8 { return false; }
        if pieceType == Knight && (row == 8 || row == 7) { return false; }
      }
      board[Idx(row, col)] := Some(Piece(pieceType, player, false));
      assert board[..] == Dropped(b, pieceType, row, col, player);
      var isCheck := IsKingInCheck(player);
      board[Idx(row, col)] := None;
      assert board[..] == b;
      if isCheck {
        return false;
      }
      return true;
    }

    /**
     * `hasAnyLegalMove(player)`: a piece of the side with a legal move, in
     * row-major order, or else a type of its pool that may be dropped
     * somewhere (without the uchifuzume test).
     */
    method HasAnyLegalMove(player: Side) returns (has: bool)
      requires Valid()
      modifies board
      ensures board[..] == old(board[..])
      ensures has == Rules.HasAnyLegalMove(old(Cells()), PoolOf(playerCaptured, cpuCaptured, player), player)
    {
      ghost var b := Cells();
      has := false;
      var r := 0;
      while r < 9 && !has
        invariant 0 <= r <= 9 && board[..] == b
        invariant has ==> exists i :: 0 <= i < 81 && HasMoveFrom(b, i, player)
        invariant !has ==> forall i :: 0 <= i < r * 9 ==> !HasMoveFrom(b, i, player)
      {
        has := RowHasMove(b, r, player);
        r := r + 1;
      }
      if has {
        return;
      }
      var captured := if player == Player then playerCaptured else cpuCaptured;
      var uniquePieces := Dedup(captured);
      var k := 0;
      while k < |uniquePieces| && !has
        invariant 0 <= k <= |uniquePieces| && board[..] == b
        invariant has ==> exists t, i :: t in uniquePieces && 0 <= i < 81 && DropNoUchiAt(b, t, i, player)
        invariant !has ==> forall t, i :: t in uniquePieces[..k] && 0 <= i < 81 ==> !DropNoUchiAt(b, t, i, player)
      {
        var pt := uniquePieces[k];
        has := DropAnywhere(b, pt, player);
        assert uniquePieces[..k + 1] == uniquePieces[..k] + [pt];
        k := k + 1;
      }
      assert !has ==> uniquePieces[..k] == uniquePieces;
    }

    /** Row r of `hasAnyLegalMove`'s scan over the squares: some square of it holds a piece of s with a legal move. */
    method RowHasMove(ghost b: Grid, r: int, player: Side) returns (found: bool)
      requires Valid() && b == Cells() && 0 <= r < 9
      modifies board
      ensures board[..] == b
      ensures found ==> exists i :: 0 <= i < 81 && HasMoveFrom(b, i, player)
      ensures !found ==> forall i :: r * 9 <= i < r * 9 + 9 ==> !HasMoveFrom(b, i, player)
    {
      found := false;
      var c := 0;
      while c < 9 && !found
        invariant 0 <= c <= 9 && board[..] == b
        invariant found ==> exists i :: 0 <= i < 81 && HasMoveFrom(b, i, player)
        invariant !found ==> forall i :: r * 9 <= i < r * 9 + c ==> !HasMoveFrom(b, i, player)
      {
        found := SquareHasMove(b, r, c, player);
        RowScanStep(b, r, c, player, found);
        c := c + 1;
      }
    }

    /** One square of the scan: it holds a piece of s that has a legal move. */
    method SquareHasMove(ghost b: Grid, r: int, c: int, player: Side) returns (found: bool)
      requires Valid() && b == Cells() && OnBoard(r, c)
      modifies board
      ensures board[..] == b
      ensures found == HasMoveFrom(b, r * 9 + c, player)
    {
      IdxRowCol(r, c);
      var piece := board[Idx(r, c)];
      found := false;
      if piece.Some? && piece.value.owner == player {
        var validMoves := GetValidMoves(r, c, false);
        found := |validMoves| > 0;
      }
    }

    /** The drop part of `hasAnyLegalMove` for one type: some square takes it (without the uchifuzume test). */
    method DropAnywhere(ghost b: Grid, pt: PieceType, player: Side) returns (found: bool)
      requires Valid() && b == Cells()
      modifies board
      ensures board[..] == b
      ensures found <==> exists i :: 0 <= i < 81 && DropNoUchiAt(b, pt, i, player)
    {
      found := false;
      var r := 0;
      while r < 9 && !found
        invariant 0 <= r <= 9 && board[..] == b
        invariant found ==> exists i :: 0 <= i < 81 && DropNoUchiAt(b, pt, i, player)
        invariant !found ==> forall i :: 0 <= i < r * 9 ==> !DropNoUchiAt(b, pt, i, player)
      {
        var c := 0;
        while c < 9 && !found
          invariant 0 <= c <= 9 && board[..] == b
          invariant found ==> exists i :: 0 <= i < 81 && DropNoUchiAt(b, pt, i, player)
          invariant !found ==> forall i :: 0 <= i < r * 9 + c ==> !DropNoUchiAt(b, pt, i, player)
        {
          IdxRowCol(r, c);
          found := CanPlaceCapturedPieceWithoutUchifuzume(pt, r, c, player);
          assert found == DropNoUchiAt(b, pt, Idx(r, c), player);
          c := c + 1;
        }
        r := r + 1;
      }
    }

    /**
     * `isUchifuzume(pieceType, row, col, player)`: false unless an enemy king
     * stands right in front of the square; otherwise the piece is placed,
     * and the answer is whether the enemy is then in check with no legal
     * move. The square is emptied afterwards.
     */
    method IsUchifuzume(pieceType: PieceType, row: int, col: int, player: Side) returns (uchi: bool)
      requires Valid() && OnBoard(row, col)
      modifies board
      ensures board[..] == if FacesKing(old(Cells()), row, col, player) then Put(old(Cells()), row, col, None) else old(board[..])
      ensures uchi == Rules.IsUchifuzume(old(Cells()), playerCaptured, cpuCaptured, pieceType, row, col, player)
    {
      ghost var b := Cells();
      var opponent := if player == Player then Cpu else Player;
      var frontRow := if player == Player then row - 1 else row + 1;
      if frontRow < 0 || frontRow >= 9 {
        return false;
      }
      var frontPiece := board[Idx(frontRow, col)];
      if frontPiece.None? || frontPiece.value.owner != opponent || (frontPiece.value.kind != Jewel && frontPiece.value.kind != King) {
        return false;
      }
      board[Idx(row, col)] := Some(Piece(pieceType, player, false));
      assert board[..] == Dropped(b, pieceType, row, col, player);
      var inCheck := IsKingInCheck(opponent);
      if !inCheck {
        board[Idx(row, col)] := None;
        return false;
      }
      var opponentHasLegalMove := HasAnyLegalMove(opponent);
      board[Idx(row, col)] := None;
      return !opponentHasLegalMove;
    }

    /**
     * `canPlaceCapturedPiece(pieceType, row, col, player)`: an empty square,
     * no nifu, not a dead square for the type, not uchifuzume for a pawn,
     * and the dropper's king not in check afterwards. The board comes back
     * unchanged.
     */
    method CanPlaceCapturedPiece(pieceType: PieceType, row: int, col: int, player: Side) returns (ok: bool)
      requires Valid() && OnBoard(row, col)
      modifies board
      ensures board[..] == old(board[..])
      ensures ok == CanDrop(old(Cells()), playerCaptured, cpuCaptured, pieceType, row, col, player)
    {
      ghost var b := Cells();
      if board[Idx(row, col)].Some? {
        return false;
      }
      if pieceType == Pawn {
        var nifu := PawnOnFile(col, player);
        if nifu {
          return false;
        }
      }
      if player == Player {
        if pieceType == Pawn && row == 0 { return false; }
        if pieceType == Lance && row == 0 { return false; }
        if pieceType == Knight && (row == 0 || row == 1) { return false; }
      } else {
        if pieceType == Pawn && row == 8 { return false; }
        if pieceType == Lance && row == 8 { return false; }
        if pieceType == Knight && (row == 8 || row == 7) { return false; }
      }
      if pieceType == Pawn {
        var uchi := IsUchifuzume(pieceType, row, col, player);
        assert board[..] == b;
        if uchi {
          return false;
        }
      }
      board[Idx(row, col)] := Some(Piece(pieceType, player, false));
      assert board[..] == Dropped(b, pieceType, row, col, player);
      var isCheck := IsKingInCheck(player);
      board[Idx(row, col)] := None;
      assert board[..] == b;
      if isCheck {
        return false;
      }
      return true;
    }

    // -------------------------------------------------------------------
    // All legal moves and the end of the game
    // -------------------------------------------------------------------

    /**
     * `getAllLegalMoves(player)`: the board moves of the side's pieces in
     * row-major order, then, for each distinct type of its pool in order of
     * first occurrence, the squares it may be dropped on.
     */
    method GetAllLegalMoves(player: Side) returns (moves: seq<Move>)
      requires Valid()
      modifies board
      ensures board[..] == old(board[..])
      ensures moves == AllLegalMoves(old(Cells()), playerCaptured, cpuCaptured, player)
    {
      var boardMoves := BoardMoves(player);
      var drops := PoolDrops(player);
      moves := boardMoves + drops;
    }

    /** The first loop of `getAllLegalMoves`: the moves of the side's pieces, row-major. */
    method BoardMoves(player: Side) returns (moves: seq<Move>)
      requires Valid()
      modifies board
      ensures board[..] == old(board[..])
      ensures moves == BoardMovesPrefix(old(Cells()), player, 81)
    {
      ghost var b := Cells();
      moves := [];
      var row := 0;
      while row < 9
        invariant 0 <= row <= 9
        invariant board[..] == b
        invariant moves == BoardMovesPrefix(b, player, row * 9)
      {
        var col := 0;
        while col < 9
          invariant 0 <= col <= 9
          invariant board[..] == b
          invariant moves == BoardMovesPrefix(b, player, row * 9 + col)
        {
          var pieceMoves := PieceMoves(row, col, player);
          BoardMovesStep(b, player, row, col, moves, pieceMoves);
          moves := moves + pieceMoves;
          col := col + 1;
        }
        assert (row + 1) * 9 == row * 9 + 9;
        row := row + 1;
      }
    }

    /** The second loop of `getAllLegalMoves`: the drops of each distinct type of the side's pool. */
    method PoolDrops(player: Side) returns (moves: seq<Move>)
      requires Valid()
      modifies board
      ensures board[..] == old(board[..])
      ensures var kinds := Dedup(PoolOf(playerCaptured, cpuCaptured, player));
        moves == DropsOfKinds(old(Cells()), playerCaptured, cpuCaptured, player, kinds, |kinds|)
    {
      ghost var b := Cells();
      var captured := if player == Player then playerCaptured else cpuCaptured;
      var uniquePieces := Dedup(captured);
      moves := [];
      var k := 0;
      while k < |uniquePieces|
        invariant 0 <= k <= |uniquePieces|
        invariant board[..] == b
        invariant moves == DropsOfKinds(b, playerCaptured, cpuCaptured, player, uniquePieces, k)
      {
        var drops := DropsOfKind(uniquePieces[k], player);
        moves := moves + drops;
        k := k + 1;
      }
    }

    /** The first loop of `getAllLegalMoves` at one square: a move per legal destination of the side's piece there. */
    method PieceMoves(row: int, col: int, player: Side) returns (moves: seq<Move>)
      requires Valid() && OnBoard(row, col)
      modifies board
      ensures board[..] == old(board[..])
      ensures moves == SquareMoves(old(Cells()), player, Idx(row, col))
    {
      IdxRowCol(row, col);
      moves := [];
      var piece := board[Idx(row, col)];
      if piece.Some? && piece.value.owner == player {
        var validMoves := GetValidMoves(row, col, false);
        moves := MovesForTargets(row, col, piece.value, validMoves);
      }
    }

    /** The inner loop of the first loop of `getAllLegalMoves`: a move from (row, col) per destination, in order. */
    method MovesForTargets(row: int, col: int, piece: Piece, validMoves: seq<Pos>) returns (moves: seq<Move>)
      ensures moves == MovesTo(row, col, piece, validMoves)
    {
      moves := [];
      for j := 0 to |validMoves|
        invariant moves == MovesTo(row, col, piece, validMoves[..j])
      {
        assert MovesTo(row, col, piece, validMoves[..j + 1])
          == MovesTo(row, col, piece, validMoves[..j]) + [BoardMove(row, col, validMoves[j].0, validMoves[j].1, piece)];
        moves := moves + [BoardMove(row, col, validMoves[j].0, validMoves[j].1, piece)];
      }
      assert validMoves[..|validMoves|] == validMoves;
    }

    /** The drop loop of `getAllLegalMoves` for one type: a drop per square it may be dropped on, row-major. */
    method DropsOfKind(pieceType: PieceType, player: Side) returns (moves: seq<Move>)
      requires Valid()
      modifies board
      ensures board[..] == old(board[..])
      ensures moves == DropsPrefix(old(Cells()), playerCaptured, cpuCaptured, player, pieceType, 81)
    {
      ghost var b := Cells();
      moves := [];
      for r := 0 to 9
        invariant board[..] == b
        invariant moves == DropsPrefix(b, playerCaptured, cpuCaptured, player, pieceType, r * 9)
      {
        moves := DropsInRow(pieceType, r, player, moves);
      }
    }

    /** The inner loop of the drop loop: the squares of row r, given the drops of the rows above. */
    method DropsInRow(pieceType: PieceType, r: int, player: Side, above: seq<Move>) returns (moves: seq<Move>)
      requires Valid() && 0 <= r < 9
      requires above == DropsPrefix(Cells(), playerCaptured, cpuCaptured, player, pieceType, r * 9)
      modifies board
      ensures board[..] == old(board[..])
      ensures moves == DropsPrefix(old(Cells()), playerCaptured, cpuCaptured, player, pieceType, r * 9 + 9)
    {
      ghost var b := Cells();
      moves := above;
      for c := 0 to 9
        invariant board[..] == b
        invariant moves == DropsPrefix(b, playerCaptured, cpuCaptured, player, pieceType, r * 9 + c)
      {
        moves := DropAt(pieceType, r, c, player, moves);
      }
    }

    /** One square of the drop loop: the drop onto (r, c) is added when the piece may be placed there. */
    method DropAt(pieceType: PieceType, r: int, c: int, player: Side, before: seq<Move>) returns (moves: seq<Move>)
      requires Valid() && OnBoard(r, c)
      requires before == DropsPrefix(Cells(), playerCaptured, cpuCaptured, player, pieceType, r * 9 + c)
      modifies board
      ensures board[..] == old(board[..])
      ensures moves == DropsPrefix(old(Cells()), playerCaptured, cpuCaptured, player, pieceType, r * 9 + c + 1)
    {
      IdxRowCol(r, c);
      var ok := CanPlaceCapturedPiece(pieceType, r, c, player);
      moves := if ok then before + [DropMove(pieceType, r, c, player)] else before;
    }

    /** `isCheckmate(player)`: in check, and no legal move. */
    method IsCheckmate(player: Side) returns (mate: bool)
      requires Valid()
      modifies board
      ensures board[..] == old(board[..])
      ensures mate == Checkmate(old(Cells()), playerCaptured, cpuCaptured, player)
    {
      var inCheck := IsKingInCheck(player);
      if !inCheck {
        return false;
      }
      var legalMoves := GetAllLegalMoves(player);
      return |legalMoves| == 0;
    }

    /** `isStalemate(player)`: not in check, and no legal move. */
    method IsStalemate(player: Side) returns (stale: bool)
      requires Valid()
      modifies board
      ensures board[..] == old(board[..])
      ensures stale == Stalemate(old(Cells()), playerCaptured, cpuCaptured, player)
    {
      var inCheck := IsKingInCheck(player);
      if inCheck {
        return false;
      }
      var legalMoves := GetAllLegalMoves(player);
      return |legalMoves| == 0;
    }

    // -------------------------------------------------------------------
    // Position history and the end of the game
    // -------------------------------------------------------------------

    /**
     * `recordPosition()`: the hash of the position with the side to move,
     * and as checker the side that just moved when the side to move is in check.
     */
    method RecordPosition()
      requires Valid()
      modifies board, this`positionHistory
      ensures Value() == Recorded(old(Value()))
    {
      var hash := BoardHash(currentPlayer, board[..], playerCaptured, cpuCaptured);
      var lastPlayer := if currentPlayer == Player then Cpu else Player;
      var isGivingCheck := IsKingInCheck(currentPlayer);
      positionHistory := positionHistory + [Record(hash, if isGivingCheck then Some(lastPlayer) else None)];
    }

    /** `endGame(winner)`, without the page text. */
    method EndGame(winner: Side)
      requires Valid()
      modifies this`gameOver, this`outcome
      ensures Value() == old(Value()).(gameOver := true, outcome := Won(winner))
    {
      gameOver := true;
      outcome := Won(winner);
    }

    /** `endGameDraw(reason)`, without the page text. */
    method EndGameDraw()
      requires Valid()
      modifies this`gameOver, this`outcome
      ensures Value() == old(Value()).(gameOver := true, outcome := Drawn)
    {
      gameOver := true;
      outcome := Drawn;
    }

    /**
     * `checkGameEndConditions()`: repetition first (a perpetual checker
     * loses, otherwise a draw), then checkmate of the side to move, then
     * stalemate; true when the game ended.
     */
    method CheckGameEndConditions() returns (ended: bool)
      requires Valid()
      modifies board, this`gameOver, this`outcome
      ensures Value() == Concluded(old(Value()))
      ensures ended == EndState(old(Value())).Some?
    {
      var repetitionResult := CheckRepetition(positionHistory, BoardHash(currentPlayer, board[..], playerCaptured, cpuCaptured));
      if repetitionResult.isRepetition {
        if repetitionResult.perpetualChecker.Some? {
          var winner := if repetitionResult.perpetualChecker.value == Player then Cpu else Player;
          EndGame(winner);
        } else {
          EndGameDraw();
        }
        return true;
      }
      var mate := IsCheckmate(currentPlayer);
      if mate {
        var winner := if currentPlayer == Player then Cpu else Player;
        EndGame(winner);
        return true;
      }
      var stale := IsStalemate(currentPlayer);
      if stale {
        EndGameDraw();
        return true;
      }
      return false;
    }

    // -------------------------------------------------------------------
    // Moves for real
    // -------------------------------------------------------------------

    /**
     * `initiateMove(fromRow, fromCol, toRow, toCol)`: the move becomes the
     * pending move; a forced promotion completes it promoted, an optional
     * one of the player's completes it as the player answers (`choice`,
     * the promotion dialog), anything else completes it unpromoted.
     */
    method InitiateMove(fromRow: int, fromCol: int, toRow: int, toCol: int, choice: bool)
      requires Valid() && OnBoard(fromRow, fromCol) && OnBoard(toRow, toCol) && board[Idx(fromRow, fromCol)].Some?
      modifies board, this`playerCaptured, this`cpuCaptured, this`currentPlayer, this`positionHistory,
        this`gameOver, this`outcome, this`stateHistory, this`pendingMove
      ensures Value() == CompleteMoveSpec(old(Value()).(pendingMove := Some(Pending(fromRow, fromCol, toRow, toCol))),
                                          PromoteDecision(old(board[Idx(fromRow, fromCol)].value), fromRow, toRow, choice))
    {
      var piece := board[Idx(fromRow, fromCol)].value;
      var canPromote := CanPromoteMove(piece, fromRow, toRow);
      var mustPromote := MustPromote(piece, toRow);
      pendingMove := Some(Pending(fromRow, fromCol, toRow, toCol));
      if mustPromote {
        CompleteMove(true);
      } else if canPromote && piece.owner == Player {
        CompleteMove(choice);
      } else {
        CompleteMove(false);
      }
    }

    /**
     * `completeMove(promote)` on the pending move: a snapshot for a player's
     * move, the capture (ending the game, before anything moves, if a king
     * is taken), the move and the chosen promotion, then the switch of side,
     * `recordPosition` and `checkGameEndConditions`.
     */
    method CompleteMove(promote: bool)
      requires Valid() && PendingOk(Value())
      modifies board, this`playerCaptured, this`cpuCaptured, this`currentPlayer, this`positionHistory,
        this`gameOver, this`outcome, this`stateHistory, this`pendingMove
      ensures Value() == CompleteMoveSpec(old(Value()), promote)
    {
      if pendingMove.None? {
        return;
      }
      var Pending(fromRow, fromCol, toRow, toCol) := pendingMove.value;
      var piece := board[Idx(fromRow, fromCol)].value;
      if piece.owner == Player {
        SaveStateSnapshot();
      }
      var ended := TakeTarget(piece.owner, toRow, toCol);
      if ended {
        return;
      }
      // The piece object is promoted after it is placed; as a value, it is promoted first.
      ShiftPiece(fromRow, fromCol, toRow, toCol, CompletedPiece(piece, promote));
      pendingMove := None;
      FinishMove();
    }

    /**
     * The capture step of `completeMove` and `makeMove`: the base type of the
     * piece on the destination goes to the end of the mover's pool; taking a
     * king ends the game with the mover as winner.
     */
    method TakeTarget(mover: Side, toRow: int, toCol: int) returns (ended: bool)
      requires Valid() && OnBoard(toRow, toCol)
      modifies this`playerCaptured, this`cpuCaptured, this`gameOver, this`outcome
      ensures Value() == Take(old(Value()), mover, old(board[Idx(toRow, toCol)]))
      ensures ended == KingOn(old(Value()).board, toRow, toCol)
    {
      var capturedPiece := board[Idx(toRow, toCol)];
      if capturedPiece.Some? {
        var base := CapturedKind(capturedPiece.value.kind);
        if mover == Player {
          playerCaptured := playerCaptured + [base];
        } else {
          cpuCaptured := cpuCaptured + [base];
        }
        if capturedPiece.value.kind == King || capturedPiece.value.kind == Jewel {
          EndGame(mover);
          return true;
        }
      }
      return false;
    }

    /**
     * `makeMove(fromRow, fromCol, toRow, toCol, promote)`: as `completeMove`,
     * with the snapshot taken for the computer's moves and the promotion of
     * `MovedPiece`: the flag is honoured only for an unpromoted promotable
     * piece, and a computer piece arriving on rows 6 to 8 promotes by itself.
     */
    method MakeMove(fromRow: int, fromCol: int, toRow: int, toCol: int, promote: bool)
      requires Valid() && OnBoard(fromRow, fromCol) && OnBoard(toRow, toCol) && board[Idx(fromRow, fromCol)].Some?
      modifies board, this`playerCaptured, this`cpuCaptured, this`currentPlayer, this`positionHistory,
        this`gameOver, this`outcome, this`stateHistory
      ensures Value() == MakeMoveSpec(old(Value()), fromRow, fromCol, toRow, toCol, promote)
    {
      var piece := board[Idx(fromRow, fromCol)].value;
      if piece.owner == Cpu {
        SaveStateSnapshot();
      }
      var ended := TakeTarget(piece.owner, toRow, toCol);
      if ended {
        return;
      }
      ShiftPiece(fromRow, fromCol, toRow, toCol, MovedPiece(piece, promote, toRow));
      FinishMove();
    }

    /** The board step of a move: `moved` on the destination, the origin emptied, the other side to move. */
    method ShiftPiece(fromRow: int, fromCol: int, toRow: int, toCol: int, moved: Piece)
      requires Valid() && OnBoard(fromRow, fromCol) && OnBoard(toRow, toCol)
      modifies board, this`currentPlayer
      ensures Value() == Shift(old(Value()), fromRow, fromCol, toRow, toCol, moved)
    {
      board[Idx(toRow, toCol)] := Some(moved);
      board[Idx(fromRow, fromCol)] := None;
      currentPlayer := if currentPlayer == Player then Cpu else Player;
    }

    /** What every move ends with: `recordPosition()`, then `checkGameEndConditions()`. */
    method FinishMove()
      requires Valid()
      modifies board, this`positionHistory, this`gameOver, this`outcome
      ensures Value() == Finish(old(Value()))
    {
      RecordPosition();
      var ended := CheckGameEndConditions();
    }

    /**
     * `executeCpuDrop(move)`: a snapshot, the first copy of the type leaves
     * the computer's pool (if it is there), the piece is placed unpromoted,
     * the player is to move, then `recordPosition` and `checkGameEndConditions`.
     */
    method ExecuteCpuDrop(pieceType: PieceType, toRow: int, toCol: int)
      requires Valid() && OnBoard(toRow, toCol)
      modifies board, this`playerCaptured, this`cpuCaptured, this`currentPlayer, this`positionHistory, this`gameOver,
        this`outcome, this`stateHistory
      ensures Value() == CpuDropSpec(old(Value()), pieceType, toRow, toCol)
    {
      SaveStateSnapshot();
      DropStep(pieceType, toRow, toCol, Cpu);
      FinishMove();
    }

    /**
     * The board step of a drop by `side`: the first copy of the type leaves
     * the pool (if it is there), the piece is placed unpromoted and the other
     * side is to move.
     */
    method DropStep(pieceType: PieceType, row: int, col: int, side: Side)
      requires Valid() && OnBoard(row, col)
      modifies board, this`playerCaptured, this`cpuCaptured, this`currentPlayer
      ensures Value() == Dropping(old(Value()), pieceType, row, col, side)
    {
      ghost var g0 := Value();
      TakeFromHand(pieceType, side);
      board[Idx(row, col)] := Some(Piece(pieceType, side, false));
      assert board[..] == Put(g0.board, row, col, Some(Piece(pieceType, side, false)));
      currentPlayer := Opponent(side);
    }

    /** The hand part of a drop: the first piece of the type leaves the dropper's pool, if it is there. */
    method TakeFromHand(pieceType: PieceType, side: Side)
      modifies this`playerCaptured, this`cpuCaptured
      ensures playerCaptured == if side == Player then DropFromPool(old(playerCaptured), pieceType) else old(playerCaptured)
      ensures cpuCaptured == if side == Cpu then DropFromPool(old(cpuCaptured), pieceType) else old(cpuCaptured)
    {
      if side == Player {
        var index := KindIndex(playerCaptured, pieceType);
        if index > -1 {
          playerCaptured := playerCaptured[..index] + playerCaptured[index + 1..];
        }
      } else {
        var index := KindIndex(cpuCaptured, pieceType);
        if index > -1 {
          cpuCaptured := cpuCaptured[..index] + cpuCaptured[index + 1..];
        }
      }
    }

    /**
     * `placeCapturedPiece(row, col)` with the selected type `pieceType`:
     * nothing happens unless `canPlaceCapturedPiece` allows the drop;
     * otherwise as `executeCpuDrop`, for the player.
     */
    method PlaceCapturedPiece(pieceType: PieceType, row: int, col: int)
      requires Valid() && OnBoard(row, col)
      modifies board, this`playerCaptured, this`cpuCaptured, this`currentPlayer, this`positionHistory, this`gameOver,
        this`outcome, this`stateHistory
      ensures Value() == PlaceSpec(old(Value()), pieceType, row, col)
    {
      var ok := CanPlaceCapturedPiece(pieceType, row, col, Player);
      if !ok {
        return;
      }
      SaveStateSnapshot();
      DropStep(pieceType, row, col, Player);
      FinishMove();
    }

    /**
     * `executeAIMove(move)`: a board move goes through `makeMove` with the
     * engine's promotion flag, a drop through `executeCpuDrop`.
     */
    method ExecuteAIMove(move: Usi.UsiMove)
      requires Valid() && OnBoard(move.toRow, move.toCol)
      requires move.UsiBoard? ==> OnBoard(move.fromRow, move.fromCol) && board[Idx(move.fromRow, move.fromCol)].Some?
      modifies board, this`playerCaptured, this`cpuCaptured, this`currentPlayer, this`positionHistory,
        this`gameOver, this`outcome, this`stateHistory
      ensures Value() == match move
        case UsiBoard(fr, fc, tr, tc, promote, _) => MakeMoveSpec(old(Value()), fr, fc, tr, tc, promote)
        case UsiDrop(t, r, c, _) => CpuDropSpec(old(Value()), t, r, c)
    {
      match move
      case UsiBoard(fr, fc, tr, tc, promote, _) =>
        MakeMove(fr, fc, tr, tc, promote);
      case UsiDrop(t, r, c, _) =>
        ExecuteCpuDrop(t, r, c);
    }

    // -------------------------------------------------------------------
    // Take-backs
    // -------------------------------------------------------------------

    /** `saveStateSnapshot()`: a copy of the state is pushed; beyond 100 the oldest is dropped. */
    method SaveStateSnapshot()
      requires Valid()
      modifies this`stateHistory
      ensures Value() == Saved(old(Value()))
    {
      var snapshot := Snapshot(board[..], currentPlayer, playerCaptured, cpuCaptured, positionHistory, gameOver);
      stateHistory := stateHistory + [snapshot];
      if |stateHistory| > 100 {
        stateHistory := stateHistory[1..];
      }
    }

    /**
     * `undo()`: refused after the end of the game, on the computer's turn
     * and with fewer than two snapshots; otherwise two snapshots are popped
     * and the state is restored from the second, on a new board.
     */
    method Undo() returns (ok: bool)
      requires Valid()
      modifies this`board, this`currentPlayer, this`playerCaptured, this`cpuCaptured, this`positionHistory,
        this`gameOver, this`stateHistory, this`pendingMove
      ensures Valid()
      ensures (Value(), ok) == UndoSpec(old(Value()))
    {
      if gameOver {
        return false;
      }
      if currentPlayer == Cpu {
        return false;
      }
      if |stateHistory| < 2 {
        return false;
      }
      ghost var h := stateHistory;
      stateHistory := stateHistory[..|stateHistory| - 1];
      var previousState := stateHistory[|stateHistory| - 1];
      stateHistory := stateHistory[..|stateHistory| - 1];
      assert previousState == h[|h| - 2] && stateHistory == h[..|h| - 2];
      var restored := new Cell[81](i requires 0 <= i < 81 => previousState.board[i]);
      assert restored[..] == previousState.board;
      board := restored;
      currentPlayer := previousState.currentPlayer;
      playerCaptured := previousState.playerCaptured;
      cpuCaptured := previousState.cpuCaptured;
      positionHistory := previousState.positionHistory;
      gameOver := previousState.gameOver;
      pendingMove := None;
      return true;
    }

    // -------------------------------------------------------------------
    // The search: virtual moves, the table key, minimax
    // -------------------------------------------------------------------

    /** The board and both pools, as the search sees them. */
    function Position(): State
      reads this`board, this`playerCaptured, this`cpuCaptured, board
      requires board.Length == 81
    {
      State(board[..], playerCaptured, cpuCaptured)
    }

    /**
     * `applyVirtualMove(move, currentPlayer)`: the move is made on the board
     * and the pools, and the record to take it back is returned.
     */
    method ApplyVirtualMove(move: Move) returns (undoInfo: UndoInfo)
      requires Valid() && Applicable(Cells(), move)
      modifies board, this`playerCaptured, this`cpuCaptured
      ensures (Position(), undoInfo) == ApplyMove(old(Position()), move)
    {
      ghost var st := Position();
      match move
      case BoardMove(fromRow, fromCol, toRow, toCol, _) =>
        var piece := board[Idx(fromRow, fromCol)].value;
        var capturedPiece := board[Idx(toRow, toCol)];
        var promoted := false;
        var current := piece;
        if piece.owner == Player && toRow <= 2 && !piece.promoted && CanPromote(piece.kind) {
          current := Piece(PromotesTo(piece.kind).value, piece.owner, true);
          promoted := true;
        } else if piece.owner == Cpu && toRow >= 6 && !piece.promoted && CanPromote(piece.kind) {
          current := Piece(PromotesTo(piece.kind).value, piece.owner, true);
          promoted := true;
        }
        board[Idx(toRow, toCol)] := Some(current);
        board[Idx(fromRow, fromCol)] := None;
        assert board[..] == Put(Put(st.board, toRow, toCol, Some(current)), fromRow, fromCol, None);
        var capturedPieceType := None;
        if capturedPiece.Some? {
          var base := CapturedKind(capturedPiece.value.kind);
          if piece.owner == Player {
            playerCaptured := playerCaptured + [base];
          } else {
            cpuCaptured := cpuCaptured + [base];
          }
          capturedPieceType := Some(base);
        }
        undoInfo := UndoInfo(move, Some(piece), capturedPiece, promoted, capturedPieceType, -1);
      case DropMove(pieceType, toRow, toCol, owner) =>
        var capturedPieceIndex := -1;
        if owner == Player {
          var index := KindIndex(playerCaptured, pieceType);
          if index > -1 {
            playerCaptured := playerCaptured[..index] + playerCaptured[index + 1..];
            capturedPieceIndex := index;
          }
        } else {
          var index := KindIndex(cpuCaptured, pieceType);
          if index > -1 {
            cpuCaptured := cpuCaptured[..index] + cpuCaptured[index + 1..];
            capturedPieceIndex := index;
          }
        }
        board[Idx(toRow, toCol)] := Some(Piece(pieceType, owner, false));
        undoInfo := UndoInfo(move, None, None, false, None, capturedPieceIndex);
    }

    /** `undoVirtualMove(undoInfo)`: the inverse step, read off the record. */
    method UndoVirtualMove(undoInfo: UndoInfo)
      requires Valid() && Undoable(undoInfo)
      modifies board, this`playerCaptured, this`cpuCaptured
      ensures Position() == UndoMove(old(Position()), undoInfo)
    {
      ghost var st := Position();
      match undoInfo.move
      case BoardMove(fromRow, fromCol, toRow, toCol, _) =>
        board[Idx(fromRow, fromCol)] := undoInfo.originalPiece;
        board[Idx(toRow, toCol)] := undoInfo.capturedPiece;
        if undoInfo.promoted {
          var original := undoInfo.originalPiece.value;
          board[Idx(fromRow, fromCol)] := Some(Piece(original.kind, original.owner, false));
        }
        assert board[..] == UndoBoard(st.board, undoInfo);
        if undoInfo.capturedPieceType.Some? {
          var t := undoInfo.capturedPieceType.value;
          if undoInfo.originalPiece.value.owner == Player {
            var index := LastKindIndex(playerCaptured, t);
            if index > -1 {
              playerCaptured := playerCaptured[..index] + playerCaptured[index + 1..];
            }
          } else {
            var index := LastKindIndex(cpuCaptured, t);
            if index > -1 {
              cpuCaptured := cpuCaptured[..index] + cpuCaptured[index + 1..];
            }
          }
        }
      case DropMove(pieceType, toRow, toCol, owner) =>
        board[Idx(toRow, toCol)] := None;
        if undoInfo.capturedPieceIndex != -1 {
          if owner == Player {
            playerCaptured := InsertAt(playerCaptured, undoInfo.capturedPieceIndex, pieceType);
          } else {
            cpuCaptured := InsertAt(cpuCaptured, undoInfo.capturedPieceIndex, pieceType);
          }
        }
    }

    /**
     * `getPositionHash()`: the occupied squares in row-major order, then the
     * two pools, each sorted in place, joined with no separator.
     */
    method GetPositionHash() returns (hash: string)
      requires Valid()
      modifies this`playerCaptured, this`cpuCaptured
      ensures Position() == Settled(old(Position()))
      ensures hash == PositionHash(board[..], old(playerCaptured), old(cpuCaptured))
    {
      hash := SquaresKey();
      playerCaptured := SortKinds(playerCaptured);
      cpuCaptured := SortKinds(cpuCaptured);
      hash := hash + Concat(NamesOf(playerCaptured)) + Concat(NamesOf(cpuCaptured));
    }

    /** The square part of `getPositionHash()`: the two loops over the board. */
    method SquaresKey() returns (hash: string)
      requires Valid()
      ensures hash == KeySquaresText(board[..], 0)
    {
      hash := "";
      ghost var b := board[..];
      for r := 0 to 9
        invariant hash == KeyPrefix(b, r * 9)
      {
        for c := 0 to 9
          invariant hash == KeyPrefix(b, r * 9 + c)
        {
          var p := board[r * 9 + c];
          if p.Some? {
            hash := hash + KeySquareText(r * 9 + c, p.value.kind, p.value.owner);
          }
        }
        assert (r + 1) * 9 == r * 9 + 9;
      }
      KeyPrefixAll(b, 81);
    }

    /**
     * `minimax(depth, alpha, beta, isMaximizing)`: the score and the table
     * afterwards are those of `Search` on the position; the board comes back
     * and the pools are left sorted.
     */
    method Minimax(ghost st: State, ghost tt0: TTable, depth: nat, alpha: Score, beta: Score, isMaximizing: bool)
      returns (score: Score)
      requires Valid() && Position() == st && transpositionTable == tt0
      modifies board, this`playerCaptured, this`cpuCaptured, this`transpositionTable
      ensures Position() == Settled(st)
      ensures score == Search.Search(Shogi, st, tt0, depth, alpha, beta, isMaximizing).0
      ensures transpositionTable == Search.Search(Shogi, st, tt0, depth, alpha, beta, isMaximizing).1
      decreases depth, 4
    {
      SearchUnfold(Shogi, st, tt0, depth, alpha, beta, isMaximizing);
      ShogiSettle(st);
      var hash := GetPositionHash();
      ghost var s := Position();
      ShogiNode(s);
      assert s == SettleOf(Shogi, st) && hash == KeyOf(Shogi, s);
      var probe := LookUp(hash, depth, alpha, beta);
      match probe
      case Hit(v) =>
        return v;
      case Window(a, b) =>
        if depth == 0 {
          return Fin(Evaluate(board[..], playerCaptured, cpuCaptured));
        }
        score := Expand(s, tt0, hash, depth, a, b, isMaximizing);
    }

    /**
     * The table lookup at the head of `minimax`: an entry at least as deep
     * as the search either answers or narrows the window.
     */
    method LookUp(hash: string, depth: nat, alpha: Score, beta: Score) returns (probe: Probe)
      ensures probe == ProbeTable(transpositionTable, hash, depth, alpha, beta)
    {
      var a, b := alpha, beta;
      if hash in transpositionTable && transpositionTable[hash].depth >= depth {
        var ttEntry := transpositionTable[hash];
        if ttEntry.flag == Exact {
          return Hit(ttEntry.score);
        }
        if ttEntry.flag == Lower && Lt(a, ttEntry.score) {
          a := ttEntry.score;
        }
        if ttEntry.flag == Upper && Lt(ttEntry.score, b) {
          b := ttEntry.score;
        }
        if Le(b, a) {
          return Hit(ttEntry.score);
        }
      }
      return Window(a, b);
    }

    /**
     * The body of `minimax` below depth 0: the mate score when the side to
     * move has no legal move, and otherwise the loop over the ordered moves,
     * whose result is stored under the key (the table is emptied first when
     * it has reached `ttMaxSize` entries).
     */
    method Expand(ghost s: State, ghost tt0: TTable, hash: string, depth: nat, alpha: Score, beta: Score,
                  isMaximizing: bool) returns (score: Score)
      requires Valid() && 0 < depth && Position() == s && transpositionTable == tt0
      requires SortedKinds(s.pp) && SortedKinds(s.cp)
      modifies board, this`playerCaptured, this`cpuCaptured, this`transpositionTable
      ensures Position() == s
      ensures |MovesOf(Shogi, s, isMaximizing)| == 0 ==>
        score == Fin(if isMaximizing then -1000000 else 1000000) && transpositionTable == tt0
      ensures |MovesOf(Shogi, s, isMaximizing)| > 0 ==>
        var r := SearchMoves(Shogi, s, tt0, depth, alpha, beta, isMaximizing, MovesOf(Shogi, s, isMaximizing), 0,
                             if isMaximizing then NegInf else PosInf);
        score == r.0 && transpositionTable == Store(r.2, hash, TTEntry(depth, r.0, r.1))
      decreases depth, 3
    {
      ShogiMoves(s, isMaximizing);
      var player := if isMaximizing then Cpu else Player;
      var legalMoves := GetAllLegalMoves(player);
      assert Position() == s;
      ghost var legal := AllLegalMoves(s.board, s.pp, s.cp, Mover(isMaximizing));
      assert legalMoves == legal;
      NodeMovesLegal(s, isMaximizing);
      if |legalMoves| == 0 {
        return Fin(if isMaximizing then -1000000 else 1000000);
      }
      score := SearchOrdered(s, tt0, hash, depth, alpha, beta, isMaximizing, legalMoves);
    }

    /** The ordered loop over the legal moves, and the store of its result. */
    method SearchOrdered(ghost s: State, ghost tt0: TTable, hash: string, depth: nat, alpha: Score, beta: Score,
                         isMaximizing: bool, legalMoves: seq<Move>) returns (score: Score)
      requires Valid() && 0 < depth && Position() == s && transpositionTable == tt0
      requires SortedKinds(s.pp) && SortedKinds(s.cp)
      requires legalMoves == AllLegalMoves(s.board, s.pp, s.cp, Mover(isMaximizing))
      modifies board, this`playerCaptured, this`cpuCaptured, this`transpositionTable
      ensures Position() == s
      ensures var r := SearchMoves(Shogi, s, tt0, depth, alpha, beta, isMaximizing, NodeMoves(s, isMaximizing), 0,
                                   if isMaximizing then NegInf else PosInf);
        score == r.0 && transpositionTable == Store(r.2, hash, TTEntry(depth, r.0, r.1))
      decreases depth, 2
    {
      LegalTargets(s.board, s.pp, s.cp, Mover(isMaximizing));
      var ordered := OrderMoves(board[..], legalMoves, if isMaximizing then Cpu else Player);
      assert ordered == NodeMoves(s, isMaximizing);
      var flag;
      score, flag := SearchChildren(s, tt0, depth, alpha, beta, isMaximizing, ordered);
      transpositionTable := Store(transpositionTable, hash, TTEntry(depth, score, flag));
    }

    /**
     * The loop of `minimax` over the ordered moves: each is applied, searched
     * one level deeper and taken back; the maximizer raises alpha, the
     * minimizer lowers beta, and a window that closes ends the loop with a
     * lower or upper bound.
     */
    method SearchChildren(ghost s: State, ghost tt0: TTable, depth: nat, alpha: Score, beta: Score,
                          isMaximizing: bool, moves: seq<Move>) returns (bestScore: Score, flag: Flag)
      requires Valid() && 0 < depth && Position() == s && transpositionTable == tt0
      requires SortedKinds(s.pp) && SortedKinds(s.cp)
      requires forall m :: m in moves ==> Reversible(s.board, m)
      modifies board, this`playerCaptured, this`cpuCaptured, this`transpositionTable
      ensures Position() == s
      ensures var r := SearchMoves(Shogi, s, tt0, depth, alpha, beta, isMaximizing, moves, 0,
                                   if isMaximizing then NegInf else PosInf);
        bestScore == r.0 && flag == r.1 && transpositionTable == r.2
      decreases depth, 1
    {
      ghost var target := SearchMoves(Shogi, s, tt0, depth, alpha, beta, isMaximizing, moves, 0,
                                      if isMaximizing then NegInf else PosInf);
      var d: nat := depth - 1;
      var a, b := alpha, beta;
      bestScore := if isMaximizing then NegInf else PosInf;
      flag := Exact;
      var i := 0;
      while i < |moves|
        invariant 0 <= i <= |moves|
        invariant Position() == s
        invariant SearchMoves(Shogi, s, transpositionTable, depth, a, b, isMaximizing, moves, i, bestScore) == target
        decreases |moves| - i
      {
        ghost var tt, a0, b0, best0, i0 := transpositionTable, a, b, bestScore, i;
        var evalScore := SearchChild(s, tt, moves[i], d, a, b, isMaximizing);
        if isMaximizing {
          if Lt(bestScore, evalScore) {
            bestScore := evalScore;
          }
          if Lt(a, bestScore) {
            a := bestScore;
          }
        } else {
          if Lt(evalScore, bestScore) {
            bestScore := evalScore;
          }
          if Lt(bestScore, b) {
            b := bestScore;
          }
        }
        i := i + 1;
        SearchMovesStep(Shogi, s, tt, depth, d, a0, b0, isMaximizing, moves, i0, i, best0, evalScore,
                        transpositionTable, a, b, bestScore);
        if Le(b, a) {
          flag := if isMaximizing then Lower else Upper;
          return;
        }
      }
    }

    /** One move of the loop: apply it, search below it to depth d and take it back. */
    method SearchChild(ghost s: State, ghost tt: TTable, move: Move, d: nat, alpha: Score, beta: Score,
                       isMaximizing: bool) returns (evalScore: Score)
      requires Valid() && Position() == s && transpositionTable == tt
      requires SortedKinds(s.pp) && SortedKinds(s.cp) && Reversible(s.board, move)
      modifies board, this`playerCaptured, this`cpuCaptured, this`transpositionTable
      ensures Position() == s
      ensures evalScore == Search.Search(Shogi, PlayOf(Shogi, s, move), tt, d, alpha, beta, !isMaximizing).0
      ensures transpositionTable == Search.Search(Shogi, PlayOf(Shogi, s, move), tt, d, alpha, beta, !isMaximizing).1
      decreases d + 1, 0
    {
      UndoAfterSort(s, move);
      ShogiPlay(s, move);
      var undo := ApplyVirtualMove(move);
      ghost var child := Position();
      assert child == PlayOf(Shogi, s, move);
      evalScore := Minimax(child, tt, d, alpha, beta, !isMaximizing);
      UndoVirtualMove(undo);
    }

    // -------------------------------------------------------------------
    // The computer's turn with the built-in AI
    // -------------------------------------------------------------------

    /**
     * `cpuTurnWithBuiltinAI()`: no legal move ends the game for the player;
     * otherwise a move is chosen at the current level and played with
     * `makeMove` (no promotion flag) or `executeCpuDrop`. `pick` stands for
     * the random draw that picks from a list, `preferCapture` for
     * `Math.random() < 0.7` at the medium level.
     */
    method CpuTurnWithBuiltinAI(pick: nat, preferCapture: bool)
      requires Valid()
      modifies board, this`playerCaptured, this`cpuCaptured, this`currentPlayer, this`positionHistory,
        this`gameOver, this`outcome, this`stateHistory, this`transpositionTable
      ensures Value() == CpuTurnSpec(old(Value()), difficulty, pick, preferCapture)
      ensures transpositionTable == CpuTurnTable(old(Value()), difficulty, old(transpositionTable))
    {
      var legalMoves := GetAllLegalMoves(Cpu);
      if |legalMoves| == 0 {
        CpuTurnResigned(Value(), difficulty, pick, preferCapture);
        EndGame(Player);
        return;
      }
      CpuMove(legalMoves, pick, preferCapture);
    }

    /** The turn once the computer has a legal move: the choice, then the move. */
    method CpuMove(legalMoves: seq<Move>, pick: nat, preferCapture: bool)
      requires Valid() && legalMoves == AllLegalMoves(Cells(), playerCaptured, cpuCaptured, Cpu) && |legalMoves| > 0
      modifies board, this`playerCaptured, this`cpuCaptured, this`currentPlayer, this`positionHistory,
        this`gameOver, this`outcome, this`stateHistory, this`transpositionTable
      ensures Value() == CpuTurnSpec(old(Value()), difficulty, pick, preferCapture)
      ensures transpositionTable == CpuTurnTable(old(Value()), difficulty, old(transpositionTable))
    {
      ghost var g := Value();
      var selectedMove := ChooseCpuMove(legalMoves, pick, preferCapture);
      CpuTurnPlays(g, difficulty, pick, preferCapture, selectedMove);
      PlayCpuMove(selectedMove);
    }

    /** The choice of the move at the current level; only the hard level's search touches the pools and the table. */
    method ChooseCpuMove(legalMoves: seq<Move>, pick: nat, preferCapture: bool) returns (selectedMove: Move)
      requires Valid() && legalMoves == AllLegalMoves(Cells(), playerCaptured, cpuCaptured, Cpu) && |legalMoves| > 0
      modifies board, this`playerCaptured, this`cpuCaptured, this`transpositionTable
      ensures Value() == Chosen(old(Value()), difficulty)
      ensures CpuChoice(old(Value()), difficulty, pick, preferCapture) == Some(selectedMove)
      ensures transpositionTable == CpuTurnTable(old(Value()), difficulty, old(transpositionTable))
    {
      if difficulty == Hard {
        selectedMove := ChooseHard(legalMoves, pick, preferCapture);
      } else {
        selectedMove := ChooseAtRandom(legalMoves, pick, preferCapture);
      }
    }

    /** The easy and medium levels: a random legal move, or a random capture when the draw prefers one. */
    method ChooseAtRandom(legalMoves: seq<Move>, pick: nat, preferCapture: bool) returns (selectedMove: Move)
      requires Valid() && legalMoves == AllLegalMoves(Cells(), playerCaptured, cpuCaptured, Cpu) && |legalMoves| > 0
      requires difficulty != Hard
      ensures CpuChoice(Value(), difficulty, pick, preferCapture) == Some(selectedMove)
    {
      CpuChoiceCases(Value(), difficulty, pick, preferCapture);
      if difficulty == Easy {
        selectedMove := legalMoves[pick % |legalMoves|];
      } else {
        var captureMoves := Captures(board[..], legalMoves);
        if |captureMoves| > 0 && preferCapture {
          selectedMove := captureMoves[pick % |captureMoves|];
        } else {
          selectedMove := legalMoves[pick % |legalMoves|];
        }
      }
    }

    /** The hard level: the root search, then a random one of the tied best moves. */
    method ChooseHard(legalMoves: seq<Move>, pick: nat, preferCapture: bool) returns (selectedMove: Move)
      requires Valid() && legalMoves == AllLegalMoves(Cells(), playerCaptured, cpuCaptured, Cpu) && |legalMoves| > 0
      requires difficulty == Hard
      modifies board, this`playerCaptured, this`cpuCaptured, this`transpositionTable
      ensures Value() == Chosen(old(Value()), Hard)
      ensures CpuChoice(old(Value()), Hard, pick, preferCapture) == Some(selectedMove)
      ensures transpositionTable == HardRootOf(old(Value())).table
    {
      ghost var g := Value();
      HardChoice(g, pick, preferCapture);
      var bestMoves := HardSearch(StateOf(g), legalMoves);
      selectedMove := bestMoves[pick % |bestMoves|];
    }

    /** Playing the chosen legal move. */
    method PlayCpuMove(move: Move)
      requires Valid() && Applicable(Cells(), move)
      modifies board, this`playerCaptured, this`cpuCaptured, this`currentPlayer, this`positionHistory,
        this`gameOver, this`outcome, this`stateHistory
      ensures Value() == PlayCpu(old(Value()), move)
    {
      match move
      case BoardMove(fromRow, fromCol, toRow, toCol, _) =>
        MakeMove(fromRow, fromCol, toRow, toCol, false);
      case DropMove(pieceType, toRow, toCol, _) =>
        ExecuteCpuDrop(pieceType, toRow, toCol);
    }

    /**
     * The hard level's search: the table is cleared, the legal moves are
     * ordered, and each is tried with `minimax(depth - 1, alpha, Infinity,
     * false)`; a strictly better score replaces the best moves and raises
     * alpha, an equal one joins them.
     */
    method HardSearch(ghost st: State, legalMoves: seq<Move>) returns (bestMoves: seq<Move>)
      requires Valid() && Position() == st && legalMoves == AllLegalMoves(st.board, st.pp, st.cp, Cpu)
      modifies board, this`playerCaptured, this`cpuCaptured, this`transpositionTable
      ensures bestMoves == HardRoot(st).best && Position() == HardRoot(st).state
      ensures transpositionTable == HardRoot(st).table
    {
      transpositionTable := map[];
      LegalTargets(st.board, st.pp, st.cp, Cpu);
      var orderedMoves := OrderMoves(board[..], legalMoves, Cpu);
      assert orderedMoves == NodeMoves(st, true);
      bestMoves := RootSearch(st, orderedMoves);
    }

    /** The root loop of the hard level over the ordered moves, from an empty table. */
    method RootSearch(ghost st: State, orderedMoves: seq<Move>) returns (bestMoves: seq<Move>)
      requires Valid() && Position() == st && transpositionTable == map[]
      requires forall m :: m in orderedMoves ==> Reversible(st.board, m)
      modifies board, this`playerCaptured, this`cpuCaptured, this`transpositionTable
      ensures var r := RootOver(Shogi, st, orderedMoves);
        bestMoves == r.best && Position() == r.state && transpositionTable == r.table
    {
      var bestScore := NegInf;
      bestMoves := [];
      var alpha := NegInf;
      ghost var scores: seq<Score> := [];
      ghost var target := RootLoop(Shogi, st, map[], orderedMoves, 0, NegInf, NegInf, [], []);
      for i := 0 to |orderedMoves|
        invariant Position().board == st.board
        invariant RootLoop(Shogi, Position(), transpositionTable, orderedMoves, i, alpha, bestScore, bestMoves, scores) == target
      {
        var score := RootChild(Position(), transpositionTable, orderedMoves[i], alpha);
        if Lt(bestScore, score) {
          bestScore := score;
          bestMoves := [orderedMoves[i]];
          alpha := Max(alpha, score);
        } else if score == bestScore {
          bestMoves := bestMoves + [orderedMoves[i]];
        }
        scores := scores + [score];
      }
    }

    /** One root move: apply it, search below it and take it back. */
    method RootChild(ghost cur: State, ghost tt: TTable, move: Move, alpha: Score) returns (score: Score)
      requires Valid() && Position() == cur && transpositionTable == tt && Reversible(cur.board, move)
      modifies board, this`playerCaptured, this`cpuCaptured, this`transpositionTable
      ensures Trial(score, transpositionTable, Position()) == TryMove(Shogi, cur, tt, move, HardDepth - 1, alpha)
    {
      UndoAfterSort(cur, move);
      var undo := ApplyVirtualMove(move);
      ghost var child := Position();
      score := Minimax(child, tt, HardDepth - 1, alpha, PosInf, false);
      UndoVirtualMove(undo);
    }
  }

  /** One more square of a row scan: a move found is a move of the side, none extends the squares without one. */
  lemma RowScanStep(b: Grid, r: int, c: int, s: Side, found: bool)
    requires OnBoard(r, c)
    requires forall i :: r * 9 <= i < r * 9 + c ==> !HasMoveFrom(b, i, s)
    requires found == HasMoveFrom(b, r * 9 + c, s)
    ensures found ==> exists i :: 0 <= i < 81 && HasMoveFrom(b, i, s)
    ensures !found ==> forall i :: r * 9 <= i < r * 9 + c + 1 ==> !HasMoveFrom(b, i, s)
  {
  }

  /** The moves of square (r, c) extend the board moves of the squares before it. */
  lemma BoardMovesStep(b: Grid, s: Side, r: int, c: int, moves: seq<Move>, pieceMoves: seq<Move>)
    requires OnBoard(r, c)
    requires moves == BoardMovesPrefix(b, s, r * 9 + c) && pieceMoves == SquareMoves(b, s, Idx(r, c))
    ensures moves + pieceMoves == BoardMovesPrefix(b, s, r * 9 + c + 1)
  {
    var i := r * 9 + c;
    assert Idx(r, c) == i;
    BoardMovesSnoc(b, s, i);
  }

  /** The square part of the key for squares 0 to n - 1, built front to back. */
  function KeyPrefix(b: Grid, n: nat): string
    requires n <= 81
  {
    if n == 0 then ""
    else if b[n - 1].Some? then KeyPrefix(b, n - 1) + KeySquareText(n - 1, b[n - 1].value.kind, b[n - 1].value.owner)
    else KeyPrefix(b, n - 1)
  }

  lemma KeyPrefixAll(b: Grid, n: nat)
    requires n <= 81
    ensures KeyPrefix(b, n) + KeySquaresText(b, n) == KeySquaresText(b, 0)
  {
    KeyPrefixSplit(b, 0, n);
    EmptyPrefix(KeySquaresText(b, 0));
  }

  /** Moving the split point from m to n leaves the key text unchanged. */
  lemma {:induction false} KeyPrefixSplit(b: Grid, m: nat, n: nat)
    requires m <= n <= 81
    ensures KeyPrefix(b, n) + KeySquaresText(b, n) == KeyPrefix(b, m) + KeySquaresText(b, m)
    decreases n - m
  {
    if m < n {
      KeyPrefixSplit(b, m, n - 1);
      KeyPrefixStep(b, n);
    }
  }

  lemma EmptyPrefix(t: string)
    ensures "" + t == t
  {
  }

  /** Square n - 1 moves from the text still to come to the prefix built so far. */
  lemma KeyPrefixStep(b: Grid, n: nat)
    requires 0 < n <= 81
    ensures KeyPrefix(b, n) + KeySquaresText(b, n) == KeyPrefix(b, n - 1) + KeySquaresText(b, n - 1)
  {
    var p, rest := KeyPrefix(b, n - 1), KeySquaresText(b, n);
    if b[n - 1].Some? {
      var t := KeySquareText(n - 1, b[n - 1].value.kind, b[n - 1].value.owner);
      assert KeySquaresText(b, n - 1) == t + rest;
      assert KeyPrefix(b, n) == p + t;
      Sfen.AssocSeq(p, t, rest);
    } else {
      assert KeySquaresText(b, n - 1) == rest;
      assert KeyPrefix(b, n) == p;
    }
  }

  /** An enemy king stands on the square in front of (r, c) for s: the precondition of the uchifuzume test. */
  predicate FacesKing(b: Grid, r: int, c: int, s: Side)
  {
    var fr := FrontRow(r, s);
    0 <= fr < 9 && OnBoard(r, c) && IsKingOf(At(b, fr, c), Opponent(s))
  }

  // ---------------------------------------------------------------------
  // The state of the game object as a value
  // ---------------------------------------------------------------------

  /** How the game ended: `endGame(winner)` or `endGameDraw(reason)`. */
  datatype Outcome = Ongoing | Won(winner: Side) | Drawn

  /** The board move waiting for the promotion answer: `pendingMove`. */
  datatype Pending = Pending(fromRow: int, fromCol: int, toRow: int, toCol: int)

  /** A take-back snapshot: what `saveStateSnapshot` copies. */
  datatype Snapshot = Snapshot(board: Grid, currentPlayer: Side, playerCaptured: seq<PieceType>,
                               cpuCaptured: seq<PieceType>, positionHistory: seq<Entry>, gameOver: bool)

  /** The built-in levels: `'easy'`, `'medium'` and anything else, which plays as hard. */
  datatype Level = Easy | Medium | Hard

  /** The fields of `ShogiGame` that a move changes. */
  datatype GameState = GameState(board: Grid, currentPlayer: Side, playerCaptured: seq<PieceType>,
                                 cpuCaptured: seq<PieceType>, positionHistory: seq<Entry>, gameOver: bool,
                                 outcome: Outcome, stateHistory: seq<Snapshot>, pendingMove: Option<Pending>)

  /** The entry `recordPosition` appends. */
  function RecordedEntry(g: GameState): Entry
  {
    Record(BoardHash(g.currentPlayer, g.board, g.playerCaptured, g.cpuCaptured),
           if KingInCheck(g.board, g.currentPlayer) then Some(Opponent(g.currentPlayer)) else None)
  }

  function Recorded(g: GameState): GameState
  {
    g.(positionHistory := g.positionHistory + [RecordedEntry(g)])
  }

  /** The verdict of `checkGameEndConditions`, or None when the game goes on. */
  function EndState(g: GameState): Option<Outcome>
  {
    var rep := CheckRepetition(g.positionHistory, BoardHash(g.currentPlayer, g.board, g.playerCaptured, g.cpuCaptured));
    if rep.isRepetition then
      Some(if rep.perpetualChecker.Some? then Won(Opponent(rep.perpetualChecker.value)) else Drawn)
    else if Checkmate(g.board, g.playerCaptured, g.cpuCaptured, g.currentPlayer) then Some(Won(Opponent(g.currentPlayer)))
    else if Stalemate(g.board, g.playerCaptured, g.cpuCaptured, g.currentPlayer) then Some(Drawn)
    else None
  }

  function Concluded(g: GameState): (r: GameState)
    ensures r == g.(gameOver := r.gameOver, outcome := r.outcome)
    ensures r.gameOver <==> g.gameOver || EndState(g).Some?
  {
    match EndState(g)
    case None => g
    case Some(o) => g.(gameOver := true, outcome := o)
  }

  function SnapshotOf(g: GameState): Snapshot
  {
    Snapshot(g.board, g.currentPlayer, g.playerCaptured, g.cpuCaptured, g.positionHistory, g.gameOver)
  }

  function Saved(g: GameState): (r: GameState)
    ensures r == g.(stateHistory := r.stateHistory)
    ensures |r.stateHistory| > 0 && r.stateHistory[|r.stateHistory| - 1] == SnapshotOf(g)
    ensures |g.stateHistory| <= 100 ==> |r.stateHistory| <= 100
    ensures |g.stateHistory| < 100 ==> r.stateHistory == g.stateHistory + [SnapshotOf(g)]
  {
    var h := g.stateHistory + [SnapshotOf(g)];
    g.(stateHistory := if |h| > 100 then h[1..] else h)
  }

  /** A king of either side stands on (r, c). */
  predicate KingOn(b: Grid, r: int, c: int)
    requires OnBoard(r, c)
  {
    At(b, r, c).Some? && IsKing(At(b, r, c).value.kind)
  }

  /** The capture step: the base type of the captured piece to the end of the mover's pool; a king ends the game. */
  function Take(g: GameState, mover: Side, target: Cell): GameState
  {
    if target.None? then g
    else
      var k := CapturedKind(target.value.kind);
      var g1 := if mover == Player then g.(playerCaptured := g.playerCaptured + [k]) else g.(cpuCaptured := g.cpuCaptured + [k]);
      if IsKing(target.value.kind) then g1.(gameOver := true, outcome := Won(mover)) else g1
  }

  /** The piece goes from (fr, fc) to (tr, tc) as `moved`, and the other side is to move. */
  function Shift(g: GameState, fr: int, fc: int, tr: int, tc: int, moved: Piece): GameState
    requires OnBoard(fr, fc) && OnBoard(tr, tc)
  {
    g.(board := Put(Put(g.board, tr, tc, Some(moved)), fr, fc, None), currentPlayer := Opponent(g.currentPlayer))
  }

  /** What follows every move: `recordPosition`, then `checkGameEndConditions`. */
  function Finish(g: GameState): (r: GameState)
    ensures r == g.(positionHistory := g.positionHistory + [RecordedEntry(g)], gameOver := r.gameOver, outcome := r.outcome)
  {
    Concluded(Recorded(g))
  }

  /** `canPromote` of `initiateMove`: an unpromoted promotable piece leaving or entering its owner's far three rows. */
  predicate CanPromoteMove(p: Piece, fromRow: int, toRow: int)
  {
    !p.promoted && CanPromote(p.kind)
    && ((p.owner == Player && (fromRow <= 2 || toRow <= 2)) || (p.owner == Cpu && (fromRow >= 6 || toRow >= 6)))
  }

  /** `mustPromote` of `initiateMove`: a pawn or lance reaching the last row, a knight the last two. */
  predicate MustPromote(p: Piece, toRow: int)
  {
    !p.promoted && CanPromote(p.kind)
    && ((p.owner == Player && p.kind == Pawn && toRow == 0)
        || (p.owner == Player && p.kind == Lance && toRow == 0)
        || (p.owner == Player && p.kind == Knight && (toRow == 0 || toRow == 1))
        || (p.owner == Cpu && p.kind == Pawn && toRow == 8)
        || (p.owner == Cpu && p.kind == Lance && toRow == 8)
        || (p.owner == Cpu && p.kind == Knight && (toRow == 7 || toRow == 8)))
  }

  /** The argument `initiateMove` passes to `completeMove`. */
  function PromoteDecision(p: Piece, fromRow: int, toRow: int, choice: bool): (r: bool)
    ensures r ==> CanPromoteMove(p, fromRow, toRow)
    ensures MustPromote(p, toRow) ==> r
    ensures p.owner == Cpu ==> (r <==> MustPromote(p, toRow))
    ensures p.owner == Player && !MustPromote(p, toRow) && CanPromoteMove(p, fromRow, toRow) ==> r == choice
  {
    if MustPromote(p, toRow) then true
    else if CanPromoteMove(p, fromRow, toRow) && p.owner == Player then choice
    else false
  }

  /** The piece `completeMove(promote)` leaves on the destination. */
  function CompletedPiece(p: Piece, promote: bool): (r: Piece)
    ensures r.owner == p.owner
    ensures r != p <==> promote && !p.promoted && CanPromote(p.kind)
    ensures r != p ==> r.promoted && Some(r.kind) == PromotesTo(p.kind)
    ensures p.promoted == IsPromotedKind(p.kind) ==> r.promoted == IsPromotedKind(r.kind)
  {
    if promote && !p.promoted && CanPromote(p.kind) then Piece(PromotesTo(p.kind).value, p.owner, true) else p
  }

  /** The pending move names a piece on the board. */
  predicate PendingOk(g: GameState)
  {
    g.pendingMove.Some? ==>
      var m := g.pendingMove.value;
      OnBoard(m.fromRow, m.fromCol) && OnBoard(m.toRow, m.toCol) && At(g.board, m.fromRow, m.fromCol).Some?
  }

  function CompleteMoveSpec(g: GameState, promote: bool): GameState
    requires PendingOk(g)
  {
    match g.pendingMove
    case None => g
    case Some(Pending(fr, fc, tr, tc)) =>
      var p := At(g.board, fr, fc).value;
      var g1 := Take(if p.owner == Player then Saved(g) else g, p.owner, At(g.board, tr, tc));
      if KingOn(g.board, tr, tc) then g1
      else Finish(Shift(g1, fr, fc, tr, tc, CompletedPiece(p, promote)).(pendingMove := None))
  }

  /**
   * The piece `makeMove` leaves on the destination, with the promotion guard
   * of `completeMove`: the flag promotes only an unpromoted promotable
   * piece, and so does the computer's arrival on rows 6 to 8.
   */
  function MovedPiece(p: Piece, promote: bool, toRow: int): (r: Piece)
    ensures r.owner == p.owner
    ensures r != p <==> (promote || (p.owner == Cpu && toRow >= 6)) && !p.promoted && CanPromote(p.kind)
    ensures r != p ==> r.promoted && Some(r.kind) == PromotesTo(p.kind)
    ensures p.promoted == IsPromotedKind(p.kind) ==> r.promoted == IsPromotedKind(r.kind)
  {
    if (promote || (p.owner == Cpu && toRow >= 6)) && !p.promoted && CanPromote(p.kind) then
      Piece(PromotesTo(p.kind).value, p.owner, true)
    else p
  }

  /**
   * The piece `makeMove` leaves as written: when the flag is set, or the
   * computer's promotable piece arrives on rows 6 to 8, the type becomes
   * `PIECES[type].promoted`, which is null (None here) for a type that
   * cannot promote.
   */
  function MovedAsWritten(p: Piece, promote: bool, toRow: int): (r: Option<Piece>)
    ensures r.None? <==> promote && !CanPromote(p.kind)
  {
    if promote || (p.owner == Cpu && toRow >= 6 && !p.promoted && CanPromote(p.kind)) then
      match PromotesTo(p.kind)
      case None => None
      case Some(k) => Some(Piece(k, p.owner, true))
    else Some(p)
  }

  /**
   * An external engine's move of a gold with the promotion flag set: the
   * code as written leaves a piece whose type is null, the corrected rule
   * leaves the gold as it was.
   */
  lemma MakeMoveGoldPromotion()
    ensures MovedAsWritten(Piece(Gold, Cpu, false), true, 4).None?
    ensures MovedPiece(Piece(Gold, Cpu, false), true, 4) == Piece(Gold, Cpu, false)
  {
  }

  /** Wherever the code as written leaves a piece of some type, the corrected rule leaves the same piece. */
  lemma MovedPieceAgrees(p: Piece, promote: bool, toRow: int)
    requires p.promoted == IsPromotedKind(p.kind)
    requires MovedAsWritten(p, promote, toRow).Some?
    ensures MovedAsWritten(p, promote, toRow).value == MovedPiece(p, promote, toRow)
  {
  }

  function MakeMoveSpec(g: GameState, fr: int, fc: int, tr: int, tc: int, promote: bool): GameState
    requires OnBoard(fr, fc) && OnBoard(tr, tc) && At(g.board, fr, fc).Some?
  {
    var p := At(g.board, fr, fc).value;
    var g1 := Take(if p.owner == Cpu then Saved(g) else g, p.owner, At(g.board, tr, tc));
    if KingOn(g.board, tr, tc) then g1
    else Finish(Shift(g1, fr, fc, tr, tc, MovedPiece(p, promote, tr)))
  }

  /** The pool after a drop of t: its first copy removed, if there is one. */
  function DropFromPool(pool: seq<PieceType>, t: PieceType): (r: seq<PieceType>)
  {
    var i := KindIndex(pool, t);
    if i > -1 then pool[..i] + pool[i + 1..] else pool
  }

  /** The board step of a drop of t by s. */
  function Dropping(g: GameState, t: PieceType, r: int, c: int, s: Side): GameState
    requires OnBoard(r, c)
  {
    var g1 := if s == Player then g.(playerCaptured := DropFromPool(g.playerCaptured, t))
              else g.(cpuCaptured := DropFromPool(g.cpuCaptured, t));
    g1.(board := Put(g.board, r, c, Some(Piece(t, s, false))), currentPlayer := Opponent(s))
  }

  function CpuDropSpec(g: GameState, t: PieceType, r: int, c: int): GameState
    requires OnBoard(r, c)
  {
    Finish(Dropping(Saved(g), t, r, c, Cpu))
  }

  function PlaceSpec(g: GameState, t: PieceType, r: int, c: int): GameState
    requires OnBoard(r, c)
  {
    if !CanDrop(g.board, g.playerCaptured, g.cpuCaptured, t, r, c, Player) then g
    else Finish(Dropping(Saved(g), t, r, c, Player))
  }

  /** The board and the pools of a game state, as the search sees them. */
  function StateOf(g: GameState): State
  {
    State(g.board, g.playerCaptured, g.cpuCaptured)
  }

  /**
   * The medium level's filter: the board moves onto an occupied square, in
   * order. (Every legal move lands on the board, so testing that changes
   * nothing for them.)
   */
  function Captures(b: Grid, ms: seq<Move>): (r: seq<Move>)
    ensures forall m :: m in r <==> m in ms && m.BoardMove? && OnBoard(m.toRow, m.toCol) && At(b, m.toRow, m.toCol).Some?
    ensures |r| <= |ms|
  {
    if |ms| == 0 then []
    else
      var m := ms[0];
      (if m.BoardMove? && OnBoard(m.toRow, m.toCol) && At(b, m.toRow, m.toCol).Some? then [m] else []) + Captures(b, ms[1..])
  }

  /** The root search of the hard level on the position of g, when it runs. */
  function HardRootOf(g: GameState): Root
  {
    HardRoot(StateOf(g))
  }

  /**
   * The move `cpuTurnWithBuiltinAI` selects in g: none when the computer
   * has no legal move; otherwise a legal move. At the medium level a capture
   * is taken when there is one and the draw prefers it; at the hard level the
   * move is one whose root score is the best score.
   */
  function CpuChoice(g: GameState, level: Level, pick: nat, preferCapture: bool): (r: Option<Move>)
    ensures var legal := AllLegalMoves(g.board, g.playerCaptured, g.cpuCaptured, Cpu);
      (r.None? <==> |legal| == 0) && (r.Some? ==> r.value in legal)
    ensures r.Some? && level == Medium && preferCapture
            && |Captures(g.board, AllLegalMoves(g.board, g.playerCaptured, g.cpuCaptured, Cpu))| > 0 ==>
      r.value.BoardMove? && OnBoard(r.value.toRow, r.value.toCol) && At(g.board, r.value.toRow, r.value.toCol).Some?
    ensures r.Some? && level == Hard ==> BestAtRoot(g, r.value)
  {
    var legal := AllLegalMoves(g.board, g.playerCaptured, g.cpuCaptured, Cpu);
    if |legal| == 0 then None
    else
      match level
      case Easy => Some(RandomPick(g.board, legal, false, pick, preferCapture))
      case Medium => Some(RandomPick(g.board, legal, true, pick, preferCapture))
      case Hard => Some(HardPick(g, pick))
  }

  /**
   * The easy and medium levels' pick among the legal moves: any of them
   * at random; at the medium level one of the captures, when there is one
   * and the draw prefers it.
   */
  function RandomPick(b: Grid, legal: seq<Move>, medium: bool, pick: nat, preferCapture: bool): (m: Move)
    requires |legal| > 0
    ensures m in legal
    ensures medium && preferCapture && |Captures(b, legal)| > 0 ==>
      m.BoardMove? && OnBoard(m.toRow, m.toCol) && At(b, m.toRow, m.toCol).Some?
    ensures !(medium && preferCapture && |Captures(b, legal)| > 0) ==> m == legal[pick % |legal|]
  {
    var captureMoves := Captures(b, legal);
    if medium && |captureMoves| > 0 && preferCapture then captureMoves[pick % |captureMoves|]
    else legal[pick % |legal|]
  }

  /** The choice at each level, when there is a legal move. */
  lemma CpuChoiceCases(g: GameState, level: Level, pick: nat, preferCapture: bool)
    ensures var legal := AllLegalMoves(g.board, g.playerCaptured, g.cpuCaptured, Cpu);
      |legal| > 0 ==>
        CpuChoice(g, level, pick, preferCapture) == Some(
          match level
          case Easy => RandomPick(g.board, legal, false, pick, preferCapture)
          case Medium => RandomPick(g.board, legal, true, pick, preferCapture)
          case Hard => HardPick(g, pick))
    ensures var legal := AllLegalMoves(g.board, g.playerCaptured, g.cpuCaptured, Cpu);
      level == Hard && |legal| > 0 ==> |HardRootOf(g).best| > 0 && HardPick(g, pick) == HardRootOf(g).best[pick % |HardRootOf(g).best|]
  {
    if |AllLegalMoves(g.board, g.playerCaptured, g.cpuCaptured, Cpu)| > 0 {
      HardRootBest(g);
    }
  }

  /** m is one of the moves tried at the hard level's root, with the best score found there. */
  ghost predicate BestAtRoot(g: GameState, m: Move)
  {
    var root, moves := HardRootOf(g), NodeMoves(StateOf(g), true);
    |root.scores| == |moves|
    && (exists k :: 0 <= k < |moves| && moves[k] == m && root.scores[k] == root.score)
    && forall k :: 0 <= k < |moves| ==> Le(root.scores[k], root.score)
  }

  /** `bestMoves[Math.floor(Math.random() * bestMoves.length)]`: a legal move with the best root score. */
  function HardPick(g: GameState, pick: nat): (m: Move)
    requires |AllLegalMoves(g.board, g.playerCaptured, g.cpuCaptured, Cpu)| > 0
    ensures m in AllLegalMoves(g.board, g.playerCaptured, g.cpuCaptured, Cpu) && BestAtRoot(g, m)
  {
    HardRootBest(g);
    var best := HardRootOf(g).best;
    best[pick % |best|]
  }

  /**
   * The hard level's best moves are a non-empty list of legal moves with
   * the best score, when there are legal moves.
   */
  lemma HardRootBest(g: GameState)
    requires |AllLegalMoves(g.board, g.playerCaptured, g.cpuCaptured, Cpu)| > 0
    ensures var root, moves := HardRootOf(g), NodeMoves(StateOf(g), true);
      |root.best| > 0 && |root.scores| == |moves|
      && (forall m :: m in root.best ==> m in AllLegalMoves(g.board, g.playerCaptured, g.cpuCaptured, Cpu))
      && (forall m :: m in root.best ==> exists k :: 0 <= k < |moves| && moves[k] == m && root.scores[k] == root.score)
      && forall k :: 0 <= k < |moves| ==> Le(root.scores[k], root.score)
  {
  }

  /** The hard level's choice and state, read off its root search. */
  lemma HardChoice(g: GameState, pick: nat, preferCapture: bool)
    requires |AllLegalMoves(g.board, g.playerCaptured, g.cpuCaptured, Cpu)| > 0
    ensures var root := HardRoot(StateOf(g));
      |root.best| > 0 && CpuChoice(g, Hard, pick, preferCapture) == Some(root.best[pick % |root.best|])
      && root.state.board == g.board
      && Chosen(g, Hard) == g.(playerCaptured := root.state.pp, cpuCaptured := root.state.cp)
  {
    CpuChoiceCases(g, Hard, pick, preferCapture);
    var c := Chosen(g, Hard);
    assert c.board == g.board;
  }

  /** The state once the move is chosen: the hard level's search leaves the pools permuted. */
  function Chosen(g: GameState, level: Level): (r: GameState)
    ensures r.(playerCaptured := g.playerCaptured, cpuCaptured := g.cpuCaptured) == g
    ensures multiset(r.playerCaptured) == multiset(g.playerCaptured) && multiset(r.cpuCaptured) == multiset(g.cpuCaptured)
  {
    if level == Hard then
      var root := HardRootOf(g);
      g.(playerCaptured := root.state.pp, cpuCaptured := root.state.cp)
    else g
  }

  /** The table after the computer's turn: the hard level's search replaces it. */
  function CpuTurnTable(g: GameState, level: Level, tt: TTable): TTable
  {
    if level == Hard && |AllLegalMoves(g.board, g.playerCaptured, g.cpuCaptured, Cpu)| > 0 then HardRootOf(g).table
    else tt
  }

  /** The chosen move played: a board move through `makeMove` without promotion flag, a drop through `executeCpuDrop`. */
  function PlayCpu(g: GameState, m: Move): GameState
    requires Applicable(g.board, m)
  {
    match m
    case BoardMove(fr, fc, tr, tc, _) => MakeMoveSpec(g, fr, fc, tr, tc, false)
    case DropMove(t, r, c, _) => CpuDropSpec(g, t, r, c)
  }

  /** With no legal move the computer loses and the table is kept. */
  lemma CpuTurnResigned(g: GameState, level: Level, pick: nat, preferCapture: bool)
    requires |AllLegalMoves(g.board, g.playerCaptured, g.cpuCaptured, Cpu)| == 0
    ensures CpuTurnSpec(g, level, pick, preferCapture) == g.(gameOver := true, outcome := Won(Player))
    ensures forall tt :: CpuTurnTable(g, level, tt) == tt
  {
  }

  /** With a chosen move m, the turn plays m on the state the choice leaves. */
  lemma CpuTurnPlays(g: GameState, level: Level, pick: nat, preferCapture: bool, m: Move)
    requires CpuChoice(g, level, pick, preferCapture) == Some(m)
    ensures Applicable(Chosen(g, level).board, m)
    ensures CpuTurnSpec(g, level, pick, preferCapture) == PlayCpu(Chosen(g, level), m)
  {
    LegalReversible(g.board, g.playerCaptured, g.cpuCaptured, Cpu);
  }

  /** `cpuTurnWithBuiltinAI()` on g at the given level. */
  function CpuTurnSpec(g: GameState, level: Level, pick: nat, preferCapture: bool): GameState
  {
    match CpuChoice(g, level, pick, preferCapture)
    case None => g.(gameOver := true, outcome := Won(Player))
    case Some(m) =>
      LegalReversible(g.board, g.playerCaptured, g.cpuCaptured, Cpu);
      PlayCpu(Chosen(g, level), m)
  }
  /**
   * The computer's turn on its move: with no legal move the player wins;
   * taking a king wins for the computer; any other move keeps every piece
   * (on the board or in a hand), hands the turn to the player and records
   * one position.
   */
  lemma CpuTurnConserves(g: GameState, level: Level, pick: nat, preferCapture: bool)
    requires g.currentPlayer == Cpu
    ensures var r, c := CpuTurnSpec(g, level, pick, preferCapture), CpuChoice(g, level, pick, preferCapture);
      (c.None? ==> r.gameOver && r.outcome == Won(Player) && Material(r) == Material(g))
      && (c.Some? && c.value.BoardMove? && OnBoard(c.value.toRow, c.value.toCol) && KingOn(g.board, c.value.toRow, c.value.toCol)
          ==> r.gameOver && r.outcome == Won(Cpu))
      && (c.Some? && !(c.value.BoardMove? && OnBoard(c.value.toRow, c.value.toCol) && KingOn(g.board, c.value.toRow, c.value.toCol))
          ==> Material(r) == Material(g) && r.currentPlayer == Player && |r.positionHistory| == |g.positionHistory| + 1)
  {
    var c := CpuChoice(g, level, pick, preferCapture);
    if c.Some? {
      CpuTurnPlays(g, level, pick, preferCapture, c.value);
      PlayConserves(g, Chosen(g, level), c.value);
    }
  }

  /**
   * A legal move of the computer played on g1, a state that differs from g
   * at most by the order of the pools: taking a king wins; any other move
   * keeps every piece, hands the turn to the player and records one
   * position.
   */
  lemma PlayConserves(g: GameState, g1: GameState, m: Move)
    requires g.currentPlayer == Cpu && m in AllLegalMoves(g.board, g.playerCaptured, g.cpuCaptured, Cpu)
    requires g1.(playerCaptured := g.playerCaptured, cpuCaptured := g.cpuCaptured) == g
    requires multiset(g1.playerCaptured) == multiset(g.playerCaptured) && multiset(g1.cpuCaptured) == multiset(g.cpuCaptured)
    ensures Applicable(g1.board, m)
    ensures m.BoardMove? && OnBoard(m.toRow, m.toCol) && KingOn(g.board, m.toRow, m.toCol) ==>
      PlayCpu(g1, m).gameOver && PlayCpu(g1, m).outcome == Won(Cpu)
    ensures !(m.BoardMove? && OnBoard(m.toRow, m.toCol) && KingOn(g.board, m.toRow, m.toCol)) ==>
      var r := PlayCpu(g1, m);
      Material(r) == Material(g) && r.currentPlayer == Player && |r.positionHistory| == |g.positionHistory| + 1
  {
    AllLegalMovesWellFormed(g.board, g.playerCaptured, g.cpuCaptured, Cpu);
    LegalReversible(g.board, g.playerCaptured, g.cpuCaptured, Cpu);
    assert |g1.playerCaptured| == |multiset(g1.playerCaptured)| == |g.playerCaptured|;
    assert |g1.cpuCaptured| == |multiset(g1.cpuCaptured)| == |g.cpuCaptured|;
    assert Material(g1) == Material(g);
    match m
    case BoardMove(fr, fc, tr, tc, _) =>
      if KingOn(g.board, tr, tc) {
        KingCaptureEnds(g1, fr, fc, tr, tc, false);
      } else {
        MakeMoveConserves(g1, fr, fc, tr, tc, false);
      }
    case DropMove(t, r, col, _) =>
      assert t in multiset(g1.cpuCaptured);
      DropConserves(Saved(g1), t, r, col, Cpu);
  }

  function UndoSpec(g: GameState): (GameState, bool)
  {
    var h := g.stateHistory;
    if g.gameOver || g.currentPlayer == Cpu || |h| < 2 then (g, false)
    else
      var prev := h[|h| - 2];
      (g.(board := prev.board, currentPlayer := prev.currentPlayer, playerCaptured := prev.playerCaptured,
          cpuCaptured := prev.cpuCaptured, positionHistory := prev.positionHistory, gameOver := prev.gameOver,
          stateHistory := h[..|h| - 2], pendingMove := None), true)
  }

  // ---------------------------------------------------------------------
  // Moves from an external engine
  // ---------------------------------------------------------------------

  /** `validateMove`'s test of one entry of the legal list: a drop by square and type, a board move by its squares. */
  predicate MatchesEntry(move: Usi.UsiMove, m: Move)
  {
    match move
    case UsiDrop(t, r, c, _) => m.DropMove? && m.toRow == r && m.toCol == c && m.kind == t
    case UsiBoard(fr, fc, tr, tc, _, _) =>
      m.BoardMove? && m.fromRow == fr && m.fromCol == fc && m.toRow == tr && m.toCol == tc
  }

  /** `validateMove(move, legalMoves)`. */
  predicate ValidateMove(move: Usi.UsiMove, legal: seq<Move>)
  {
    exists i :: 0 <= i < |legal| && MatchesEntry(move, legal[i])
  }

  /**
   * Against `getAllLegalMoves(s)`, a drop passes exactly when s holds the
   * type and `canPlaceCapturedPiece` allows it, and a board move exactly
   * when the origin holds a piece of s and the destination is one of its
   * `getValidMoves`; the promotion flag plays no part.
   */
  lemma ValidateMoveIff(b: Grid, pp: seq<PieceType>, cp: seq<PieceType>, s: Side, move: Usi.UsiMove)
    ensures ValidateMove(move, AllLegalMoves(b, pp, cp, s)) <==>
      match move
      case UsiDrop(t, r, c, _) => t in PoolOf(pp, cp, s) && OnBoard(r, c) && CanDrop(b, pp, cp, t, r, c, s)
      case UsiBoard(fr, fc, tr, tc, _, _) =>
        OnBoard(fr, fc) && At(b, fr, fc).Some? && At(b, fr, fc).value.owner == s
        && (tr as int, tc as int) in ValidMoves(b, fr, fc, false)
  {
    var legal := AllLegalMoves(b, pp, cp, s);
    if ValidateMove(move, legal) {
      var i :| 0 <= i < |legal| && MatchesEntry(move, legal[i]);
      AllLegalMovesIff(b, pp, cp, s, legal[i]);
    }
    match move
    case UsiDrop(t, r, c, _) =>
      AllLegalMovesIff(b, pp, cp, s, DropMove(t, r, c, s));
    case UsiBoard(fr, fc, tr, tc, _, _) =>
      if OnBoard(fr, fc) && At(b, fr, fc).Some? {
        AllLegalMovesIff(b, pp, cp, s, BoardMove(fr, fc, tr, tc, At(b, fr, fc).value));
      }
  }

  // ---------------------------------------------------------------------
  // Properties of the game transitions
  // ---------------------------------------------------------------------

  /**
   * x has given check in every entry from the first occurrence of the
   * position h to the end of the history.
   */
  ghost predicate PerpetualBy(hist: seq<Entry>, h: string, x: Side)
  {
    exists f :: 0 <= f < |hist| && hist[f].hash == h && (forall k :: 0 <= k < f ==> hist[k].hash != h)
      && forall k :: f <= k < |hist| ==> CheckedBy(hist, k, x)
  }

  /** The hash `checkRepetition` compares the history against. */
  function CurrentHash(g: GameState): string
  {
    BoardHash(g.currentPlayer, g.board, g.playerCaptured, g.cpuCaptured)
  }

  /**
   * On a fourfold repetition `checkGameEndConditions` makes the side that
   * gave check in every position since the first occurrence lose, and
   * otherwise declares a draw.
   */
  lemma EndStateRepetition(g: GameState, x: Side)
    requires CountSame(g.positionHistory, CurrentHash(g)) >= 4
    ensures EndState(g) == Some(Won(Opponent(x))) <==> PerpetualBy(g.positionHistory, CurrentHash(g), x)
    ensures EndState(g) == Some(Drawn) <==>
      !PerpetualBy(g.positionHistory, CurrentHash(g), Player) && !PerpetualBy(g.positionHistory, CurrentHash(g), Cpu)
  {
    CheckRepetitionIff(g.positionHistory, CurrentHash(g), Player);
    EndStateOnRepetition(g);
    RepetitionVerdict(g.positionHistory, CurrentHash(g), x, EndState(g));
  }

  /** The verdict on a repetition, read off `checkRepetition`: a perpetual checker loses, otherwise a draw. */
  lemma RepetitionVerdict(hist: seq<Entry>, h: string, x: Side, o: Option<Outcome>)
    requires CountSame(hist, h) >= 4
    requires var pc := CheckRepetition(hist, h).perpetualChecker;
      o == Some(if pc.Some? then Won(Opponent(pc.value)) else Drawn)
    ensures o == Some(Won(Opponent(x))) <==> PerpetualBy(hist, h, x)
    ensures o == Some(Drawn) <==> !PerpetualBy(hist, h, Player) && !PerpetualBy(hist, h, Cpu)
  {
    CheckRepetitionIff(hist, h, Player);
    CheckRepetitionIff(hist, h, Cpu);
    var pc := CheckRepetition(hist, h).perpetualChecker;
    assert PerpetualBy(hist, h, Player) <==> pc == Some(Player);
    assert PerpetualBy(hist, h, Cpu) <==> pc == Some(Cpu);
  }

  /** On a repetition the game ends whatever the legal moves: a perpetual checker loses, otherwise it is a draw. */
  lemma EndStateOnRepetition(g: GameState)
    requires CheckRepetition(g.positionHistory, CurrentHash(g)).isRepetition
    ensures var pc := CheckRepetition(g.positionHistory, CurrentHash(g)).perpetualChecker;
      EndState(g) == Some(if pc.Some? then Won(Opponent(pc.value)) else Drawn)
  {
  }

  /**
   * `checkGameEndConditions` lets the game go on exactly when the position
   * has occurred fewer than four times and the side to move has a legal
   * move; without repetition, checkmate makes the other side the winner and
   * stalemate is a draw.
   */
  lemma EndStateIff(g: GameState)
    ensures EndState(g).None? <==>
      CountSame(g.positionHistory, CurrentHash(g)) < 4
      && |AllLegalMoves(g.board, g.playerCaptured, g.cpuCaptured, g.currentPlayer)| > 0
    ensures CountSame(g.positionHistory, CurrentHash(g)) < 4 ==>
      (EndState(g) == Some(Won(Opponent(g.currentPlayer))) <==> Checkmate(g.board, g.playerCaptured, g.cpuCaptured, g.currentPlayer))
      && (EndState(g) == Some(Drawn) <==> Stalemate(g.board, g.playerCaptured, g.cpuCaptured, g.currentPlayer))
  {
    CheckRepetitionIff(g.positionHistory, CurrentHash(g), Player);
    NoMovesIsMateOrStalemate(g.board, g.playerCaptured, g.cpuCaptured, g.currentPlayer);
  }

  /**
   * Recording a position adds one occurrence of the current hash and none of
   * any other, and the new entry is checked by side x exactly when x has just
   * moved and the side to move is in check.
   */
  lemma RecordedCounts(g: GameState, h: string, x: Side)
    ensures var hist := Recorded(g).positionHistory;
      CountSame(hist, h) == CountSame(g.positionHistory, h) + (if h == CurrentHash(g) then 1 else 0)
    ensures var hist := Recorded(g).positionHistory;
      CheckedBy(hist, |hist| - 1, x) <==> x == Opponent(g.currentPlayer) && KingInCheck(g.board, g.currentPlayer)
  {
    var hist := Recorded(g).positionHistory;
    assert hist[..|hist| - 1] == g.positionHistory;
  }

  /** The number of occupied squares. */
  function Occupancy(b: seq<Cell>): (n: nat)
    ensures n <= |b|
  {
    if |b| == 0 then 0 else Occupancy(b[..|b| - 1]) + (if b[|b| - 1].Some? then 1 else 0)
  }

  lemma {:induction false} OccupancyUpdate(b: seq<Cell>, i: nat, x: Cell)
    requires i < |b|
    ensures Occupancy(b[i := x]) + (if b[i].Some? then 1 else 0) == Occupancy(b) + (if x.Some? then 1 else 0)
  {
    var n := |b| - 1;
    if i < n {
      assert b[i := x][..n] == b[..n][i := x];
      OccupancyUpdate(b[..n], i, x);
    } else {
      assert b[i := x][..n] == b[..n];
    }
  }

  /** Pieces on the board and in both hands. */
  function Material(g: GameState): nat
  {
    Occupancy(g.board) + |g.playerCaptured| + |g.cpuCaptured|
  }

  /** Recording, concluding and saving leave the board and the hands alone. */
  lemma FinishKeepsPosition(g: GameState)
    ensures Finish(g).board == g.board && Finish(g).playerCaptured == g.playerCaptured && Finish(g).cpuCaptured == g.cpuCaptured
    ensures Finish(g).currentPlayer == g.currentPlayer && Finish(g).stateHistory == g.stateHistory
    ensures Finish(g).positionHistory == g.positionHistory + [RecordedEntry(g)]
  {
  }

  /**
   * A move that takes no king keeps the pieces: a captured piece leaves the
   * board and enters the mover's hand, and the moving piece arrives as `moved`.
   */
  lemma {:induction false} TakeShiftConserves(g: GameState, fr: int, fc: int, tr: int, tc: int, moved: Piece)
    requires OnBoard(fr, fc) && OnBoard(tr, tc) && (fr != tr || fc != tc) && At(g.board, fr, fc).Some?
    requires !KingOn(g.board, tr, tc)
    ensures var g' := Shift(Take(g, moved.owner, At(g.board, tr, tc)), fr, fc, tr, tc, moved);
      Material(g') == Material(g)
      && At(g'.board, tr, tc) == Some(moved) && At(g'.board, fr, fc).None?
      && (forall r, c :: OnBoard(r, c) && (r, c) != (fr, fc) && (r, c) != (tr, tc) ==> At(g'.board, r, c) == At(g.board, r, c))
      && PoolOf(g'.playerCaptured, g'.cpuCaptured, moved.owner) ==
           PoolOf(g.playerCaptured, g.cpuCaptured, moved.owner)
           + (if At(g.board, tr, tc).Some? then [CapturedKind(At(g.board, tr, tc).value.kind)] else [])
      && PoolOf(g'.playerCaptured, g'.cpuCaptured, Opponent(moved.owner)) == PoolOf(g.playerCaptured, g.cpuCaptured, Opponent(moved.owner))
      && g'.currentPlayer == Opponent(g.currentPlayer) && g'.positionHistory == g.positionHistory
  {
    var g1 := Take(g, moved.owner, At(g.board, tr, tc));
    var b1 := Put(g.board, tr, tc, Some(moved));
    assert b1 == g.board[Idx(tr, tc) := Some(moved)];
    OccupancyUpdate(g.board, Idx(tr, tc), Some(moved));
    IdxInjective(fr, fc, tr, tc);
    assert Put(b1, fr, fc, None) == b1[Idx(fr, fc) := None];
    OccupancyUpdate(b1, Idx(fr, fc), None);
  }

  /** `makeMove` of a piece to another square, taking no king, keeps the material and records one position. */
  lemma MakeMoveConserves(g: GameState, fr: int, fc: int, tr: int, tc: int, promote: bool)
    requires OnBoard(fr, fc) && OnBoard(tr, tc) && (fr != tr || fc != tc) && At(g.board, fr, fc).Some?
    requires !KingOn(g.board, tr, tc)
    ensures var g' := MakeMoveSpec(g, fr, fc, tr, tc, promote);
      Material(g') == Material(g) && |g'.positionHistory| == |g.positionHistory| + 1
      && g'.currentPlayer == Opponent(g.currentPlayer)
      && At(g'.board, tr, tc) == Some(MovedPiece(At(g.board, fr, fc).value, promote, tr)) && At(g'.board, fr, fc).None?
  {
    var p := At(g.board, fr, fc).value;
    var moved := MovedPiece(p, promote, tr);
    var g0 := if p.owner == Cpu then Saved(g) else g;
    var g2 := Shift(Take(g0, p.owner, At(g.board, tr, tc)), fr, fc, tr, tc, moved);
    assert MakeMoveSpec(g, fr, fc, tr, tc, promote) == Finish(g2);
    TakeShiftConserves(g0, fr, fc, tr, tc, moved);
  }

  /** The same for `completeMove` of a pending move; the pending move is cleared. */
  lemma CompleteMoveConserves(g: GameState, promote: bool)
    requires PendingOk(g) && g.pendingMove.Some?
    requires var m := g.pendingMove.value; (m.fromRow != m.toRow || m.fromCol != m.toCol) && !KingOn(g.board, m.toRow, m.toCol)
    ensures var g' := CompleteMoveSpec(g, promote);
      var m := g.pendingMove.value;
      Material(g') == Material(g) && |g'.positionHistory| == |g.positionHistory| + 1
      && g'.currentPlayer == Opponent(g.currentPlayer) && g'.pendingMove.None?
      && At(g'.board, m.toRow, m.toCol) == Some(CompletedPiece(At(g.board, m.fromRow, m.fromCol).value, promote))
  {
    var Pending(fr, fc, tr, tc) := g.pendingMove.value;
    var p := At(g.board, fr, fc).value;
    var moved := CompletedPiece(p, promote);
    var g0 := if p.owner == Player then Saved(g) else g;
    var g2 := Shift(Take(g0, p.owner, At(g.board, tr, tc)), fr, fc, tr, tc, moved).(pendingMove := None);
    assert CompleteMoveSpec(g, promote) == Finish(g2);
    TakeShiftConserves(g0, fr, fc, tr, tc, moved);
  }

  /** Taking a king ends the game for the mover before anything moves. */
  lemma KingCaptureEnds(g: GameState, fr: int, fc: int, tr: int, tc: int, promote: bool)
    requires OnBoard(fr, fc) && OnBoard(tr, tc) && At(g.board, fr, fc).Some? && KingOn(g.board, tr, tc)
    ensures var g' := MakeMoveSpec(g, fr, fc, tr, tc, promote);
      g'.gameOver && g'.outcome == Won(At(g.board, fr, fc).value.owner)
      && g'.board == g.board && g'.currentPlayer == g.currentPlayer && g'.positionHistory == g.positionHistory
      && Material(g') == Material(g) + 1
  {
  }

  /** The board step of a drop of a type in the dropper's hand onto an empty square keeps the material. */
  lemma DroppingConserves(g: GameState, t: PieceType, r: int, c: int, s: Side)
    requires OnBoard(r, c) && At(g.board, r, c).None? && t in PoolOf(g.playerCaptured, g.cpuCaptured, s)
    ensures var g' := Dropping(g, t, r, c, s);
      Material(g') == Material(g)
      && multiset(PoolOf(g'.playerCaptured, g'.cpuCaptured, s)) + multiset{t} == multiset(PoolOf(g.playerCaptured, g.cpuCaptured, s))
      && PoolOf(g'.playerCaptured, g'.cpuCaptured, Opponent(s)) == PoolOf(g.playerCaptured, g.cpuCaptured, Opponent(s))
  {
    var pool := PoolOf(g.playerCaptured, g.cpuCaptured, s);
    var i := KindIndex(pool, t);
    assert pool == pool[..i] + [pool[i]] + pool[i + 1..];
    assert Put(g.board, r, c, Some(Piece(t, s, false))) == g.board[Idx(r, c) := Some(Piece(t, s, false))];
    OccupancyUpdate(g.board, Idx(r, c), Some(Piece(t, s, false)));
  }

  /** A whole drop: the material is kept and one position is recorded. */
  lemma DropConserves(g: GameState, t: PieceType, r: int, c: int, s: Side)
    requires OnBoard(r, c) && At(g.board, r, c).None? && t in PoolOf(g.playerCaptured, g.cpuCaptured, s)
    ensures var g' := Finish(Dropping(g, t, r, c, s));
      Material(g') == Material(g) && |g'.positionHistory| == |g.positionHistory| + 1
      && At(g'.board, r, c) == Some(Piece(t, s, false)) && g'.currentPlayer == Opponent(s)
      && multiset(PoolOf(g'.playerCaptured, g'.cpuCaptured, s)) + multiset{t} == multiset(PoolOf(g.playerCaptured, g.cpuCaptured, s))
  {
    DroppingConserves(g, t, r, c, s);
  }

  /** `placeCapturedPiece` of a type in the player's hand either changes nothing or keeps the material. */
  lemma PlaceConserves(g: GameState, t: PieceType, r: int, c: int)
    requires OnBoard(r, c) && t in g.playerCaptured
    ensures var g' := PlaceSpec(g, t, r, c);
      Material(g') == Material(g)
      && (g' == g <==> !CanDrop(g.board, g.playerCaptured, g.cpuCaptured, t, r, c, Player))
  {
    if CanDrop(g.board, g.playerCaptured, g.cpuCaptured, t, r, c, Player) {
      DropConserves(Saved(g), t, r, c, Player);
      assert PlaceSpec(g, t, r, c).board != g.board by {
        assert At(PlaceSpec(g, t, r, c).board, r, c).Some?;
      }
    }
  }

  /**
   * The take-back the game offers: a snapshot before the player's move and
   * one before the computer's reply, whatever else changed in between, and
   * `undo` on the player's turn restores the position before the player's
   * move and the snapshot list before it.
   */
  lemma {:induction false} UndoTakesBackTwo(g0: GameState, g2: GameState, g4: GameState)
    requires |g0.stateHistory| < 99
    requires g2.stateHistory == Saved(g0).stateHistory
    requires g4.stateHistory == Saved(g2).stateHistory
    requires !g4.gameOver && g4.currentPlayer == Player
    ensures var (g5, ok) := UndoSpec(g4);
      ok && g5.board == g0.board && g5.currentPlayer == g0.currentPlayer
      && g5.playerCaptured == g0.playerCaptured && g5.cpuCaptured == g0.cpuCaptured
      && g5.positionHistory == g0.positionHistory && g5.gameOver == g0.gameOver
      && g5.stateHistory == g0.stateHistory && g5.pendingMove.None? && g5.outcome == g4.outcome
  {
    var h := g4.stateHistory;
    assert h == g0.stateHistory + [SnapshotOf(g0), SnapshotOf(g2)];
    assert h[|h| - 2] == SnapshotOf(g0);
    assert h[..|h| - 2] == g0.stateHistory;
  }

  lemma {:induction false} AttackedMonotone(b: Grid, s: Side, k: Pos, n: nat, m: nat)
    requires n <= m <= 81 && AttackedBefore(b, s, k, n)
    ensures AttackedBefore(b, s, k, m)
    decreases m - n
  {
    if n < m {
      AttackedMonotone(b, s, k, n + 1, m);
    }
  }

  /** The first king of row r at or after c0 is at c when none lies in between. */
  lemma {:induction false} FirstKingIs(b: Grid, s: Side, r: int, c0: nat, c: int)
    requires 0 <= r < 9 && c0 <= c < 9
    requires IsKingOf(At(b, r, c), s)
    requires forall c' :: c0 <= c' < c ==> !IsKingOf(At(b, r, c'), s)
    ensures FirstKingInRow(b, s, r, c0) == Some(c)
    decreases c - c0
  {
    if c0 < c {
      FirstKingIs(b, s, r, c0 + 1, c);
    }
  }
}
