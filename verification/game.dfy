/**
 * The game state of the chess engine: the board, the side to move, the
 * starting layout and the one mutator, `Move`.
 *
 * `Move` looks up the piece on the source square, checks it belongs to the
 * side to move, dispatches it to the strategy of its type, tentatively moves
 * it, and then asks the check detector about the side that moves NEXT; if
 * that side is in check the move is undone, with the destination emptied
 * (a captured piece is not restored).
 */
module Game {
  import opened Wrappers
  import opened Pieces
  import opened Strategies
  import opened Check

  /** The piece type on column `y` of a back rank. */
  function BackRankKind(y: Coord): Kind
  {
    match y
    case 0 => Rook
    case 1 => Knight
    case 2 => Bishop
    case 3 => Queen
    case 4 => King
    case 5 => Bishop
    case 6 => Knight
    case 7 => Rook
  }

  /** The starting layout, cell by cell: black on rows 0 and 1, white on rows 6 and 7. */
  function StartCell(x: Coord, y: Coord): Cell
  {
    if x == 0 then Some(Piece(Black, BackRankKind(y)))
    else if x == 1 then Some(Piece(Black, Pawn))
    else if x == 6 then Some(Piece(White, Pawn))
    else if x == 7 then Some(Piece(White, BackRankKind(y)))
    else None
  }

  /** The move is not a rook moving onto its own square, whose scan the model leaves out. */
  predicate ScanTerminates(b: Board, turn: Color, from: Square, to: Square)
  {
    from != to || b[from.x][from.y] != Some(Piece(turn, Rook))
  }

  /** The piece on `from` belongs to `turn` and the strategy of its type answers `true`. */
  predicate Accepts(b: Board, turn: Color, from: Square, to: Square)
    requires ScanTerminates(b, turn, from, to)
  {
    var piece := b[from.x][from.y];
    piece.Some? && piece.value.color == turn
    && CanMove(StrategyFor(piece.value.kind), b, from.x, from.y, to.x, to.y) == Legal
  }

  /** The board after the tentative move: the piece on `to`, then `from` cleared. */
  function Tentative(b: Board, from: Square, to: Square): Board
  {
    Place(Place(b, to.x, to.y, b[from.x][from.y]), from.x, from.y, None)
  }

  /** The board after the undo: the piece put back on `from`, then `to` cleared. */
  function Reverted(b: Board, from: Square, to: Square): Board
  {
    Place(Place(Tentative(b, from, to), from.x, from.y, b[from.x][from.y]), to.x, to.y, None)
  }

  class Chess {
    var board: Board
    var turn: Color

    /** A new game: the starting layout, white to move. */
    constructor()
      ensures forall x: Coord, y: Coord :: board[x][y] == StartCell(x, y)
      ensures turn == White
    {
      turn := White;
      new;
      Init();
    }

    /** Puts the pieces in their starting layout; the side to move is left as it was. */
    method Init()
      modifies this
      ensures forall x: Coord, y: Coord :: board[x][y] == StartCell(x, y)
      ensures turn == old(turn)
    {
      var empty: seq<Cell> := seq(8, _ => None);
      board := seq(8, _ => empty);
      board := board[0 := [Some(Piece(Black, Rook)), Some(Piece(Black, Knight)), Some(Piece(Black, Bishop)),
                           Some(Piece(Black, Queen)), Some(Piece(Black, King)), Some(Piece(Black, Bishop)),
                           Some(Piece(Black, Knight)), Some(Piece(Black, Rook))]];
      board := board[1 := seq(8, _ => Some(Piece(Black, Pawn)))];
      board := board[6 := seq(8, _ => Some(Piece(White, Pawn)))];
      board := board[7 := [Some(Piece(White, Rook)), Some(Piece(White, Knight)), Some(Piece(White, Bishop)),
                           Some(Piece(White, Queen)), Some(Piece(White, King)), Some(Piece(White, Bishop)),
                           Some(Piece(White, Knight)), Some(Piece(White, Rook))]];
    }

    /**
     * Tries to move the piece on `from` to `to`; answers whether the move was made.
     * A move is refused, with nothing changed, when `from` is empty, holds a
     * piece of the side not to move, or its strategy does not answer `true`.
     * An accepted move that leaves an enemy king next to the opponent's king
     * is undone and refused; any other accepted move is made and passes the turn.
     */
    method Move(from: Square, to: Square) returns (ok: bool)
      requires ScanTerminates(board, turn, from, to)
      requires Accepts(board, turn, from, to) ==> HasKing(Tentative(board, from, to), Opponent(turn))
      modifies this
      ensures !Accepts(old(board), old(turn), from, to) ==>
        !ok && board == old(board) && turn == old(turn)
      ensures Accepts(old(board), old(turn), from, to) && InCheck(Tentative(old(board), from, to), Opponent(old(turn))) ==>
        !ok && board == Reverted(old(board), from, to) && turn == old(turn)
      ensures Accepts(old(board), old(turn), from, to) && !InCheck(Tentative(old(board), from, to), Opponent(old(turn))) ==>
        ok && board == Tentative(old(board), from, to) && turn == Opponent(old(turn))
    {
      var piece := board[from.x][from.y];
      if piece.None? {
        return false;
      }
      if piece.value.color != turn {
        return false;
      }
      if CanMove(StrategyFor(piece.value.kind), board, from.x, from.y, to.x, to.y) != Legal {
        return false;
      }
      board := Place(board, to.x, to.y, piece);
      board := Place(board, from.x, from.y, None);
      var nextTurn := Opponent(turn);
      var check := IsCheck(board, nextTurn);
      if check {
        board := Place(board, from.x, from.y, piece);
        board := Place(board, to.x, to.y, None);
        return false;
      }
      turn := nextTurn;
      return true;
    }

    method GetBoard() returns (b: Board)
      ensures b == board
    {
      return board;
    }

    method GetTurn() returns (c: Color)
      ensures c == turn
    {
      return turn;
    }

    method GetPiece(x: Coord, y: Coord) returns (p: Cell)
      ensures p == board[x][y]
    {
      return board[x][y];
    }
  }

  /** Bishops and queens never move: their own strategies answer `null` for them. */
  lemma BishopsAndQueensNeverMove(b: Board, turn: Color, from: Square, to: Square)
    requires ScanTerminates(b, turn, from, to)
    requires Holds(b, from.x, from.y, Bishop) || Holds(b, from.x, from.y, Queen)
    ensures !Accepts(b, turn, from, to)
  {
    DispatchIgnoresBishopsAndQueens(b, from.x, from.y, to.x, to.y);
  }

  /** An accepted move goes somewhere else, and the tentative board has it there and nothing on `from`. */
  lemma {:induction false} AcceptedMoveRelocates(b: Board, turn: Color, from: Square, to: Square)
    requires ScanTerminates(b, turn, from, to) && Accepts(b, turn, from, to)
    ensures from != to
    ensures Tentative(b, from, to)[to.x][to.y] == b[from.x][from.y]
    ensures Tentative(b, from, to)[from.x][from.y] == None
    ensures forall i, j :: 0 <= i < 8 && 0 <= j < 8 && Square(i, j) != from && Square(i, j) != to ==>
      Tentative(b, from, to)[i][j] == b[i][j]
  {
    if from == to {
      NoZeroLengthMove(StrategyFor(b[from.x][from.y].value.kind), b, from.x, from.y);
      assert false;
    }
  }

  /**
   * The undo restores `from` but empties `to`: it gives back the board as it
   * was exactly when the move captured nothing, and a captured piece is lost.
   */
  lemma {:induction false} UndoLosesCapture(b: Board, from: Square, to: Square)
    requires from != to
    ensures Reverted(b, from, to)[from.x][from.y] == b[from.x][from.y]
    ensures Reverted(b, from, to)[to.x][to.y] == None
    ensures Reverted(b, from, to) == b <==> b[to.x][to.y].None?
  {
    var r := Reverted(b, from, to);
    if b[to.x][to.y].None? {
      BoardExt(r, b);
    }
  }

  /** The starting layout has one king of each colour, on column 4 of the back ranks. */
  lemma StartKings(b: Board)
    requires forall x: Coord, y: Coord :: b[x][y] == StartCell(x, y)
    ensures IsFirstKing(b, Black, 0, 4) && IsFirstKing(b, White, 7, 4)
    ensures forall c, x, y :: IsFirstKing(b, c, x, y) ==> (x, y) == (if c == White then (7, 4) else (0, 4))
    ensures !InCheck(b, White) && !InCheck(b, Black)
  {
    assert forall x: Coord, y: Coord :: b[x][y] == Some(Piece(White, King)) ==> x == 7 && y == 4;
    assert forall x: Coord, y: Coord :: b[x][y] == Some(Piece(Black, King)) ==> x == 0 && y == 4;
  }

  /**
   * The opening exchange of double pawn steps on column 4: white's is
   * accepted and passes the detector, and so is black's reply.
   */
  lemma OpeningDoubleSteps(b: Board)
    requires forall x: Coord, y: Coord :: b[x][y] == StartCell(x, y)
    ensures Accepts(b, White, Square(6, 4), Square(4, 4))
    ensures var t := Tentative(b, Square(6, 4), Square(4, 4));
      HasKing(t, Black) && !InCheck(t, Black)
      && Accepts(t, Black, Square(1, 4), Square(3, 4))
      && HasKing(Tentative(t, Square(1, 4), Square(3, 4)), White)
      && !InCheck(Tentative(t, Square(1, 4), Square(3, 4)), White)
  {
    var t := Tentative(b, Square(6, 4), Square(4, 4));
    var u := Tentative(t, Square(1, 4), Square(3, 4));
    assert forall x: Coord, y: Coord :: t[x][y] == (if (x, y) == (6, 4) then None else if (x, y) == (4, 4) then Some(Piece(White, Pawn)) else StartCell(x, y));
    assert forall x: Coord, y: Coord :: u[x][y] == (if (x, y) == (1, 4) then None else if (x, y) == (3, 4) then Some(Piece(Black, Pawn)) else t[x][y]);
    assert IsFirstKing(t, Black, 0, 4) && IsFirstKing(u, White, 7, 4);
    forall x, y | IsFirstKing(t, Black, x, y) ensures !EnemyKingNear(t, Black, x, y) {
      assert forall i: Coord, j: Coord :: t[i][j] == Some(Piece(White, King)) ==> i == 7 && j == 4;
    }
    forall x, y | IsFirstKing(u, White, x, y) ensures !EnemyKingNear(u, White, x, y) {
      assert forall i: Coord, j: Coord :: u[i][j] == Some(Piece(White, King)) ==> i == 7 && j == 4;
      assert forall i: Coord, j: Coord :: u[i][j] == Some(Piece(Black, King)) ==> i == 0 && j == 4;
    }
  }
}
