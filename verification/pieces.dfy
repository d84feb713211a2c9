/** Optional values: a board cell that may be empty, a lookup that may miss. */
module Wrappers {
  datatype Option<+T> = None | Some(value: T)
}

/**
 * The data of the chess engine: colours, piece types, pieces, the 8x8 board
 * of optional pieces and the squares that index it.
 *
 * A piece is written in the source as a two-letter code, a colour letter
 * (`w`, `b`) followed by a type letter (`P R B N Q K`); here it is a pair of
 * enumerations, and comparing a code's first or second letter becomes
 * comparing `color` or `kind`.
 */
module Pieces {
  import opened Wrappers

  datatype Color = White | Black

  datatype Kind = Pawn | Rook | Bishop | Knight | Queen | King

  datatype Piece = Piece(color: Color, kind: Kind)

  /** A board cell: `None` is the source's `null`. */
  type Cell = Option<Piece>

  /** A row or column index; the source never checks this range, so it is a type here. */
  type Coord = i: int | 0 <= i < 8

  /** A square `(x, y)` indexes the board as `board[x][y]`: `x` is the row, `y` the column. */
  datatype Square = Square(x: Coord, y: Coord)

  /** An 8x8 grid of cells. */
  type Board = b: seq<seq<Cell>> | |b| == 8 && forall i :: 0 <= i < 8 ==> |b[i]| == 8
    witness seq(8, _ => seq(8, _ => None))

  /** The side that moves after `c`. */
  function Opponent(c: Color): (o: Color)
    ensures o != c
  {
    if c == White then Black else White
  }

  function Abs(n: int): (r: nat)
    ensures r == n || r == -n
  {
    if n < 0 then -n else n
  }

  /** The cell `(x, y)` holds a piece of type `k` (of either colour). */
  predicate Holds(b: Board, x: Coord, y: Coord, k: Kind)
  {
    b[x][y].Some? && b[x][y].value.kind == k
  }

  /** The board with cell `(x, y)` set to `c`; every other cell is unchanged. */
  function Place(b: Board, x: Coord, y: Coord, c: Cell): (r: Board)
    ensures r[x][y] == c
    ensures forall i, j :: 0 <= i < 8 && 0 <= j < 8 && (i != x || j != y) ==> r[i][j] == b[i][j]
  {
    b[x := b[x][y := c]]
  }

  /** Two boards are equal exactly when they agree on every cell. */
  lemma {:induction false} BoardExt(a: Board, b: Board)
    requires forall i, j :: 0 <= i < 8 && 0 <= j < 8 ==> a[i][j] == b[i][j]
    ensures a == b
  {
    forall i | 0 <= i < 8
      ensures a[i] == b[i]
    {
      assert forall j :: 0 <= j < 8 ==> a[i][j] == b[i][j];
    }
  }
}
