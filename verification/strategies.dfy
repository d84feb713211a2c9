/**
 * The six movement strategies of the chess engine and the table that
 * dispatches a piece type to its strategy.
 *
 * Every strategy answers a three-way question about moving the piece on
 * `(fx, fy)` to `(tx, ty)`: `NotApplicable` (the source's `null`: the square is
 * empty or holds a piece whose type letter differs from the strategy's tag),
 * `Illegal` (`false`) or `Legal` (`true`). The strategies know nothing of turn
 * order or check.
 *
 * The bishop strategy carries the rook's tag `R`, so it only ever answers for
 * rooks, and the queen strategy is built from two `R`-tagged strategies; for
 * real bishops and queens both answer `NotApplicable`.
 */
module Strategies {
  import opened Wrappers
  import opened Pieces

  datatype TriState = NotApplicable | Illegal | Legal

  /** The strategy objects, one per entry of the dispatch table. */
  datatype Strategy =
    | PawnStrategy | RookStrategy | BishopStrategy | KnightStrategy | QueenStrategy | KingStrategy

  /** Turns a boolean answer of a strategy into the three-way result. */
  function Answer(ok: bool): (r: TriState)
    ensures r != NotApplicable && (r == Legal <==> ok)
  {
    if ok then Legal else Illegal
  }

  /**
   * The type a strategy answers for. The bishop strategy's tag is the rook's;
   * the queen strategy's own tag `Q` is never consulted: it delegates to a
   * bishop and a rook strategy, both tagged `R`.
   */
  function Tag(s: Strategy): Kind
  {
    match s
    case PawnStrategy => Pawn
    case RookStrategy => Rook
    case BishopStrategy => Rook
    case KnightStrategy => Knight
    case QueenStrategy => Rook
    case KingStrategy => King
  }

  /** The dispatch table from a piece's type letter to a strategy. */
  function StrategyFor(k: Kind): (s: Strategy)
    ensures Tag(s) == k <==> k != Bishop && k != Queen
    ensures k == Bishop || k == Queen ==> Tag(s) == Rook
  {
    match k
    case Pawn => PawnStrategy
    case Rook => RookStrategy
    case Bishop => BishopStrategy
    case Knight => KnightStrategy
    case Queen => QueenStrategy
    case King => KingStrategy
  }

  /** The destination is empty or holds a piece of the other colour than the one moving. */
  predicate EmptyOrEnemy(b: Board, fx: Coord, fy: Coord, tx: Coord, ty: Coord)
    requires b[fx][fy].Some?
  {
    b[tx][ty].None? || b[tx][ty].value.color != b[fx][fy].value.color
  }

  /**
   * The moves whose scans the model covers: a rook asked to move onto its own
   * square scans away from it, and answers `false` at the first piece it meets
   * or, finding none, runs forever (row scan) or throws (diagonal scan).
   */
  predicate ScanEnds(b: Board, fx: Coord, fy: Coord, tx: Coord, ty: Coord)
  {
    fx != tx || fy != ty || !Holds(b, fx, fy, Rook)
  }

  /** `k` lies strictly between `a` and `c`, in either order. */
  predicate Strictly(k: int, a: int, c: int)
  {
    (a < k < c) || (c < k < a)
  }

  /** `k` lies on the half-open stretch that starts at `i` and stops before `t`. */
  predicate Within(k: int, i: int, t: int)
  {
    (i <= k < t) || (t < k <= i)
  }

  /** Direction of a scan from `a` towards `c`. */
  function Step(a: int, c: int): int
  {
    if a < c then 1 else -1
  }

  /** The index `d` steps from `a` in direction `step`. */
  function Shift(a: int, step: int, d: int): int
  {
    if step == 1 then a + d else a - d
  }

  // ---------------------------------------------------------------- pawn

  /** A pawn of colour `c` advancing one rank: white decreases the row, black increases it. */
  predicate OneForward(c: Color, fx: int, tx: int)
  {
    if c == White then tx == fx - 1 else tx == fx + 1
  }

  /** The double step from the starting rank, judged by absolute rows only. */
  predicate DoubleStart(c: Color, fx: int, tx: int)
  {
    if c == White then fx == 6 && tx == 4 else fx == 1 && tx == 3
  }

  function PawnMove(b: Board, fx: Coord, fy: Coord, tx: Coord, ty: Coord): (r: TriState)
    ensures r == NotApplicable <==> !Holds(b, fx, fy, Pawn)
    // a quiet move stays on its file: one rank forward, or the double step (the square passed over is not looked at)
    ensures r != NotApplicable && b[tx][ty].None? ==>
      (r == Legal <==> fy == ty && (OneForward(b[fx][fy].value.color, fx, tx) || DoubleStart(b[fx][fy].value.color, fx, tx)))
    // a move onto an occupied square is a one-file, one-rank forward capture of an enemy piece
    ensures r != NotApplicable && b[tx][ty].Some? ==>
      (r == Legal <==> Abs(fy - ty) == 1 && OneForward(b[fx][fy].value.color, fx, tx)
                       && b[tx][ty].value.color != b[fx][fy].value.color)
    ensures b[tx][ty].Some? && fy == ty ==> r != Legal
  {
    var piece := b[fx][fy];
    if piece.None? || piece.value.kind != Tag(PawnStrategy) then NotApplicable
    else
      var isAttack := b[tx][ty].Some?;
      var isWhite := piece.value.color == White;
      var isForward := if isWhite then fx - tx == 1 else tx - fx == 1;
      if isAttack then
        if Abs(fy - ty) != 1 then Illegal
        else if !isForward then Illegal
        else Answer(b[tx][ty].value.color != piece.value.color)
      else if fy != ty then Illegal
      else if isForward then Legal
      else if isWhite then Answer(fx == 6 && tx == 4)
      else Answer(fx == 1 && tx == 3)
  }

  // ---------------------------------------------------------------- rook

  /** The scan along row `x` from column `i` towards `ty`: every cell it visits before `ty` is empty. */
  function RowClear(b: Board, x: Coord, i: int, ty: Coord, step: int): (r: bool)
    requires 0 <= i < 8
    requires step == Step(i, ty) || i == ty
    decreases Abs(ty - i)
    ensures r <==> forall k :: Within(k, i, ty) ==> b[x][k].None?
  {
    if i == ty then true
    else if b[x][i].Some? then false
    else RowClear(b, x, i + step, ty, step)
  }

  /** The scan along column `y` from row `i` towards `tx`: every cell it visits before `tx` is empty. */
  function ColumnClear(b: Board, y: Coord, i: int, tx: Coord, step: int): (r: bool)
    requires 0 <= i < 8
    requires step == Step(i, tx) || i == tx
    decreases Abs(tx - i)
    ensures r <==> forall k :: Within(k, i, tx) ==> b[k][y].None?
  {
    if i == tx then true
    else if b[i][y].Some? then false
    else ColumnClear(b, y, i + step, tx, step)
  }

  /** Every square strictly between two squares of one row or one column is empty. */
  ghost predicate StraightClear(b: Board, fx: Coord, fy: Coord, tx: Coord, ty: Coord)
  {
    if fx == tx then forall k :: Strictly(k, fy, ty) ==> b[fx][k].None?
    else forall k :: Strictly(k, fx, tx) ==> b[k][fy].None?
  }

  function RookMove(b: Board, fx: Coord, fy: Coord, tx: Coord, ty: Coord): (r: TriState)
    requires ScanEnds(b, fx, fy, tx, ty)
    ensures r == NotApplicable <==> !Holds(b, fx, fy, Rook)
    ensures r == Legal <==>
      Holds(b, fx, fy, Rook) && (fx == tx || fy == ty) && StraightClear(b, fx, fy, tx, ty)
      && EmptyOrEnemy(b, fx, fy, tx, ty)
  {
    var piece := b[fx][fy];
    if piece.None? || piece.value.kind != Tag(RookStrategy) then NotApplicable
    else if fx != tx && fy != ty then Illegal
    else
      var clear :=
        if fx == tx then RowClear(b, fx, fy + Step(fy, ty), ty, Step(fy, ty))
        else ColumnClear(b, fy, fx + Step(fx, tx), tx, Step(fx, tx));
      if !clear then Illegal
      else if b[tx][ty].Some? then Answer(b[tx][ty].value.color != piece.value.color)
      else Legal
  }

  // ---------------------------------------------------------------- bishop

  /**
   * The diagonal scan from `(i, j)` that stops when the row reaches `tx`
   * (where the column has reached `ty`): every cell it visits is empty.
   */
  function DiagonalClear(b: Board, i: int, j: int, tx: Coord, ty: Coord, sx: int, sy: int): (r: bool)
    requires 0 <= i < 8 && 0 <= j < 8
    requires Abs(tx - i) == Abs(ty - j)
    requires (sx == Step(i, tx) || i == tx) && (sy == Step(j, ty) || j == ty)
    decreases Abs(tx - i)
    ensures r <==> forall d :: 0 <= d < Abs(tx - i) ==> b[Shift(i, sx, d)][Shift(j, sy, d)].None?
  {
    if i == tx then true
    else if b[i][j].Some? then
      assert Shift(i, sx, 0) == i && Shift(j, sy, 0) == j;
      false
    else
      var rest := DiagonalClear(b, i + sx, j + sy, tx, ty, sx, sy);
      assert rest <==> forall d :: 0 <= d < Abs(tx - i) ==> b[Shift(i, sx, d)][Shift(j, sy, d)].None? by {
        assert Abs(tx - (i + sx)) == Abs(tx - i) - 1;
        if rest {
          forall d | 0 <= d < Abs(tx - i)
            ensures b[Shift(i, sx, d)][Shift(j, sy, d)].None?
          {
            if d > 0 {
              assert Shift(i, sx, d) == Shift(i + sx, sx, d - 1) && Shift(j, sy, d) == Shift(j + sy, sy, d - 1);
            }
          }
        } else {
          var e :| 0 <= e < Abs(tx - i) - 1 && b[Shift(i + sx, sx, e)][Shift(j + sy, sy, e)].Some?;
          assert Shift(i, sx, e + 1) == Shift(i + sx, sx, e) && Shift(j, sy, e + 1) == Shift(j + sy, sy, e);
        }
      }
      rest
  }

  /** Every square strictly between two squares of one diagonal is empty. */
  ghost predicate DiagonalPathClear(b: Board, fx: Coord, fy: Coord, tx: Coord, ty: Coord)
    requires Abs(fx - tx) == Abs(fy - ty)
  {
    forall d :: 0 < d < Abs(tx - fx) ==> b[Shift(fx, Step(fx, tx), d)][Shift(fy, Step(fy, ty), d)].None?
  }

  function BishopMove(b: Board, fx: Coord, fy: Coord, tx: Coord, ty: Coord): (r: TriState)
    requires ScanEnds(b, fx, fy, tx, ty)
    ensures r == NotApplicable <==> !Holds(b, fx, fy, Rook)
    ensures Holds(b, fx, fy, Bishop) ==> r == NotApplicable
    ensures r == Legal <==>
      Holds(b, fx, fy, Rook) && Abs(fx - tx) == Abs(fy - ty) && DiagonalPathClear(b, fx, fy, tx, ty)
      && EmptyOrEnemy(b, fx, fy, tx, ty)
  {
    var piece := b[fx][fy];
    if piece.None? || piece.value.kind != Tag(BishopStrategy) then NotApplicable
    else if Abs(fx - tx) != Abs(fy - ty) then Illegal
    else
      var sx, sy := Step(fx, tx), Step(fy, ty);
      var clear := DiagonalClear(b, fx + sx, fy + sy, tx, ty, sx, sy);
      assert clear <==> DiagonalPathClear(b, fx, fy, tx, ty) by {
        assert Abs(tx - (fx + sx)) == Abs(tx - fx) - 1;
        if clear {
          forall d | 0 < d < Abs(tx - fx)
            ensures b[Shift(fx, sx, d)][Shift(fy, sy, d)].None?
          {
            assert Shift(fx, sx, d) == Shift(fx + sx, sx, d - 1) && Shift(fy, sy, d) == Shift(fy + sy, sy, d - 1);
          }
        } else {
          var e :| 0 <= e < Abs(tx - fx) - 1 && b[Shift(fx + sx, sx, e)][Shift(fy + sy, sy, e)].Some?;
          assert Shift(fx, sx, e + 1) == Shift(fx + sx, sx, e) && Shift(fy, sy, e + 1) == Shift(fy + sy, sy, e);
        }
      }
      if !clear then Illegal
      else if b[tx][ty].Some? then Answer(b[tx][ty].value.color != piece.value.color)
      else Legal
  }

  // ---------------------------------------------------------------- knight

  function KnightMove(b: Board, fx: Coord, fy: Coord, tx: Coord, ty: Coord): (r: TriState)
    ensures r == NotApplicable <==> !Holds(b, fx, fy, Knight)
    ensures r == Legal <==>
      Holds(b, fx, fy, Knight)
      && ((Abs(fx - tx) == 1 && Abs(fy - ty) == 2) || (Abs(fx - tx) == 2 && Abs(fy - ty) == 1))
      && EmptyOrEnemy(b, fx, fy, tx, ty)
  {
    var piece := b[fx][fy];
    if piece.None? || piece.value.kind != Tag(KnightStrategy) then NotApplicable
    else
      var dx, dy := Abs(fx - tx), Abs(fy - ty);
      if dx + dy != 3 || dx == 0 || dy == 0 then Illegal
      else if b[tx][ty].Some? then Answer(b[tx][ty].value.color != piece.value.color)
      else Legal
  }

  // ---------------------------------------------------------------- queen

  /** The queen strategy: its bishop part's `true`, otherwise whatever its rook part answers. */
  function QueenMove(b: Board, fx: Coord, fy: Coord, tx: Coord, ty: Coord): (r: TriState)
    requires ScanEnds(b, fx, fy, tx, ty)
    ensures r == NotApplicable <==> !Holds(b, fx, fy, Rook)
    ensures Holds(b, fx, fy, Queen) ==> r == NotApplicable
    ensures r == Legal <==> BishopMove(b, fx, fy, tx, ty) == Legal || RookMove(b, fx, fy, tx, ty) == Legal
  {
    var viaBishop := BishopMove(b, fx, fy, tx, ty);
    if viaBishop == Legal then viaBishop else RookMove(b, fx, fy, tx, ty)
  }

  // ---------------------------------------------------------------- king

  function KingMove(b: Board, fx: Coord, fy: Coord, tx: Coord, ty: Coord): (r: TriState)
    ensures r == NotApplicable <==> !Holds(b, fx, fy, King)
    ensures r == Legal <==>
      Holds(b, fx, fy, King) && Abs(fx - tx) <= 1 && Abs(fy - ty) <= 1 && EmptyOrEnemy(b, fx, fy, tx, ty)
    // the zero-length move lands on the king's own colour, so it is rejected
    ensures fx == tx && fy == ty ==> r != Legal
  {
    var piece := b[fx][fy];
    if piece.None? || piece.value.kind != Tag(KingStrategy) then NotApplicable
    else
      var dx, dy := Abs(fx - tx), Abs(fy - ty);
      if dx > 1 || dy > 1 then Illegal
      else if b[tx][ty].Some? then Answer(b[tx][ty].value.color != piece.value.color)
      else Legal
  }

  // ---------------------------------------------------------------- dispatch

  /** Asks strategy `s` about the move; the answer is `null` exactly when the piece is absent or its type is not `Tag(s)`. */
  function CanMove(s: Strategy, b: Board, fx: Coord, fy: Coord, tx: Coord, ty: Coord): (r: TriState)
    requires Tag(s) == Rook ==> ScanEnds(b, fx, fy, tx, ty)
    ensures r == NotApplicable <==> !Holds(b, fx, fy, Tag(s))
  {
    match s
    case PawnStrategy => PawnMove(b, fx, fy, tx, ty)
    case RookStrategy => RookMove(b, fx, fy, tx, ty)
    case BishopStrategy => BishopMove(b, fx, fy, tx, ty)
    case KnightStrategy => KnightMove(b, fx, fy, tx, ty)
    case QueenStrategy => QueenMove(b, fx, fy, tx, ty)
    case KingStrategy => KingMove(b, fx, fy, tx, ty)
  }

  /**
   * Dispatching a piece to its own strategy answers `NotApplicable` exactly
   * for bishops and queens: no strategy ever accepts a move of theirs.
   */
  lemma DispatchIgnoresBishopsAndQueens(b: Board, fx: Coord, fy: Coord, tx: Coord, ty: Coord)
    requires b[fx][fy].Some? && ScanEnds(b, fx, fy, tx, ty)
    ensures var k := b[fx][fy].value.kind;
      CanMove(StrategyFor(k), b, fx, fy, tx, ty) == NotApplicable <==> k == Bishop || k == Queen
  {
  }

  /** A move that some strategy accepts leaves its square: no strategy accepts a zero-length move. */
  lemma {:induction false} NoZeroLengthMove(s: Strategy, b: Board, x: Coord, y: Coord)
    requires Tag(s) == Rook ==> ScanEnds(b, x, y, x, y)
    ensures CanMove(s, b, x, y, x, y) != Legal
  {
    match s
    case PawnStrategy =>
    case RookStrategy =>
    case BishopStrategy =>
    case KnightStrategy =>
    case QueenStrategy =>
    case KingStrategy =>
  }
}
