/**
 * Check detection of the chess engine: locating a side's king, building the
 * attack board, and deciding whether a side is in check.
 *
 * As written, the detector can only ever see an enemy king standing next to
 * the side's king: the attack board equals the board it was built from, and
 * the final scan asks the king strategy about every enemy piece, whatever its
 * type, and the king strategy answers `NotApplicable` for everything but a
 * king.
 */
module Check {
  import opened Wrappers
  import opened Pieces
  import opened Strategies

  /** `(i, j)` comes before `(x, y)` in row-major order. */
  predicate Before(i: int, j: int, x: int, y: int)
  {
    i < x || (i == x && j < y)
  }

  /** `(x, y)` holds the first king of colour `c` met in row-major order. */
  ghost predicate IsFirstKing(b: Board, c: Color, x: int, y: int)
  {
    0 <= x < 8 && 0 <= y < 8 && b[x][y] == Some(Piece(c, King))
    && forall i, j :: 0 <= i < 8 && 0 <= j < 8 && Before(i, j, x, y) ==> b[i][j] != Some(Piece(c, King))
  }

  /** Some square holds a king of colour `c`. */
  ghost predicate HasKing(b: Board, c: Color)
  {
    exists x, y :: 0 <= x < 8 && 0 <= y < 8 && b[x][y] == Some(Piece(c, King))
  }

  /** The square `(i, j)` holds a king of the other colour than `c`, at most one square from `(x, y)` in each direction. */
  predicate EnemyKingAt(b: Board, c: Color, i: Coord, j: Coord, x: int, y: int)
  {
    b[i][j] == Some(Piece(Opponent(c), King)) && Abs(i - x) <= 1 && Abs(j - y) <= 1
  }

  /** An enemy king stands next to `(x, y)`. */
  ghost predicate EnemyKingNear(b: Board, c: Color, x: int, y: int)
  {
    exists i: Coord, j: Coord :: EnemyKingAt(b, c, i, j, x, y)
  }

  /** What the detector answers: an enemy king stands next to the first king of colour `c`. */
  ghost predicate InCheck(b: Board, c: Color)
  {
    exists x, y :: IsFirstKing(b, c, x, y) && EnemyKingNear(b, c, x, y)
  }

  /** The first king in row-major order is unique. */
  lemma FirstKingUnique(b: Board, c: Color, x: int, y: int, x': int, y': int)
    requires IsFirstKing(b, c, x, y) && IsFirstKing(b, c, x', y')
    ensures x == x' && y == y'
  {
  }

  /** Scans the board in row-major order for the king of colour `c`; `None` is the source's `undefined`. */
  method FindKing(b: Board, c: Color) returns (r: Option<Square>)
    ensures r.Some? ==> IsFirstKing(b, c, r.value.x, r.value.y)
    ensures r.None? <==> !HasKing(b, c)
  {
    for i := 0 to 8
      invariant forall i', j' :: 0 <= i' < i && 0 <= j' < 8 ==> b[i'][j'] != Some(Piece(c, King))
    {
      for j := 0 to 8
        invariant forall i', j' :: 0 <= i' < 8 && 0 <= j' < 8 && Before(i', j', i, j) ==> b[i'][j'] != Some(Piece(c, King))
      {
        if b[i][j] == Some(Piece(c, King)) {
          return Some(Square(i, j));
        }
      }
    }
    return None;
  }

  /** The strategies in the order the detector iterates over them. */
  const AllStrategies: seq<Strategy> :=
    [PawnStrategy, RookStrategy, BishopStrategy, KnightStrategy, QueenStrategy, KingStrategy]

  /**
   * The zero-length probe `canMove(board, i, j, i, j)` of strategy `s`.
   *
   * For a rook, the three rook-tagged strategies are stood in for by `Illegal`:
   * the rook strategy's scan starts one column to the left and steps left, so
   * it never meets its target: it returns `false` at the first piece on the
   * way and otherwise runs forever. The bishop-tagged scan walks up-left the
   * same way: it returns `false` at the first piece and otherwise throws when
   * it reads row -1. None can return `true`, and the answer is only ever used to decide
   * whether to copy the piece back onto its own square.
   */
  function Probe(b: Board, s: Strategy, i: Coord, j: Coord): (r: TriState)
    ensures r != Legal
  {
    if Tag(s) == Rook && Holds(b, i, j, Rook) then Illegal
    else
      NoZeroLengthMove(s, b, i, j);
      CanMove(s, b, i, j, i, j)
  }

  /**
   * Builds the attack board of the side opposite `c`: a clone of the board in
   * which every enemy piece that some strategy lets move onto its own square
   * is written back onto that square. The result is the board itself.
   */
  method FindAttackBoard(b: Board, c: Color) returns (attack: Board)
    ensures attack == b
  {
    attack := b;
    for i := 0 to 8
      invariant attack == b
    {
      for j := 0 to 8
        invariant attack == b
      {
        var x: Coord, y: Coord := i, j;
        var piece := b[x][y];
        if piece.None? || piece.value.color == c {
          continue;
        }
        for k := 0 to |AllStrategies|
          invariant attack == b
        {
          if Probe(b, AllStrategies[k], x, y) == Legal {
            attack := Place(attack, x, y, piece);
          }
        }
      }
    }
  }

  /** Whether the king of colour `c` is attacked, as the detector decides it. */
  method IsCheck(b: Board, c: Color) returns (r: bool)
    requires HasKing(b, c)
    ensures r == InCheck(b, c)
  {
    var attack := FindAttackBoard(b, c);
    var king := FindKing(b, c);
    var kx, ky := king.value.x, king.value.y;
    for i := 0 to 8
      invariant forall i': Coord, j': Coord :: i' < i ==> !EnemyKingAt(b, c, i', j', kx, ky)
    {
      for j := 0 to 8
        invariant forall i': Coord, j': Coord :: Before(i', j', i, j) ==> !EnemyKingAt(b, c, i', j', kx, ky)
      {
        var piece := b[i][j];
        if piece.None? || piece.value.color == c {
          continue;
        }
        if KingMove(attack, i, j, kx, ky) == Legal {
          assert EnemyKingAt(b, c, i, j, kx, ky);
          return true;
        }
      }
    }
    forall x, y | IsFirstKing(b, c, x, y)
      ensures !EnemyKingNear(b, c, x, y)
    {
      FirstKingUnique(b, c, x, y, kx, ky);
    }
    return false;
  }

  /**
   * Only kings take part in check: two boards that hold the same kings on
   * the same squares agree on check, whatever other pieces stand where.
   */
  lemma {:induction false} OnlyKingsMatter(a: Board, b: Board, c: Color)
    requires forall i, j :: 0 <= i < 8 && 0 <= j < 8 && (Holds(a, i, j, King) || Holds(b, i, j, King)) ==> a[i][j] == b[i][j]
    ensures InCheck(a, c) <==> InCheck(b, c)
  {
    forall a', b' | (a', b') in {(a, b), (b, a)} && InCheck(a', c)
      ensures InCheck(b', c)
    {
      var x, y :| IsFirstKing(a', c, x, y) && EnemyKingNear(a', c, x, y);
      var i: Coord, j: Coord :| EnemyKingAt(a', c, i, j, x, y);
      assert EnemyKingAt(b', c, i, j, x, y);
      assert IsFirstKing(b', c, x, y);
    }
  }

  /** The board with no pieces. */
  const Empty: Board := seq(8, _ => seq(8, _ => None))

  /**
   * Two regression positions for the detector: a king with the enemy king on
   * the next square is in check; a king on an open file facing an enemy
   * queen four squares away, with the enemy king far off, is not.
   */
  lemma {:induction false} DetectorScenarios()
    ensures var b := Place(Place(Empty, 0, 4, Some(Piece(Black, King))), 1, 4, Some(Piece(White, King)));
      InCheck(b, Black) && InCheck(b, White)
    ensures var b := Place(Place(Place(Empty, 0, 4, Some(Piece(Black, King))), 7, 0, Some(Piece(White, King))),
                           4, 4, Some(Piece(White, Queen)));
      !InCheck(b, Black)
  {
    var b := Place(Place(Empty, 0, 4, Some(Piece(Black, King))), 1, 4, Some(Piece(White, King)));
    assert IsFirstKing(b, Black, 0, 4) && EnemyKingAt(b, Black, 1, 4, 0, 4);
    assert IsFirstKing(b, White, 1, 4) && EnemyKingAt(b, White, 0, 4, 1, 4);
    var q := Place(Place(Place(Empty, 0, 4, Some(Piece(Black, King))), 7, 0, Some(Piece(White, King))),
                   4, 4, Some(Piece(White, Queen)));
    forall x, y | IsFirstKing(q, Black, x, y)
      ensures !EnemyKingNear(q, Black, x, y)
    {
      assert x == 0 && y == 4;
      forall i: Coord, j: Coord
        ensures !EnemyKingAt(q, Black, i, j, x, y)
      {
        assert q[i][j] == Some(Piece(White, King)) ==> i == 7 && j == 0;
      }
    }
  }
}
