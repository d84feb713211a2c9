# Chessboard: move engine and game-log converter

A Dafny model of two parts of the `chessboard` repository, with proofs about each.

**The move-legality engine of `v0/chess.js`.**
- An 8×8 board holds optional pieces. Each piece has a colour (white or black) and a type (pawn, rook, bishop, knight, queen, king).
- There are six per-type move rules. Each answers *not my piece* (the source's `null`), *illegal* or *legal*.
- The check detector has three parts: `findKing`, `findAttackBoard` and `isCheck`.
- The `Chess` object owns the board and the side to move. `init` lays out the pieces. `move` checks a move, makes it, and undoes it when the detector objects.

**The converter of `v2/games/2026-01-20-fix-patch.js`.**
- `oldParseGame` reads the old line-oriented game log into records of three kinds: verbatim lines, piece placements (`put:`) and moves.
- `dumpNewFormat` writes those records out in the new format.

The model follows the code, including its quirks.

- **Bishops and queens never move.** The bishop rule is tagged with the rook's letter (`chess.js:99`). The bishop rule therefore applies only to rooks, and the queen rule, built from two rook-tagged rules, answers *not my piece* for a queen. So every bishop and queen move is refused (`Strategies.DispatchIgnoresBishopsAndQueens`, `Game.BishopsAndQueensNeverMove`).
- **Check means an adjacent enemy king.** The attack board equals the board it is built from (`Check.FindAttackBoard`). The final scan asks only the king rule. So a side is "in check" exactly when an enemy king stands next to its first king in row-major order (`Check.IsCheck`, `Check.InCheck`).
- **`move` asks about the opponent.** It asks the detector about the side that moves *next*, not the mover.
- **The undo loses a capture.** It puts the piece back on `from` and *empties* `to`, so a captured piece is lost (`Game.UndoLosesCapture`).
- **Parsing swaps the axes.** The parser reads a square's letter through a reversed table into `y` and its digit into `x`. The writer prints `x` as a letter and `y` as a digit. A square `ld` is therefore written back as `'a' + (d - '1')` followed by `'1' + (l - 'a')`; `e2:e4` becomes `b5:d5` (`Converter.SquareTransposed`, `Converter.MoveLineConverted`).

Where the documented behaviour and the code disagree, the model follows the code:
- The undo does not restore both squares: it empties the destination.
- The opening exchange `(6,4)→(4,4)`, `(1,4)→(3,4)` does not complete in the code. After white's move the detector probes white's pieces, and the probe of the rook on (7,0), which has nothing to its left in its row, never returns (see "Left out"). `Game.OpeningDoubleSteps` proves what the moves do when that probe is taken at its net effect.

Modules:
- `pieces.dfy`: the board, pieces, squares and cell update.
- `strategies.dfy`: the six rules and their dispatch.
- `check.dfy`: the check detector.
- `game.dfy`: the `Chess` class and lemmas about moves.
- `text.dfy`: the JavaScript string operations the converter uses. Whitespace is ASCII space, tab, line feed, vertical tab, form feed and carriage return.
- `converter.dfy`: the parser, the writer and lemmas about them.

## Model

| member | source | states |
|---|---|---|
| Pieces.Opponent | v0/chess.js:300 | the next side to move is the other colour |
| Strategies.StrategyFor | v0/chess.js:268-275 | the rule registered under a type letter carries that letter as its tag exactly for pawn, rook, knight and king; the bishop and queen entries carry the rook's tag |
| Strategies.PawnMove | v0/chess.js:15-51 | `null` exactly when the source is not a pawn. Onto an empty square: legal exactly when the move stays on the file and either goes one rank forward (white up, black down) or is the start double step 6→4 / 1→3, with the middle square unchecked. Onto an occupied square: legal exactly when it goes one file sideways and one rank forward onto an enemy. A pawn never moves straight onto an occupied square |
| Strategies.RowClear | v0/chess.js:70-76 | the scan along a row from `i` towards `ty` answers true exactly when every square from `i` up to, but not including, `ty` is empty |
| Strategies.ColumnClear | v0/chess.js:77-84 | the same for the scan along a column |
| Strategies.RookMove | v0/chess.js:60-93 | `null` exactly when the source is not a rook; legal exactly when the move stays on one row or column, every square strictly between is empty, and the destination is empty or holds an enemy |
| Strategies.DiagonalClear | v0/chess.js:112-118 | the diagonal scan answers true exactly when each of the `|tx - i|` squares it visits is empty |
| Strategies.BishopMove | v0/chess.js:96-127 | `null` exactly when the source is not a rook, so always `null` for a real bishop; on a rook, legal exactly when the move is diagonal, the squares strictly between are empty, and the destination is empty or holds an enemy |
| Strategies.KnightMove | v0/chess.js:136-155 | `null` exactly when the source is not a knight; legal exactly when the row and column distances are 1 and 2 in some order and the destination is empty or holds an enemy |
| Strategies.QueenMove | v0/chess.js:158-170 | `null` exactly when the source is not a rook, so always `null` for a real queen; legal exactly when the bishop rule or the rook rule says legal |
| Strategies.KingMove | v0/chess.js:178-197 | `null` exactly when the source is not a king; legal exactly when both distances are at most 1 and the destination is empty or holds an enemy; never legal onto its own square |
| Strategies.CanMove | v0/chess.js:295 | a rule answers `null` exactly when the source square does not hold a piece of the rule's tag |
| Strategies.DispatchIgnoresBishopsAndQueens | v0/chess.js:96-106 | the rule dispatched for a bishop or a queen always answers `null` |
| Strategies.NoZeroLengthMove | v0/chess.js:235-238 | no rule answers legal for a move from a square to itself |
| Check.FindKing | v0/chess.js:245-255 | returns the first square in row-major order that holds the king of the colour; returns nothing exactly when there is no such king |
| Check.Probe | v0/chess.js:236 | the zero-length probe of a rule on an enemy piece is never legal |
| Check.FindAttackBoard | v0/chess.js:227-243 | the attack board equals the board |
| Check.IsCheck | v0/chess.js:210-225 | given a king of colour `c`, answers exactly whether an enemy king stands at most one square from the first king of colour `c` in row-major order |
| Check.OnlyKingsMatter | v0/chess.js:213-224 | two boards with the same kings on the same squares agree on check, whatever the other pieces are |
| Check.DetectorScenarios | v0/chess.js:210-225 | two adjacent kings put each other in check; a queen four squares away on an open file, with the enemy king far off, does not |
| Game.Chess.constructor | v0/chess.js:259-277 | a new game has the starting layout and white to move |
| Game.Chess.Init | v0/chess.js:279-285 | black's back rank R N B Q K B N R on row 0, black pawns on row 1, white pawns on row 6, white's back rank on row 7, all else empty; the side to move is unchanged |
| Game.Chess.Move | v0/chess.js:287-310 | refused, with nothing changed, unless `from` holds a piece of the side to move whose rule says legal. If the tentative board puts the opponent in check, the move is refused, `from` gets the piece back, `to` is emptied and the turn stays. Otherwise the piece stands on `to`, `from` is empty and the turn passes |
| Game.Chess.GetBoard | v0/chess.js:316-318 | returns the board |
| Game.Chess.GetTurn | v0/chess.js:320-322 | returns the side to move |
| Game.Chess.GetPiece | v0/chess.js:324-326 | returns the content of the cell |
| Game.BishopsAndQueensNeverMove | v0/chess.js:295 | no move of a bishop or a queen is accepted |
| Game.AcceptedMoveRelocates | v0/chess.js:298-299 | an accepted move goes to another square; the tentative board has the piece on `to`, nothing on `from`, and every other cell as before |
| Game.UndoLosesCapture | v0/chess.js:303-304 | after the undo, `from` holds its piece and `to` is empty; the undo restores the board exactly when `to` was empty before the move |
| Game.StartKings | v0/chess.js:279-285 | in the starting layout the first king of each colour in row-major order is black's on (0,4) and white's on (7,4), and no other square is; neither side is in check |
| Game.OpeningDoubleSteps | v0/chess.js:287-310 | from the start, white's (6,4)→(4,4) is accepted and passes the detector, and so does black's reply (1,4)→(3,4) |
| Text.Reverse | v2/games/2026-01-20-fix-patch.js:11 | the reversed sequence has the same length and element `k` is the input's element `n - 1 - k` |
| Text.CharAt | v2/games/2026-01-20-fix-patch.js:30 | a character exactly when the index is inside the string, and then the character at that index |
| Text.IndexOf | v2/games/2026-01-20-fix-patch.js:30-31 | the first position holding the character, or -1 exactly when no position holds it |
| Text.Split | v2/games/2026-01-20-fix-patch.js:34 | one more piece than there are separators; no piece holds the separator, and every character of a piece comes from the string |
| Text.JoinSplit | v2/games/2026-01-20-fix-patch.js:34 | joining the pieces of a split with the separator gives back the string |
| Text.SplitJoin | v2/games/2026-01-20-fix-patch.js:34 | splitting a join of separator-free pieces gives back the pieces |
| Text.SplitAfterPiece | v2/games/2026-01-20-fix-patch.js:34 | a separator-free prefix followed by the separator splits off as the first piece |
| Text.SplitNoSeparator | v2/games/2026-01-20-fix-patch.js:34 | a string without the separator splits into itself |
| Text.TrimStart | v2/games/2026-01-20-fix-patch.js:9 | a suffix of the string; everything it drops is whitespace, and it does not start with whitespace |
| Text.TrimEnd | v2/games/2026-01-20-fix-patch.js:9 | a prefix of the string; everything it drops is whitespace, and it does not end with whitespace |
| Text.Trim | v2/games/2026-01-20-fix-patch.js:9 | empty exactly when the string is all whitespace; otherwise it neither starts nor ends with whitespace |
| Text.TrimKeeps | v2/games/2026-01-20-fix-patch.js:9 | trimming keeps only characters of the string |
| Text.TrimIdempotent | v2/games/2026-01-20-fix-patch.js:9 | trimming twice is trimming once |
| Text.FirstSpace | v2/games/2026-01-20-fix-patch.js:25 | the position of the first whitespace character, or the length when there is none |
| Text.Tokens | v2/games/2026-01-20-fix-patch.js:25 | at least one token, and no token holds whitespace |
| Text.TokensKeep | v2/games/2026-01-20-fix-patch.js:25 | every character of a token comes from the string |
| Text.TokensOfRun | v2/games/2026-01-20-fix-patch.js:25 | a whitespace-free word (possibly empty), a nonempty run of whitespace and a text that is empty or starts with a non-space split into the word and then the tokens of the text; with `Text.TokensOfWord` this fixes the tokens of every string: the maximal whitespace-free runs, in order, with an empty first token after leading whitespace and an empty last one before trailing whitespace |
| Text.TokensAfterWord | v2/games/2026-01-20-fix-patch.js:25 | a word and a single space in front of a text whose tokens are `ts` give the word followed by `ts` |
| Text.TokensOfWord | v2/games/2026-01-20-fix-patch.js:25 | a word without whitespace is its only token |
| Converter.TablesReversed | v2/games/2026-01-20-fix-patch.js:5-6 | the parser's letter table is the writer's letter table reversed, and the writer's digit table is the parser's reversed |
| Converter.LineKinds | v2/games/2026-01-20-fix-patch.js:16-42 | a line starting with `*` or `-` is kept verbatim, ahead of the `put:` test; a `put:` line throws exactly when it has fewer than four whitespace tokens; any other line is skipped exactly when it does not hold exactly one `:`, and is a move exactly when it does |
| Converter.CleanLinesTrimmed | v2/games/2026-01-20-fix-patch.js:7-10 | every kept line is nonempty and neither starts nor ends with whitespace |
| Converter.ParseGame | v2/games/2026-01-20-fix-patch.js:3-46 | the records are those of the cleaned lines, taken in their original order |
| Converter.ParseCleanLines | v2/games/2026-01-20-fix-patch.js:12-45 | draining the reversed lines from their end yields the records of the lines in their original order, or the throw of the first `put:` line without a square |
| Converter.ParseLinesAppend | v2/games/2026-01-20-fix-patch.js:14-44 | the parse of two runs of lines is the parse of the first followed by the parse of the second, and a throw in the first ends it |
| Converter.BlankContentParsesEmpty | v2/games/2026-01-20-fix-patch.js:7-12 | content that is all whitespace has no lines and parses to no records |
| Converter.AllBlankDropped | v2/games/2026-01-20-fix-patch.js:10 | lines that trim to nothing are all dropped |
| Converter.CleanLinesHaveNoNewline | v2/games/2026-01-20-fix-patch.js:7-10 | no cleaned line holds a line feed |
| Converter.Writer.constructor | v2/games/2026-01-20-fix-patch.js:82-85 | a new writer has written nothing |
| Converter.Writer.Write | v2/games/2026-01-20-fix-patch.js:83 | writing appends the text to what was written |
| Converter.DumpNewFormat | v2/games/2026-01-20-fix-patch.js:48-71 | appends to the writer exactly the printed game: each record's line and a line feed, in order |
| Converter.DumpAppend | v2/games/2026-01-20-fix-patch.js:52-70 | the output for two games in a row is the output for each, one after the other |
| Converter.DecodedBodyHasNoNewline | v2/games/2026-01-20-fix-patch.js:52-64 | a line without line feeds decodes to a record whose printed line has none |
| Converter.ParsedBodiesHaveNoNewline | v2/games/2026-01-20-fix-patch.js:14-44 | no record parsed from lines without line feeds prints a line feed |
| Converter.DumpIsJoin | v2/games/2026-01-20-fix-patch.js:52-70 | the output is the records' lines joined and terminated by line feeds |
| Converter.DumpLines | v2/games/2026-01-20-fix-patch.js:52-70 | when no record's line holds a line feed, the output splits at its line feeds into those lines, in order, with nothing after the last |
| Converter.ConvertedLinesMatchRecords | v2/games/2026-01-20-fix-patch.js:66-67 | converting a parsed log writes exactly one line per record, in order; every parsed record has a kind the writer knows, so the writer never throws |
| Converter.ParserTables | v2/games/2026-01-20-fix-patch.js:5-6 | the parser reads a letter `a..h` as `7 - (letter - 'a')`, a digit `1..8` as `digit - 1`, and any other character as -1 |
| Converter.WriterTables | v2/games/2026-01-20-fix-patch.js:49-50 | the writer prints index `i` as the letter `'a' + i` and as the digit `'8' - i` |
| Converter.SquareTransposed | v2/games/2026-01-20-fix-patch.js:55 | a square `ld` read by the parser is written back as the letter `'a' + (d - '1')` and the digit `'1' + (l - 'a')` |
| Converter.MoveLineConverted | v2/games/2026-01-20-fix-patch.js:34-42 | a move line `l1d1:l2d2` of valid squares becomes a move record, written back as both squares transposed |
| Converter.PutLineTokens | v2/games/2026-01-20-fix-patch.js:25 | the whitespace tokens of `put: name color square`, for words without whitespace, are `put:`, the name, the colour and the square |
| Converter.PutBranch | v2/games/2026-01-20-fix-patch.js:16-25 | a line starting with `put:` is decoded from its whitespace tokens |
| Converter.PutTokensDecoded | v2/games/2026-01-20-fix-patch.js:25-31 | the second and third tokens become the piece's name and colour, and a valid square `ld` in the fourth gives `y = 7 - (l - 'a')` and `x = d - '1'` |
| Converter.PutLineDecoded | v2/games/2026-01-20-fix-patch.js:24-32 | a line `put: name color ld` with a valid square becomes the put record of that name and colour at `y = 7 - (l - 'a')`, `x = d - '1'` |
| Converter.PutLineConverted | v2/games/2026-01-20-fix-patch.js:24-32 | a line `put: name color ld` with a valid square is written back as `put: name color` and the square transposed |

## Left out

- `Chess.print` (`v0/chess.js:312-314`): console output only.
- `v0/index.js` is not part of this model: it is the page's drawing and click handling, which only calls `move` and `getPiece`.
- The converter's driver (`v2/games/2026-01-20-fix-patch.js:73-100`) reads arguments and files and writes to standard output or a file stream. The writer is modelled as an append-only text (`Converter.Writer`), and the content is a parameter.
- Strategies.RookMove, Strategies.BishopMove, Strategies.QueenMove and Strategies.CanMove: these require that the move is not a rook moving onto its own square (`ScanEnds`). For that move the source's scans start one square past the target and walk away from it. The row scan of the rook rule (`v0/chess.js:72-75`) answers `false` at the first piece to the rook's left in its row and never stops when that stretch is empty. The diagonal scan of the bishop rule (`v0/chess.js:114-118`) answers `false` at the first piece up and to the left of the rook, and otherwise throws a `TypeError` when it reads row -1. The model leaves all of these cases out rather than distinguish them.
- Check.Probe: for a rook, the three rook-tagged rules' zero-length probes are taken as *illegal*. In the source each of them answers `false`, loops forever or throws, as described above. None can answer `true`, and the answer only decides whether a cell is copied onto itself.
- Check.FindAttackBoard: as a consequence, it states the net effect (the attack board equals the board). In the source it returns, with that result, only when every probed rook has a piece to its left in its row and a piece up and to the left of it. It never returns when some probed rook has an empty stretch to its left, and otherwise throws when one has no piece up and to the left. The opening exchange is affected: the rook on (7,0) has nothing to its left.
- Check.IsCheck: requires a king of the queried colour. Without one the source reads a property of `undefined` and throws as soon as it meets a piece of the other colour (`v0/chess.js:219`), and answers `false` when there is no such piece; the model does not cover the missing king.
- Game.Chess.Move: requires that the move is not a rook of the side to move going to its own square. It also requires that the opponent still has a king on the tentative board after an accepted move. In the first case the source refuses the move or does not return, as described for the rook rule above; in the second it throws while looking for the missing king.
- Game.Chess.GetBoard: returns the board as a value. The source returns its array, and a caller that writes into it changes the game; that aliasing is not modelled.
- Coordinates outside `0..7` are excluded by the types (`Coord`). The source does not check them, and an out-of-range row makes it throw.
- The writer's `throw new Error('unknown kind')` (`v2/games/2026-01-20-fix-patch.js:66-67`) has no counterpart. `Record` has exactly the three kinds the parser builds; `Converter.ConvertedLinesMatchRecords` states the consequence.
- JavaScript's `trim` and `/\s+/` also treat Unicode spaces (no-break space, line and paragraph separators, the byte order mark, and so on) as whitespace. The model uses the ASCII whitespace set only.
- Strings are sequences of Dafny characters. The source indexes UTF-16 code units; the two agree on the ASCII logs the converter reads.
