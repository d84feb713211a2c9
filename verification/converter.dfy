/**
 * The game-log converter: a parser for the old line-oriented log format and
 * a writer for the new one.
 *
 * The parser trims every line, drops the empty ones and turns the rest, in
 * order, into records: `*` and `-` lines are kept verbatim, `put:` lines
 * place a piece, and `from:to` lines are moves. A square `ld` (letter,
 * digit) is read through a reversed letter table, so its letter gives
 * `y = 7 - (l - 'a')` and its digit `x = d - 1`; a character outside the
 * tables gives -1. The writer prints `x` through the letters `a..h` and `y`
 * through the digits `8..1`, so a parsed square `ld` is written back as the
 * letter `'a' + (d - 1)` followed by the digit `l - 'a' + 1`: the two axes are
 * swapped. An index outside the tables is written as `undefined`.
 */
module Converter {
  import opened Wrappers
  import opened Text

  datatype Record =
    | LineRecord(line: string)
    | PutRecord(pieceName: string, pieceColor: string, y: int, x: int)
    | MoveRecord(y1: int, x1: int, y2: int, x2: int)

  /** A parse either completes, or throws on a `put:` line that has no square (the line is kept). */
  datatype Result<T> = Ok(value: T) | Throws(line: string)

  /** The parser's tables: the letters reversed, and the digits. */
  const ChessLetters: string := "hgfedcba"
  const ChessNumbers: string := "12345678"

  /** The writer's tables: the letters, and the digits reversed. */
  const Letters: string := "abcdefgh"
  const Numbers: string := "87654321"

  /** Each side reverses one of its tables: the parser its letters, the writer its digits. */
  lemma TablesReversed()
    ensures ChessLetters == Reverse(Letters) && Numbers == Reverse(ChessNumbers)
  {
    assert Reverse(Letters) == Reverse(Letters[1..]) + [Letters[0]];
  }

  // ---------------------------------------------------------------- parsing

  /** The outcome of one line: a record, nothing, or the throw of a `put:` line without a square. */
  datatype Step = Emit(record: Record) | Skip | Throw

  /** A line that is neither a kept line nor a `put:` line. */
  predicate IsPlay(line: string)
  {
    !StartsWith(line, "*") && !StartsWith(line, "-") && !StartsWith(line, "put:")
  }

  /** Decodes one cleaned line. */
  function DecodeLine(line: string): Step
  {
    if StartsWith(line, "*") then Emit(LineRecord(line))
    else if StartsWith(line, "-") then Emit(LineRecord(line))
    else if StartsWith(line, "put:") then
      DecodePut(Tokens(line))
    else
      var play := Split(line, ':');
      if |play| != 2 then Skip
      else
        Emit(MoveRecord(IndexOf(ChessLetters, CharAt(play[0], 0)), IndexOf(ChessNumbers, CharAt(play[0], 1)),
                        IndexOf(ChessLetters, CharAt(play[1], 0)), IndexOf(ChessNumbers, CharAt(play[1], 1))))
  }

  /**
   * Decodes the whitespace tokens of a `put:` line: the second and third are
   * the piece's name and colour, the fourth its square. Destructuring fewer
   * than four tokens leaves the square `undefined`, and reading its first
   * character throws.
   */
  function DecodePut(tokens: seq<string>): Step
  {
    if |tokens| < 4 then Throw
    else
      var position := tokens[3];
      Emit(PutRecord(tokens[1], tokens[2],
                     IndexOf(ChessLetters, CharAt(position, 0)), IndexOf(ChessNumbers, CharAt(position, 1))))
  }

  /**
   * How a line is classified: `*` and `-` lines are kept verbatim (ahead of
   * the `put:` test); a `put:` line throws exactly when it has fewer than four
   * whitespace-separated tokens; any other line is a move when it holds
   * exactly one `:` and is dropped otherwise.
   */
  lemma LineKinds(line: string)
    ensures StartsWith(line, "*") || StartsWith(line, "-") ==> DecodeLine(line) == Emit(LineRecord(line))
    ensures DecodeLine(line).Throw? <==> StartsWith(line, "put:") && |Tokens(line)| < 4
    ensures DecodeLine(line).Skip? <==> IsPlay(line) && Count(line, ':') != 1
    ensures DecodeLine(line).Emit? && DecodeLine(line).record.MoveRecord? <==> IsPlay(line) && Count(line, ':') == 1
  {
    if StartsWith(line, "put:") {
      assert !StartsWith(line, "*") && !StartsWith(line, "-") by { assert line[0] == 'p'; }
    }
  }

  /** Puts `rs` in front of the records of a completed parse. */
  function Prepend(rs: seq<Record>, r: Result<seq<Record>>): Result<seq<Record>>
  {
    match r
    case Ok(t) => Ok(rs + t)
    case Throws(l) => Throws(l)
  }

  /** The records of the lines, in the order of the lines; the first line that throws ends the parse. */
  function ParseLines(lines: seq<string>): Result<seq<Record>>
  {
    if lines == [] then Ok([])
    else
      match DecodeLine(lines[0])
      case Throw => Throws(lines[0])
      case Skip => ParseLines(lines[1..])
      case Emit(r) => Prepend([r], ParseLines(lines[1..]))
  }

  /** Trims every piece and drops those left empty. */
  function TrimAndDrop(pieces: seq<string>): seq<string>
  {
    if pieces == [] then []
    else
      var t := Trim(pieces[0]);
      (if t == [] then [] else [t]) + TrimAndDrop(pieces[1..])
  }

  /** Every line kept is nonempty and starts and ends with a character that is not whitespace. */
  lemma {:induction false} CleanLinesTrimmed(pieces: seq<string>)
    ensures forall l :: l in TrimAndDrop(pieces) ==> l != [] && !IsSpace(l[0]) && !IsSpace(l[|l| - 1])
  {
    if pieces != [] {
      CleanLinesTrimmed(pieces[1..]);
    }
  }

  /** The lines the parser works through. */
  function CleanLines(content: string): seq<string>
  {
    TrimAndDrop(Split(content, '\n'))
  }

  /** The parser: cleans the content into lines and parses them in order. */
  method ParseGame(content: string) returns (r: Result<seq<Record>>)
    ensures r == ParseLines(CleanLines(content))
  {
    r := ParseCleanLines(CleanLines(content));
  }

  /**
   * The parser's loop: drains the cleaned lines, reversed, from their end, so
   * it meets them in their original order, and collects the records.
   */
  method ParseCleanLines(all: seq<string>) returns (r: Result<seq<Record>>)
    ensures r == ParseLines(all)
  {
    var lines := Reverse(all);
    if |lines| == 0 {
      return Ok([]);
    }
    var result: seq<Record> := [];
    assert all[0..] == all;
    PrependNothing(ParseLines(all));
    while |lines| > 0
      invariant |lines| <= |all|
      invariant lines == Reverse(all[|all| - |lines|..])
      invariant ParseLines(all) == Prepend(result, ParseLines(all[|all| - |lines|..]))
    {
      ghost var k := |all| - |lines|;
      PopReversed(all, k);
      ParseStep(all, k);
      var line := lines[|lines| - 1];
      lines := lines[..|lines| - 1];
      match DecodeLine(line) {
        case Throw =>
          return Throws(line);
        case Skip =>
        case Emit(record) =>
          PrependTwice(result, [record], ParseLines(all[k + 1..]));
          result := result + [record];
      }
    }
    assert all[|all|..] == [] && result + [] == result;
    return Ok(result);
  }

  /** Popping the last element of the reversed rest of `s` yields `s[k]` and leaves the reversed rest after it. */
  lemma PopReversed<T>(s: seq<T>, k: nat)
    requires k < |s|
    ensures Reverse(s[k..])[|s| - k - 1] == s[k]
    ensures Reverse(s[k..])[..|s| - k - 1] == Reverse(s[k + 1..])
  {
  }

  lemma ParseStep(s: seq<string>, k: nat)
    requires k < |s|
    ensures ParseLines(s[k..]) == match DecodeLine(s[k])
      case Throw => Throws(s[k])
      case Skip => ParseLines(s[k + 1..])
      case Emit(r) => Prepend([r], ParseLines(s[k + 1..]))
  {
    assert s[k..][0] == s[k] && s[k..][1..] == s[k + 1..];
  }

  lemma PrependNothing(r: Result<seq<Record>>)
    ensures Prepend([], r) == r
  {
    if r.Ok? {
      assert [] + r.value == r.value;
    }
  }

  lemma PrependTwice(a: seq<Record>, b: seq<Record>, r: Result<seq<Record>>)
    ensures Prepend(a, Prepend(b, r)) == Prepend(a + b, r)
  {
    if r.Ok? {
      assert a + (b + r.value) == (a + b) + r.value;
    }
  }

  // ---------------------------------------------------------------- writing

  /** `letters[i]` in a template: the letter, or `undefined` outside the table. */
  function LetterAt(i: int): string
  {
    if 0 <= i < |Letters| then [Letters[i]] else "undefined"
  }

  /** `numbers[i]` in a template: the digit, or `undefined` outside the table. */
  function NumberAt(i: int): string
  {
    if 0 <= i < |Numbers| then [Numbers[i]] else "undefined"
  }

  /** The line the writer prints for a record, without its line feed. */
  function Body(r: Record): string
  {
    match r
    case MoveRecord(y1, x1, y2, x2) => LetterAt(x1) + NumberAt(y1) + ":" + LetterAt(x2) + NumberAt(y2)
    case PutRecord(name, color, y, x) => "put: " + name + " " + color + " " + LetterAt(x) + NumberAt(y)
    case LineRecord(line) => line
  }

  /** Everything the writer prints for a game. */
  function Dump(game: seq<Record>): string
  {
    if game == [] then "" else Body(game[0]) + "\n" + Dump(game[1..])
  }

  /** The bodies of the records, in order. */
  function Bodies(game: seq<Record>): (r: seq<string>)
    ensures |r| == |game| && forall k :: 0 <= k < |game| ==> r[k] == Body(game[k])
  {
    if game == [] then [] else [Body(game[0])] + Bodies(game[1..])
  }

  /** An output that only ever grows at its end. */
  class Writer {
    var text: string

    constructor()
      ensures text == ""
    {
      text := "";
    }

    method Write(s: string)
      modifies this
      ensures text == old(text) + s
    {
      text := text + s;
    }
  }

  /** The writer: one line per record, in order, appended to `writer`. */
  method DumpNewFormat(game: seq<Record>, writer: Writer)
    modifies writer
    ensures writer.text == old(writer.text) + Dump(game)
  {
    for i := 0 to |game|
      invariant writer.text == old(writer.text) + Dump(game[..i])
    {
      var line := Body(game[i]) + "\n";
      writer.Write(line);
      DumpNext(old(writer.text), game, i);
    }
    assert game[..|game|] == game;
  }

  /** Printing one more record after `start` appends its line. */
  lemma DumpNext(start: string, game: seq<Record>, i: nat)
    requires i < |game|
    ensures start + Dump(game[..i + 1]) == start + Dump(game[..i]) + (Body(game[i]) + "\n")
  {
    assert game[..i + 1] == game[..i] + [game[i]];
    DumpAppend(game[..i], [game[i]]);
    assert [game[i]][1..] == [];
    assert Dump([game[i]]) == Body(game[i]) + "\n" + "";
  }

  // ---------------------------------------------------------------- properties

  /** What is printed for two games one after the other is what is printed for each, in order. */
  lemma {:induction false} DumpAppend(a: seq<Record>, b: seq<Record>)
    ensures Dump(a + b) == Dump(a) + Dump(b)
  {
    if a != [] {
      assert (a + b)[1..] == a[1..] + b;
      DumpAppend(a[1..], b);
    } else {
      assert a + b == b;
    }
  }

  /** The parse of two runs of lines is the parse of the first followed by that of the second. */
  lemma {:induction false} ParseLinesAppend(a: seq<string>, b: seq<string>)
    ensures ParseLines(a + b) == match ParseLines(a)
      case Ok(ra) => Prepend(ra, ParseLines(b))
      case Throws(l) => Throws(l)
  {
    if a == [] {
      assert a + b == b;
      match ParseLines(b)
      case Ok(rb) => assert [] + rb == rb;
      case Throws(_) =>
    } else {
      assert (a + b)[0] == a[0] && (a + b)[1..] == a[1..] + b;
      ParseLinesAppend(a[1..], b);
      match ParseLines(a[1..]) {
        case Ok(ra) =>
          match ParseLines(b) {
            case Ok(rb) =>
              if DecodeLine(a[0]).Emit? {
                var r := DecodeLine(a[0]).record;
                assert [r] + (ra + rb) == ([r] + ra) + rb;
              }
            case Throws(_) =>
          }
        case Throws(_) =>
      }
    }
  }

  /** Content made of whitespace only has no lines to parse, so it parses to no records. */
  lemma {:induction false} BlankContentParsesEmpty(content: string)
    requires forall k :: 0 <= k < |content| ==> IsSpace(content[k])
    ensures CleanLines(content) == [] && ParseLines(CleanLines(content)) == Ok([])
  {
    var pieces := Split(content, '\n');
    forall p | p in pieces
      ensures Trim(p) == []
    {
      forall k | 0 <= k < |p|
        ensures IsSpace(p[k])
      {
        assert p[k] in p;
      }
    }
    AllBlankDropped(pieces);
  }

  lemma {:induction false} AllBlankDropped(pieces: seq<string>)
    requires forall p :: p in pieces ==> Trim(p) == []
    ensures TrimAndDrop(pieces) == []
  {
    if pieces != [] {
      assert pieces[0] in pieces;
      AllBlankDropped(pieces[1..]);
    }
  }

  /** The cleaned lines hold no line feed. */
  lemma {:induction false} CleanLinesHaveNoNewline(pieces: seq<string>)
    requires forall p :: p in pieces ==> '\n' !in p
    ensures forall l :: l in TrimAndDrop(pieces) ==> '\n' !in l
  {
    if pieces != [] {
      assert pieces[0] in pieces;
      TrimKeeps(pieces[0]);
      CleanLinesHaveNoNewline(pieces[1..]);
    }
  }

  lemma LetterAndNumberHaveNoNewline()
    ensures forall i :: '\n' !in LetterAt(i) && '\n' !in NumberAt(i)
  {
    forall i
      ensures '\n' !in LetterAt(i) && '\n' !in NumberAt(i)
    {
      if 0 <= i < 8 {
        assert Letters[i] in Letters && Numbers[i] in Numbers;
      }
    }
  }

  /** The tokens of a line free of line feeds are free of them too. */
  lemma TokensHaveNoNewline(line: string)
    requires '\n' !in line
    ensures forall p :: p in Tokens(line) ==> '\n' !in p
  {
    TokensKeep(line);
  }

  /** A line free of line feeds gives a record whose printed line is free of them too. */
  lemma DecodedBodyHasNoNewline(line: string)
    requires '\n' !in line && DecodeLine(line).Emit?
    ensures '\n' !in Body(DecodeLine(line).record)
  {
    LetterAndNumberHaveNoNewline();
    TokensHaveNoNewline(line);
    if DecodeLine(line).record.PutRecord? {
      assert Tokens(line)[1] in Tokens(line) && Tokens(line)[2] in Tokens(line);
    }
  }

  lemma {:induction false} ParsedBodiesHaveNoNewline(lines: seq<string>)
    requires forall l :: l in lines ==> '\n' !in l
    ensures ParseLines(lines).Ok? ==> forall r :: r in ParseLines(lines).value ==> '\n' !in Body(r)
  {
    if lines != [] {
      assert lines[0] in lines;
      ParsedBodiesHaveNoNewline(lines[1..]);
      if DecodeLine(lines[0]).Emit? {
        DecodedBodyHasNoNewline(lines[0]);
      }
    }
  }

  /** What is printed splits at its line feeds into the records' lines, in order, and nothing after the last. */
  lemma {:induction false} DumpLines(game: seq<Record>)
    requires forall r :: r in game ==> '\n' !in Body(r)
    ensures Split(Dump(game), '\n') == Bodies(game) + [""]
  {
    DumpIsJoin(game);
    var pieces := Bodies(game) + [""];
    forall k | 0 <= k < |pieces|
      ensures '\n' !in pieces[k]
    {
      if k < |game| {
        assert game[k] in game;
      }
    }
    SplitJoin(pieces, '\n');
  }

  lemma {:induction false} DumpIsJoin(game: seq<Record>)
    ensures Dump(game) == Join(Bodies(game) + [""], '\n')
  {
    if game != [] {
      DumpIsJoin(game[1..]);
      assert (Bodies(game) + [""])[1..] == Bodies(game[1..]) + [""];
    }
  }

  /**
   * Converting a log writes exactly one line-feed-terminated line per parsed
   * record, in the order of the records: never a throw for an unknown kind.
   */
  lemma ConvertedLinesMatchRecords(content: string)
    requires ParseLines(CleanLines(content)).Ok?
    ensures var game := ParseLines(CleanLines(content)).value;
      Split(Dump(game), '\n') == Bodies(game) + [""]
  {
    CleanLinesHaveNoNewline(Split(content, '\n'));
    ParsedBodiesHaveNoNewline(CleanLines(content));
    DumpLines(ParseLines(CleanLines(content)).value);
  }

  /** The parser's tables read a letter `a..h` as `7 - (letter - 'a')` and a digit `1..8` as `digit - 1`; anything else is -1. */
  lemma ParserTables(c: char)
    ensures IndexOf(ChessLetters, Some(c)) == if 'a' <= c <= 'h' then 7 - (c as int - 'a' as int) else -1
    ensures IndexOf(ChessNumbers, Some(c)) == if '1' <= c <= '8' then c as int - '1' as int else -1
  {
    forall k | 0 <= k < 8
      ensures ChessLetters[k] as int == 'h' as int - k && ChessNumbers[k] as int == '1' as int + k
    {
      if k == 0 {} else if k == 1 {} else if k == 2 {} else if k == 3 {}
      else if k == 4 {} else if k == 5 {} else if k == 6 {} else {}
    }
    if 'a' <= c <= 'h' {
      FoundAt(ChessLetters, 'h' as int - c as int, c);
    }
    if '1' <= c <= '8' {
      FoundAt(ChessNumbers, c as int - '1' as int, c);
    }
  }

  /** In a table whose entries are all distinct, looking up the entry at `i` gives `i`. */
  lemma FoundAt(table: string, i: int, c: char)
    requires 0 <= i < |table| && table[i] == c
    requires forall k :: 0 <= k < |table| && k != i ==> table[k] != c
    ensures IndexOf(table, Some(c)) == i
  {
  }

  /** The letter `'a' + i` and the digit `'1' + i`. */
  function FileLetter(i: int): char
    requires 0 <= i < 8
  {
    ('a' as int + i) as char
  }

  function RankDigit(i: int): char
    requires 0 <= i < 8
  {
    ('1' as int + i) as char
  }

  /** The writer's tables print `i` as the letter `'a' + i` and as the digit `'8' - i`. */
  lemma WriterTables(i: int)
    requires 0 <= i < 8
    ensures LetterAt(i) == [FileLetter(i)] && NumberAt(i) == [RankDigit(7 - i)]
  {
    if i == 0 {} else if i == 1 {} else if i == 2 {} else if i == 3 {}
    else if i == 4 {} else if i == 5 {} else if i == 6 {} else {}
  }

  /** A square `ld` is read and written back as `'a' + (d - '1')` followed by `'1' + (l - 'a')`: the axes are swapped. */
  lemma SquareTransposed(l: char, d: char)
    requires 'a' <= l <= 'h' && '1' <= d <= '8'
    ensures LetterAt(IndexOf(ChessNumbers, Some(d))) == [FileLetter(d as int - '1' as int)]
    ensures NumberAt(IndexOf(ChessLetters, Some(l))) == [RankDigit(l as int - 'a' as int)]
  {
    ParserTables(l);
    ParserTables(d);
    WriterTables(d as int - '1' as int);
    WriterTables(7 - (l as int - 'a' as int));
  }

  /**
   * A move line `l1d1:l2d2` of valid squares becomes a move record that is
   * written back with both squares transposed; `e2:e4` is written `b5:d5`.
   */
  lemma MoveLineConverted(l1: char, d1: char, l2: char, d2: char)
    requires 'a' <= l1 <= 'h' && '1' <= d1 <= '8' && 'a' <= l2 <= 'h' && '1' <= d2 <= '8'
    ensures var step := DecodeLine([l1, d1, ':', l2, d2]);
      step.Emit? && step.record.MoveRecord?
      && Body(step.record) == [FileLetter(d1 as int - '1' as int), RankDigit(l1 as int - 'a' as int), ':',
                               FileLetter(d2 as int - '1' as int), RankDigit(l2 as int - 'a' as int)]
  {
    var line := [l1, d1, ':', l2, d2];
    assert line == [l1, d1] + [':'] + [l2, d2];
    SplitAfterPiece([l1, d1], [l2, d2], ':');
    SplitNoSeparator([l2, d2], ':');
    assert Split(line, ':') == [[l1, d1], [l2, d2]];
    assert !StartsWith(line, "*") && !StartsWith(line, "-") && !StartsWith(line, "put:") by {
      assert line[0] != '*' && line[0] != '-' && line[0] != 'p';
    }
    var record := MoveRecord(IndexOf(ChessLetters, Some(l1)), IndexOf(ChessNumbers, Some(d1)),
                             IndexOf(ChessLetters, Some(l2)), IndexOf(ChessNumbers, Some(d2)));
    assert DecodeLine(line) == Emit(record);
    SquareTransposed(l1, d1);
    SquareTransposed(l2, d2);
  }

  /** The text of a `put:` line: `put:`, the name, the colour and the square, each after one space. */
  function PutLine(name: string, color: string, square: string): string
  {
    "put:" + " " + (name + " " + (color + " " + square))
  }

  /** The tokens of a `put:` line are `put:`, the name, the colour and the square. */
  lemma PutLineTokens(name: string, color: string, square: string)
    requires Word(name) && Word(color) && Word(square)
    ensures Tokens(PutLine(name, color, square)) == ["put:", name, color, square]
  {
    PairTokens(color, square);
    PutKeywordWord();
    WordsBeforeTokens("put:", name, color + " " + square, [color, square]);
  }

  /** Two words joined by a space are the two tokens. */
  lemma PairTokens(w: string, v: string)
    requires Word(w) && Word(v)
    ensures Tokens(w + " " + v) == [w, v]
  {
    TokensOfWord(v);
    TokensAfterWord(w, v, [v]);
  }

  /** Two words, each followed by a space, in front of a text add the two words to its tokens. */
  lemma WordsBeforeTokens(w1: string, w2: string, t: string, ts: seq<string>)
    requires Word(w1) && Word(w2) && t != [] && !IsSpace(t[0]) && Tokens(t) == ts
    ensures Tokens(w1 + " " + (w2 + " " + t)) == [w1, w2] + ts
  {
    TokensAfterWord(w2, t, ts);
    var rest := w2 + " " + t;
    assert rest[0] == w2[0];
    TokensAfterWord(w1, rest, [w2] + ts);
    assert [w1] + ([w2] + ts) == [w1, w2] + ts;
  }

  /** The keyword of a `put:` line is a word. */
  lemma PutKeywordWord()
    ensures Word("put:")
  {
  }

  /**
   * A `put:` line `put: name color ld` with a valid square becomes a put
   * record of that name and colour at `y = 7 - (l - 'a')`, `x = d - '1'`.
   */
  lemma PutLineDecoded(name: string, color: string, l: char, d: char)
    requires Word(name) && Word(color) && 'a' <= l <= 'h' && '1' <= d <= '8'
    ensures DecodeLine(PutLine(name, color, [l, d]))
         == Emit(PutRecord(name, color, 7 - (l as int - 'a' as int), d as int - '1' as int))
  {
    var line := PutLine(name, color, [l, d]);
    PutLineStarts(name, color, [l, d]);
    PutBranch(line);
    SquareWord(l, d);
    PutLineTokens(name, color, [l, d]);
    PutTokensDecoded(name, color, l, d);
  }

  /** A square of a letter and a digit is a word. */
  lemma SquareWord(l: char, d: char)
    requires 'a' <= l <= 'h' && '1' <= d <= '8'
    ensures Word([l, d])
  {
  }

  /** A `put:` line starts with `put:`. */
  lemma PutLineStarts(name: string, color: string, square: string)
    ensures StartsWith(PutLine(name, color, square), "put:")
  {
    assert PutLine(name, color, square)[..4] == "put:";
  }

  /** The tokens `put:`, a name, a colour and a valid square `ld` decode to a put record at `y = 7 - (l - 'a')`, `x = d - '1'`. */
  lemma PutTokensDecoded(name: string, color: string, l: char, d: char)
    requires 'a' <= l <= 'h' && '1' <= d <= '8'
    ensures DecodePut(["put:", name, color, [l, d]])
         == Emit(PutRecord(name, color, 7 - (l as int - 'a' as int), d as int - '1' as int))
  {
    ParserTables(l);
    ParserTables(d);
  }

  /** A line that starts with `put:` is decoded from its whitespace tokens. */
  lemma PutBranch(line: string)
    requires StartsWith(line, "put:")
    ensures DecodeLine(line) == DecodePut(Tokens(line))
  {
    assert !StartsWith(line, "*") && !StartsWith(line, "-") by { assert line[0] == 'p'; }
  }

  /**
   * A `put:` line with a valid square is written back with its name and
   * colour and the square transposed.
   */
  lemma PutLineConverted(name: string, color: string, l: char, d: char)
    requires Word(name) && Word(color) && 'a' <= l <= 'h' && '1' <= d <= '8'
    ensures var step := DecodeLine(PutLine(name, color, [l, d]));
      step.Emit? && step.record.PutRecord?
      && Body(step.record) == "put: " + name + " " + color + " "
                              + [FileLetter(d as int - '1' as int), RankDigit(l as int - 'a' as int)]
  {
    PutLineDecoded(name, color, l, d);
    ParserTables(l);
    ParserTables(d);
    SquareTransposed(l, d);
  }
}
