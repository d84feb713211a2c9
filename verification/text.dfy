/**
 * The string operations the log converter relies on, with the meaning they
 * have in JavaScript: `split` on one character, `trim`, `split(/\s+/)`,
 * `startsWith`, `indexOf` on a table of characters, and reading one character
 * of a string (which may be `undefined`).
 *
 * Whitespace is the ASCII set `\s` matches: space, tab, line feed, vertical
 * tab, form feed and carriage return.
 */
module Text {
  import opened Wrappers

  predicate IsSpace(c: char)
  {
    c == ' ' || c == '\t' || c == '\n' || c == '\U{0B}' || c == '\U{0C}' || c == '\r'
  }

  function Reverse<T>(s: seq<T>): (r: seq<T>)
    ensures |r| == |s|
    ensures forall k :: 0 <= k < |s| ==> r[k] == s[|s| - 1 - k]
  {
    if s == [] then [] else Reverse(s[1..]) + [s[0]]
  }

  predicate StartsWith(s: string, prefix: string)
  {
    |prefix| <= |s| && s[..|prefix|] == prefix
  }

  /** `s[i]`: the character, or `undefined` past the end. */
  function CharAt(s: string, i: nat): (r: Option<char>)
    ensures r.Some? <==> i < |s|
    ensures r.Some? ==> r.value == s[i]
  {
    if i < |s| then Some(s[i]) else None
  }

  /** `table.indexOf(c)` on an array of characters: the first position holding `c`, or -1. */
  function IndexOf(table: string, c: Option<char>): (r: int)
    ensures -1 <= r < |table|
    ensures r >= 0 ==> c == Some(table[r]) && forall k :: 0 <= k < r ==> c != Some(table[k])
    ensures r == -1 ==> forall k :: 0 <= k < |table| ==> c != Some(table[k])
  {
    if c.None? || table == [] then -1
    else if table[0] == c.value then 0
    else
      var i := IndexOf(table[1..], c);
      if i == -1 then -1 else i + 1
  }

  /** The number of occurrences of `c` in `s`. */
  function Count(s: string, c: char): nat
  {
    if s == [] then 0 else (if s[0] == c then 1 else 0) + Count(s[1..], c)
  }

  // ---------------------------------------------------------------- split on one character

  /** `s.split(sep)`: the pieces between occurrences of `sep`; there is always at least one. */
  function Split(s: string, sep: char): (r: seq<string>)
    ensures |r| == Count(s, sep) + 1
    ensures forall p, c :: p in r && c in p ==> c != sep && c in s
  {
    if s == [] then [""]
    else
      var rest := Split(s[1..], sep);
      if s[0] == sep then [""] + rest
      else [[s[0]] + rest[0]] + rest[1..]
  }

  /** `pieces.join(sep)`. */
  function Join(pieces: seq<string>, sep: char): string
  {
    if pieces == [] then ""
    else if |pieces| == 1 then pieces[0]
    else pieces[0] + [sep] + Join(pieces[1..], sep)
  }

  /** Joining the pieces of a split gives back the string. */
  lemma {:induction false} JoinSplit(s: string, sep: char)
    ensures Join(Split(s, sep), sep) == s
  {
    if s != [] {
      var rest := Split(s[1..], sep);
      JoinSplit(s[1..], sep);
      if s[0] != sep && |rest| > 1 {
        assert Split(s, sep)[1..] == rest[1..];
      }
    }
  }

  /** Splitting `p + [sep] + t`, where `p` has no `sep`, gives `p` and then the pieces of `t`. */
  lemma {:induction false} SplitAfterPiece(p: string, t: string, sep: char)
    requires sep !in p
    ensures Split(p + [sep] + t, sep) == [p] + Split(t, sep)
  {
    if p != [] {
      assert p[0] in p && sep !in p[1..];
      SplitAfterPiece(p[1..], t, sep);
      SplitCons(p[0], p[1..] + [sep] + t, sep);
      assert [p[0]] + (p[1..] + [sep] + t) == p + [sep] + t;
      assert [p[0]] + p[1..] == p;
    } else {
      assert (p + [sep] + t)[1..] == t;
    }
  }

  /** A character other than `sep` in front of `s` joins the first piece. */
  lemma SplitCons(c: char, s: string, sep: char)
    requires c != sep
    ensures Split([c] + s, sep) == [[c] + Split(s, sep)[0]] + Split(s, sep)[1..]
  {
    assert ([c] + s)[0] == c && ([c] + s)[1..] == s;
  }

  /** Splitting a join of pieces free of `sep` gives back the pieces. */
  lemma {:induction false} SplitJoin(pieces: seq<string>, sep: char)
    requires |pieces| >= 1
    requires forall k :: 0 <= k < |pieces| ==> sep !in pieces[k]
    ensures Split(Join(pieces, sep), sep) == pieces
  {
    if |pieces| == 1 {
      SplitNoSeparator(pieces[0], sep);
    } else {
      SplitJoin(pieces[1..], sep);
      SplitAfterPiece(pieces[0], Join(pieces[1..], sep), sep);
    }
  }

  /** A string without `sep` splits into itself. */
  lemma {:induction false} SplitNoSeparator(s: string, sep: char)
    requires sep !in s
    ensures Split(s, sep) == [s]
  {
    if s != [] {
      assert s[0] in s && sep !in s[1..];
      SplitNoSeparator(s[1..], sep);
      assert [s[0]] + s[1..] == s;
    }
  }

  // ---------------------------------------------------------------- trim

  /** Drops the leading whitespace. */
  function TrimStart(s: string): (r: string)
    ensures |r| <= |s| && r == s[|s| - |r|..]
    ensures forall k :: 0 <= k < |s| - |r| ==> IsSpace(s[k])
    ensures r != [] ==> !IsSpace(r[0])
  {
    if s != [] && IsSpace(s[0]) then TrimStart(s[1..]) else s
  }

  /** Drops the trailing whitespace. */
  function TrimEnd(s: string): (r: string)
    ensures |r| <= |s| && r == s[..|r|]
    ensures forall k :: |r| <= k < |s| ==> IsSpace(s[k])
    ensures r != [] ==> !IsSpace(r[|r| - 1])
  {
    if s != [] && IsSpace(s[|s| - 1]) then TrimEnd(s[..|s| - 1]) else s
  }

  /**
   * `s.trim()`: `s` without its leading and trailing whitespace. The result
   * is empty exactly when `s` is all whitespace, and otherwise starts and
   * ends with a character that is not whitespace.
   */
  function Trim(s: string): (r: string)
    ensures r == [] <==> forall k :: 0 <= k < |s| ==> IsSpace(s[k])
    ensures r != [] ==> !IsSpace(r[0]) && !IsSpace(r[|r| - 1])
  {
    TrimEnd(TrimStart(s))
  }

  /** Trimming keeps only characters of `s`. */
  lemma TrimKeeps(s: string)
    ensures forall c :: c in Trim(s) ==> c in s
  {
    var t := TrimStart(s);
    assert forall c :: c in TrimEnd(t) ==> c in t;
    assert forall c :: c in t ==> c in s;
  }

  /** Trimming twice is trimming once. */
  lemma TrimIdempotent(s: string)
    ensures Trim(Trim(s)) == Trim(s)
  {
    var r := Trim(s);
    if r != [] {
      assert TrimStart(r) == r;
      assert TrimEnd(r) == r;
    }
  }

  // ---------------------------------------------------------------- split on whitespace runs

  /** The position of the first whitespace character, or `|s|`. */
  function FirstSpace(s: string): (i: nat)
    ensures i <= |s|
    ensures forall k :: 0 <= k < i ==> !IsSpace(s[k])
    ensures i < |s| ==> IsSpace(s[i])
  {
    if s == [] || IsSpace(s[0]) then 0 else 1 + FirstSpace(s[1..])
  }

  /**
   * `s.split(/\s+/)`: the pieces between maximal runs of whitespace. A
   * leading or trailing run gives an empty first or last piece.
   */
  function Tokens(s: string): (r: seq<string>)
    decreases |s|
    ensures |r| >= 1
    ensures forall p, c :: p in r && c in p ==> !IsSpace(c)
  {
    var i := FirstSpace(s);
    if i == |s| then [s]
    else [s[..i]] + Tokens(TrimStart(s[i..]))
  }

  /** Every character of a token comes from the string. */
  lemma {:induction false} TokensKeep(s: string)
    decreases |s|
    ensures forall p, c :: p in Tokens(s) && c in p ==> c in s
  {
    var i := FirstSpace(s);
    if i < |s| {
      TokensKeep(TrimStart(s[i..]));
      assert forall c :: c in TrimStart(s[i..]) ==> c in s;
    }
  }

  /**
   * A whitespace-free (possibly empty) word, a nonempty run of whitespace and
   * a text that does not start with whitespace split into the word and then
   * the tokens of the text. With `TokensOfWord` this fixes the tokens of
   * every string.
   */
  lemma {:induction false} TokensOfRun(w: string, sp: string, t: string)
    requires forall k :: 0 <= k < |w| ==> !IsSpace(w[k])
    requires sp != [] && forall k :: 0 <= k < |sp| ==> IsSpace(sp[k])
    requires t == [] || !IsSpace(t[0])
    ensures Tokens(w + sp + t) == [w] + Tokens(t)
  {
    var s := w + sp + t;
    assert s == w + (sp + t);
    FirstSpaceOfWord(w, sp + t);
    assert s[|w|..] == sp + t;
    TrimStartOfRun(sp, t);
    assert s[..|w|] == w;
  }

  /** A whitespace-free word that is not empty. */
  predicate Word(w: string)
  {
    w != [] && forall k :: 0 <= k < |w| ==> !IsSpace(w[k])
  }

  /** A word and a single space in front of a text that does not start with whitespace add the word to its tokens. */
  lemma TokensAfterWord(w: string, t: string, ts: seq<string>)
    requires Word(w) && t != [] && !IsSpace(t[0]) && Tokens(t) == ts
    ensures Tokens(w + " " + t) == [w] + ts
  {
    TokensOfRun(w, " ", t);
  }

  /** Trimming the start of a whitespace run followed by a text that does not start with whitespace leaves the text. */
  lemma {:induction false} TrimStartOfRun(sp: string, t: string)
    requires forall k :: 0 <= k < |sp| ==> IsSpace(sp[k])
    requires t == [] || !IsSpace(t[0])
    ensures TrimStart(sp + t) == t
  {
    if sp == [] {
      assert sp + t == t;
    } else {
      assert (sp + t)[1..] == sp[1..] + t;
      TrimStartOfRun(sp[1..], t);
    }
  }

  /** The first whitespace after a word is the one right after it. */
  lemma {:induction false} FirstSpaceOfWord(w: string, t: string)
    requires forall k :: 0 <= k < |w| ==> !IsSpace(w[k])
    requires t != [] && IsSpace(t[0])
    ensures FirstSpace(w + t) == |w|
  {
    if w != [] {
      assert (w + t)[1..] == w[1..] + t;
      FirstSpaceOfWord(w[1..], t);
    } else {
      assert w + t == t;
    }
  }

  /** A word without whitespace is its only token. */
  lemma TokensOfWord(w: string)
    requires forall k :: 0 <= k < |w| ==> !IsSpace(w[k])
    ensures Tokens(w) == [w]
  {
  }
}
