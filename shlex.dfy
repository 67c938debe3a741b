/**
 * `shlex.split(s)`: POSIX-mode lexing with whitespace splitting and no
 * comments, as Python's shlex module does it. Whitespace separates tokens;
 * single quotes take everything literally; double quotes let a backslash
 * escape only '\' and '"'; outside quotes a backslash escapes any character.
 * An unbalanced quote or a trailing backslash raises ValueError.
 */
module Shlex {
  import opened PyValues

  datatype State = Blank | Word | Quote(q: char) | Escape(inDouble: bool)

  /** The lexer's configuration: state, token so far, whether it was quoted, tokens emitted. */
  datatype Config = Config(st: State, tok: string, quoted: bool, acc: seq<string>)

  const Start := Config(Blank, "", false, [])

  predicate IsSpace(c: char) {
    c == ' ' || c == '\t' || c == '\r' || c == '\n'
  }

  predicate IsQuote(c: char) {
    c == '\'' || c == '"'
  }

  /** The token read so far is emitted if it has characters or was quoted. */
  function Emit(acc: seq<string>, tok: string, quoted: bool): seq<string> {
    if tok != "" || quoted then acc + [tok] else acc
  }

  /** One character of input. */
  function Step(c: Config, ch: char): Config {
    match c.st
    case Blank =>
      if IsSpace(ch) then Config(Blank, "", false, c.acc)
      else if ch == '\\' then c.(st := Escape(false))
      else if IsQuote(ch) then c.(st := Quote(ch), quoted := true)
      else c.(st := Word, tok := [ch])
    case Word =>
      if IsSpace(ch) then Config(Blank, "", false, Emit(c.acc, c.tok, c.quoted))
      else if IsQuote(ch) then c.(st := Quote(ch), quoted := true)
      else if ch == '\\' then c.(st := Escape(false))
      else c.(tok := c.tok + [ch])
    case Quote(q) =>
      if ch == q then c.(st := Word)
      else if q == '"' && ch == '\\' then c.(st := Escape(true))
      else c.(tok := c.tok + [ch])
    case Escape(inDouble) =>
      var kept := if inDouble && ch != '\\' && ch != '"' then "\\" else "";
      c.(st := if inDouble then Quote('"') else Word, tok := c.tok + kept + [ch])
  }

  /** End of input. */
  function Finish(c: Config): Outcome<seq<string>> {
    match c.st
    case Blank => Ok(c.acc)
    case Word => Ok(Emit(c.acc, c.tok, c.quoted))
    case Quote(_) => Raise(ValueError("No closing quotation"))
    case Escape(_) => Raise(ValueError("No escaped character"))
  }

  /** The lexer run over `s[i..]`. */
  function Lex(s: string, i: nat, c: Config): Outcome<seq<string>>
    requires i <= |s|
    decreases |s| - i
  {
    if i == |s| then Finish(c) else Lex(s, i + 1, Step(c, s[i]))
  }

  /** `shlex.split(s)` */
  function Split(s: string): Outcome<seq<string>> {
    Lex(s, 0, Start)
  }

  /** The lexer only ever fails with a ValueError. */
  lemma {:induction false} LexRaisesValueError(s: string, i: nat, c: Config)
    requires i <= |s|
    ensures Lex(s, i, c).Raise? ==> Lex(s, i, c).exc.ValueError?
    decreases |s| - i
  {
    if i < |s| {
      LexRaisesValueError(s, i + 1, Step(c, s[i]));
    }
  }

  lemma SplitRaisesValueError(s: string)
    ensures Split(s).Raise? ==> Split(s).exc.ValueError?
  {
    LexRaisesValueError(s, 0, Start);
  }

  // ----- how the lexer composes

  /** The lexer reads only what is ahead of it. */
  lemma {:induction false} LexShift(p: string, b: string, j: nat, c: Config)
    requires j <= |b|
    ensures Lex(p + b, |p| + j, c) == Lex(b, j, c)
    decreases |b| - j
  {
    if j < |b| {
      assert (p + b)[|p| + j] == b[j];
      LexShift(p, b, j + 1, Step(c, b[j]));
    }
  }

  function Prefixed(pre: seq<string>, r: Outcome<seq<string>>): Outcome<seq<string>> {
    match r
    case Ok(ts) => Ok(pre + ts)
    case Raise(e) => Raise(e)
  }

  /** Tokens emitted earlier are carried along untouched. */
  lemma {:induction false} LexWithAcc(s: string, i: nat, c: Config, pre: seq<string>)
    requires i <= |s|
    ensures Lex(s, i, c.(acc := pre + c.acc)) == Prefixed(pre, Lex(s, i, c))
    decreases |s| - i
  {
    if i == |s| {
      if c.st.Word? && (c.tok != "" || c.quoted) {
        assert pre + c.acc + [c.tok] == pre + (c.acc + [c.tok]);
      }
    } else {
      var n := Step(c, s[i]);
      if c.st.Word? && IsSpace(s[i]) && (c.tok != "" || c.quoted) {
        assert pre + c.acc + [c.tok] == pre + (c.acc + [c.tok]);
      }
      assert Step(c.(acc := pre + c.acc), s[i]) == n.(acc := pre + n.acc);
      LexWithAcc(s, i + 1, n, pre);
    }
  }

  /** A run that completes on `a` continues after a space exactly as a fresh run on `b`. */
  lemma {:induction false} LexThroughSpace(a: string, b: string, i: nat, c: Config)
    requires i <= |a| && Lex(a, i, c).Ok?
    ensures Lex(a + " " + b, i, c) == Lex(b, 0, Start.(acc := Lex(a, i, c).value))
    decreases |a| - i
  {
    var s := a + " " + b;
    if i == |a| {
      assert s[i] == ' ';
      assert Step(c, ' ') == Start.(acc := Lex(a, i, c).value);
      assert s == (a + " ") + b;
      LexShift(a + " ", b, 0, Step(c, ' '));
    } else {
      assert s[i] == a[i];
      LexThroughSpace(a, b, i + 1, Step(c, a[i]));
    }
  }

  /** Space-separated pieces that each lex to completion lex to the concatenated tokens. */
  lemma SplitAppend(a: string, b: string)
    requires Split(a).Ok?
    ensures Split(a + " " + b) == Prefixed(Split(a).value, Split(b))
  {
    LexThroughSpace(a, b, 0, Start);
    LexWithAcc(b, 0, Start, Split(a).value);
    assert Start.(acc := Split(a).value + Start.acc) == Start.(acc := Split(a).value);
  }

  // ----- a reference splitter for input without quotes or backslashes (`str.split()`)

  predicate Plain(s: string) {
    forall k :: 0 <= k < |s| ==> !IsQuote(s[k]) && s[k] != '\\'
  }

  /** The leading run of non-whitespace characters. */
  function WordPrefix(s: string): (w: string)
    ensures |w| <= |s| && w == s[..|w|]
    ensures forall k :: 0 <= k < |w| ==> !IsSpace(w[k])
    ensures |w| < |s| ==> IsSpace(s[|w|])
  {
    if s == [] || IsSpace(s[0]) then "" else [s[0]] + WordPrefix(s[1..])
  }

  /** The whitespace-separated words of `s`. */
  function Words(s: string): (ws: seq<string>)
    ensures forall k :: 0 <= k < |ws| ==> ws[k] != "" && forall j :: 0 <= j < |ws[k]| ==> !IsSpace(ws[k][j])
    decreases |s|
  {
    if s == [] then []
    else if IsSpace(s[0]) then Words(s[1..])
    else
      var w := WordPrefix(s);
      [w] + Words(s[|w|..])
  }

  /** On plain input the lexer finds exactly the whitespace-separated words. */
  lemma PlainSplit(s: string)
    requires Plain(s)
    ensures Split(s) == Ok(Words(s))
  {
    LexBlank(s, 0, []);
    assert s[0..] == s;
    assert [] + Words(s) == Words(s);
  }

  lemma {:induction false} LexBlank(s: string, i: nat, acc: seq<string>)
    requires i <= |s| && Plain(s)
    ensures Lex(s, i, Config(Blank, "", false, acc)) == Ok(acc + Words(s[i..]))
    decreases |s| - i, 2
  {
    if i < |s| {
      assert s[i..][1..] == s[i + 1..];
      if IsSpace(s[i]) {
        LexBlank(s, i + 1, acc);
      } else {
        LexWord(s, i + 1, [s[i]], acc);
        var w := WordPrefix(s[i + 1..]);
        assert WordPrefix(s[i..]) == [s[i]] + w;
        assert s[i..][|[s[i]] + w|..] == s[i + 1 + |w|..];
        assert acc + [[s[i]] + w] + Words(s[i + 1 + |w|..]) == acc + ([[s[i]] + w] + Words(s[i + 1 + |w|..]));
      }
    } else {
      assert acc + [] == acc;
    }
  }

  lemma {:induction false} LexWord(s: string, i: nat, tok: string, acc: seq<string>)
    requires i <= |s| && Plain(s) && tok != ""
    ensures var w := WordPrefix(s[i..]);
            Lex(s, i, Config(Word, tok, false, acc)) == Ok(acc + [tok + w] + Words(s[i + |w|..]))
    decreases |s| - i, 1
  {
    if i == |s| {
      var w := WordPrefix(s[i..]);
      assert w == "" && tok + w == tok;
      assert s[i + |w|..] == [];
      assert Words(s[i + |w|..]) == [];
      assert acc + [tok + w] + [] == acc + [tok];
    } else if IsSpace(s[i]) {
      LexWordSpace(s, i, tok, acc);
    } else {
      LexWordChar(s, i, tok, acc);
    }
  }

  /** A word ends at whitespace and the lexer goes back to skipping blanks. */
  lemma {:induction false} LexWordSpace(s: string, i: nat, tok: string, acc: seq<string>)
    requires i < |s| && Plain(s) && tok != "" && IsSpace(s[i])
    ensures var w := WordPrefix(s[i..]);
            Lex(s, i, Config(Word, tok, false, acc)) == Ok(acc + [tok + w] + Words(s[i + |w|..]))
    decreases |s| - i, 0
  {
    var w := WordPrefix(s[i..]);
    assert s[i..][1..] == s[i + 1..];
    assert w == "";
    assert tok + w == tok;
    assert Step(Config(Word, tok, false, acc), s[i]) == Config(Blank, "", false, acc + [tok]);
    LexBlank(s, i + 1, acc + [tok]);
    assert Words(s[i..]) == Words(s[i + 1..]);
  }

  /** A character that is not whitespace extends the word. */
  lemma {:induction false} LexWordChar(s: string, i: nat, tok: string, acc: seq<string>)
    requires i < |s| && Plain(s) && tok != "" && !IsSpace(s[i])
    ensures var w := WordPrefix(s[i..]);
            Lex(s, i, Config(Word, tok, false, acc)) == Ok(acc + [tok + w] + Words(s[i + |w|..]))
    decreases |s| - i, 0
  {
    var w := WordPrefix(s[i..]);
    assert s[i..][1..] == s[i + 1..];
    assert !IsQuote(s[i]) && s[i] != '\\';
    assert Step(Config(Word, tok, false, acc), s[i]) == Config(Word, tok + [s[i]], false, acc);
    LexWord(s, i + 1, tok + [s[i]], acc);
    var w' := WordPrefix(s[i + 1..]);
    assert w == [s[i]] + w';
    assert tok + [s[i]] + w' == tok + w;
    assert i + 1 + |w'| == i + |w|;
  }

  /** An empty or all-whitespace string gives no tokens. */
  lemma {:induction false} BlankSplit(s: string)
    requires forall k :: 0 <= k < |s| ==> IsSpace(s[k])
    ensures Split(s) == Ok([])
  {
    PlainSplit(s);
    AllSpaceNoWords(s);
  }

  lemma {:induction false} AllSpaceNoWords(s: string)
    requires forall k :: 0 <= k < |s| ==> IsSpace(s[k])
    ensures Words(s) == []
    decreases |s|
  {
    if s != [] {
      AllSpaceNoWords(s[1..]);
    }
  }

  /** A non-empty word without whitespace, quotes or backslashes. */
  predicate PlainWord(w: string) {
    w != "" && Plain(w) && forall k :: 0 <= k < |w| ==> !IsSpace(w[k])
  }

  /** A word of ordinary characters is one token. */
  lemma SingleWord(w: string)
    requires PlainWord(w)
    ensures Split(w) == Ok([w])
  {
    PlainSplit(w);
    WordPrefixAll(w);
    assert !IsSpace(w[0]);
    assert w[|w|..] == [];
    assert Words(w) == [w] + Words([]);
    assert [w] + [] == [w];
  }

  lemma {:induction false} WordPrefixAll(w: string)
    requires forall k :: 0 <= k < |w| ==> !IsSpace(w[k])
    ensures WordPrefix(w) == w
  {
    if w != [] {
      WordPrefixAll(w[1..]);
      assert [w[0]] + w[1..] == w;
    }
  }

  /** Inside single quotes every character up to the closing quote is literal. */
  lemma {:induction false} SingleQuotedRun(s: string, i: nat, j: nat, c: Config)
    requires i <= j <= |s| && c.st == Quote('\'')
    requires forall k :: i <= k < j ==> s[k] != '\''
    ensures Lex(s, i, c) == Lex(s, j, c.(tok := c.tok + s[i..j]))
    decreases j - i
  {
    if i == j {
      assert c.tok + s[i..j] == c.tok;
      assert c.(tok := c.tok + s[i..j]) == c;
    } else {
      SingleQuotedRun(s, i + 1, j, c.(tok := c.tok + [s[i]]));
      assert c.tok + [s[i]] + s[i + 1..j] == c.tok + s[i..j];
    }
  }

  /** A single-quoted string is one token, quotes removed, even when empty or full of spaces. */
  lemma QuotedToken(q: string)
    requires '\'' !in q
    ensures Split("'" + q + "'") == Ok([q])
  {
    var s := "'" + q + "'";
    var c := Config(Quote('\''), "", true, []);
    assert Split(s) == Lex(s, 1, c);
    assert s[1..|s| - 1] == q;
    SingleQuotedRun(s, 1, |s| - 1, c);
    assert c.(tok := c.tok + s[1..|s| - 1]) == Config(Quote('\''), q, true, []);
    assert s[|s| - 1] == '\'';
    assert Step(Config(Quote('\''), q, true, []), '\'') == Config(Word, q, true, []);
    assert Lex(s, |s| - 1, Config(Quote('\''), q, true, [])) == Lex(s, |s|, Config(Word, q, true, []));
    assert [] + [q] == [q];
  }

  /** A plain word in front of a space adds one token in front. */
  lemma ConsWord(w: string, rest: string)
    requires PlainWord(w)
    ensures Split(w + " " + rest) == Prefixed([w], Split(rest))
  {
    SingleWord(w);
    SplitAppend(w, rest);
  }

  /**
   * A command line such as `uv run --with 'custom string' -BI`: plain words
   * with one single-quoted segment split into the words, the quoted segment
   * kept whole as one token.
   */
  lemma QuotedSegment(w1: string, w2: string, w3: string, q: string, w4: string)
    requires PlainWord(w1) && PlainWord(w2) && PlainWord(w3) && PlainWord(w4) && '\'' !in q
    ensures Split(w1 + " " + w2 + " " + w3 + " '" + q + "' " + w4) == Ok([w1, w2, w3, q, w4])
  {
    var quoted := "'" + q + "'";
    var tail := quoted + " " + w4;
    QuotedToken(q);
    SingleWord(w4);
    SplitAppend(quoted, w4);
    assert [q] + [w4] == [q, w4];
    assert Split(tail) == Ok([q, w4]);
    ConsWord(w3, tail);
    assert [w3] + [q, w4] == [w3, q, w4];
    assert Split(w3 + " " + tail) == Ok([w3, q, w4]);
    ConsWord(w2, w3 + " " + tail);
    assert [w2] + [w3, q, w4] == [w2, w3, q, w4];
    assert Split(w2 + " " + (w3 + " " + tail)) == Ok([w2, w3, q, w4]);
    assert [w1] + [w2, w3, q, w4] == [w1, w2, w3, q, w4];
    ConsWord(w1, w2 + " " + (w3 + " " + tail));
    assert w1 + " " + w2 + " " + w3 + " '" + q + "' " + w4 == w1 + " " + (w2 + " " + (w3 + " " + tail));
  }

  /** An unbalanced quote raises ValueError. */
  lemma UnbalancedQuoteExample()
    ensures Split("run 'x") == Raise(ValueError("No closing quotation"))
  {
  }
}
