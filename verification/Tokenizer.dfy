/**
  The split functions that cut a response body into tokens, and the scanner that applies one to
  whatever the reads have brought so far.
 */
module Tokenizer {
  import opened Strings
  import opened Wrappers

  /**
    A token goes up to `pattern`, of which it keeps the first `kept` characters; with `needsColon`
    that has to wait until a colon has been seen.
   */
  datatype Rule = Rule(pattern: string, kept: nat, needsColon: bool)

  const ANTHROPIC := Rule("\n", 0, false)
  const ZHIPU := Rule("\n\n", 0, true)
  const OLLAMA := Rule("}\n", 1, false)

  predicate WellFormed(rule: Rule) {
    rule.kept < |rule.pattern|
  }

  predicate At(s: string, pattern: string, i: int) {
    0 <= i <= |s| - |pattern| && s[i..i + |pattern|] == pattern
  }

  /** The first place of `pattern`, or -1. */
  function Index(s: string, pattern: string): (i: int)
    ensures i >= 0 ==> At(s, pattern, i)
    ensures forall j :: 0 <= j && (i < 0 || j < i) ==> !At(s, pattern, j)
    ensures i >= -1
  {
    FirstFrom(s, pattern, 0)
  }

  function FirstFrom(s: string, pattern: string, from: nat): (i: int)
    ensures i >= 0 ==> At(s, pattern, i) && from <= i
    ensures forall j :: from <= j && (i < 0 || j < i) ==> !At(s, pattern, j)
    ensures i >= -1
    decreases |s| - from
  {
    if from > |s| then -1 else if At(s, pattern, from) then from else FirstFrom(s, pattern, from + 1)
  }

  /** How many characters to go on, and the token, if there is one. */
  function SplitFunc(rule: Rule, data: string, atEOF: bool): (int, Option<string>)
    requires WellFormed(rule)
  {
    if atEOF && |data| == 0 then (0, None)
    else
      var i := Index(data, rule.pattern);
      if i >= 0 && (rule.needsColon ==> Index(data, ":") >= 0) then (i + |rule.pattern|, Some(data[..i + rule.kept]))
      else if atEOF then (|data|, Some(data))
      else (0, None)
  }

  /** Every call gives a token and goes on, or asks for more, or is at the end. */
  lemma SplitProgresses(rule: Rule, data: string, atEOF: bool)
    requires WellFormed(rule)
    ensures var (advance, token) := SplitFunc(rule, data, atEOF);
            if token.Some? then 0 < advance <= |data| && token.value <= data else advance == 0 && (atEOF ==> data == "")
  {
  }

  /** The tokens that the scanner gives, when `buffer` waits, `chunks` are to come, and then the end. */
  function Tokens(rule: Rule, buffer: string, chunks: seq<string>, atEOF: bool): seq<string>
    requires WellFormed(rule) && (atEOF ==> chunks == [])
    decreases |chunks|, !atEOF, |buffer|
  {
    var (advance, token) := if buffer != "" || atEOF then SplitFunc(rule, buffer, atEOF) else (0, None);
    if token.Some? then
      SplitProgresses(rule, buffer, atEOF);
      [token.value] + Tokens(rule, buffer[advance..], chunks, atEOF)
    else if atEOF then []
    else if chunks == [] then Tokens(rule, buffer, [], true)
    else Tokens(rule, buffer + chunks[0], chunks[1..], false)
  }

  /** The tokens of a stream that is there at once. */
  function Whole(rule: Rule, data: string): seq<string>
    requires WellFormed(rule)
  {
    Tokens(rule, data, [], true)
  }

  function Concat(chunks: seq<string>): string {
    if chunks == [] then "" else chunks[0] + Concat(chunks[1..])
  }

  /** What has been found stays found when more comes in. */
  lemma IndexStable(s: string, more: string, pattern: string)
    requires Index(s, pattern) >= 0
    ensures Index(s + more, pattern) == Index(s, pattern)
  {
    var i := Index(s, pattern);
    assert (s + more)[i..i + |pattern|] == s[i..i + |pattern|];
    assert At(s + more, pattern, i);
    forall j | 0 <= j < i ensures !At(s + more, pattern, j) {
      assert (s + more)[j..j + |pattern|] == s[j..j + |pattern|];
      assert !At(s, pattern, j);
    }
  }

  lemma TokenStable(rule: Rule, data: string, more: string, atEOF: bool)
    requires WellFormed(rule) && SplitFunc(rule, data, false).1.Some?
    ensures SplitFunc(rule, data + more, atEOF) == SplitFunc(rule, data, false)
  {
    IndexStable(data, more, rule.pattern);
    if rule.needsColon {
      IndexStable(data, more, ":");
    }
    var n := Index(data, rule.pattern) + rule.kept;
    assert (data + more)[..n] == data[..n];
  }

  /** The tokens do not depend on how the stream is cut into chunks. */
  lemma {:induction false} CutsDoNotMatter(rule: Rule, buffer: string, chunks: seq<string>, atEOF: bool)
    requires WellFormed(rule) && (atEOF ==> chunks == [])
    ensures Tokens(rule, buffer, chunks, atEOF) == Whole(rule, buffer + Concat(chunks))
    decreases |chunks|, !atEOF, |buffer|
  {
    hide SplitFunc;
    var rest := Concat(chunks);
    var (advance, token) := if buffer != "" || atEOF then SplitFunc(rule, buffer, atEOF) else (0, None);
    SplitProgresses(rule, buffer, atEOF);
    if atEOF {
      assert buffer + rest == buffer;
    } else if token.Some? {
      CutsDoNotMatter(rule, buffer[advance..], chunks, atEOF);
      TokenStable(rule, buffer, rest, true);
      assert (buffer + rest)[advance..] == buffer[advance..] + rest;
    } else if chunks == [] {
      assert buffer + rest == buffer;
    } else {
      CutsDoNotMatter(rule, buffer + chunks[0], chunks[1..], false);
      assert (buffer + chunks[0]) + Concat(chunks[1..]) == buffer + rest;
    }
  }

  // ---- What the tokens are ----

  /** What a token leaves out of the pattern after it. */
  function Dropped(rule: Rule): string
    requires WellFormed(rule)
  {
    rule.pattern[rule.kept..]
  }

  /** No token but the last has the pattern in it, and the last has it only for want of a colon. */
  ghost predicate Cut(rule: Rule, tokens: seq<string>) {
    forall i :: 0 <= i < |tokens| ==>
      (forall j :: !At(tokens[i], rule.pattern, j)) || (i == |tokens| - 1 && rule.needsColon && ':' !in tokens[i])
  }

  /** The tokens give back the stream, but for what is dropped after the last one. */
  lemma {:induction false} TokensReassemble(rule: Rule, data: string)
    requires WellFormed(rule)
    ensures Join(Whole(rule, data), Dropped(rule)) == data
            || Join(Whole(rule, data), Dropped(rule)) + Dropped(rule) == data
    ensures Cut(rule, Whole(rule, data))
    decreases |data|
  {
    if data != "" {
      hide SplitFunc, At;
      var (advance, token) := SplitFunc(rule, data, true);
      SplitProgresses(rule, data, true);
      TokensReassemble(rule, data[advance..]);
      var rest := Whole(rule, data[advance..]);
      var tokens := Whole(rule, data);
      assert tokens == [token.value] + rest && tokens[1..] == rest;
      FirstTokenCut(rule, data);
      CutNext(rule, token.value, rest);
      hide Cut;
      if advance < |data| {
        assert rest != [];
      } else {
        assert data[advance..] == "" && rest == [];
      }
    }
  }

  lemma CutNext(rule: Rule, token: string, rest: seq<string>)
    requires Cut(rule, rest)
    requires (forall j :: !At(token, rule.pattern, j)) || (rest == [] && rule.needsColon && ':' !in token)
    ensures Cut(rule, [token] + rest)
  {
    hide At;
    var tokens := [token] + rest;
    forall i | 0 <= i < |tokens|
      ensures (forall j :: !At(tokens[i], rule.pattern, j)) || (i == |tokens| - 1 && rule.needsColon && ':' !in tokens[i])
    {
      if i > 0 {
        assert tokens[i] == rest[i - 1];
      }
    }
  }

  lemma FirstTokenCut(rule: Rule, data: string)
    requires WellFormed(rule) && data != ""
    ensures var (advance, token) := SplitFunc(rule, data, true);
            && token.Some?
            && (data == token.value + Dropped(rule) + data[advance..] || (data == token.value && advance == |data|))
            && ((forall j :: !At(token.value, rule.pattern, j)) || (advance == |data| && rule.needsColon && ':' !in token.value))
  {
    hide Index, At, Dropped;
    var i := Index(data, rule.pattern);
    FirstPlace(data, rule.pattern);
    if i >= 0 && (rule.needsColon ==> Index(data, ":") >= 0) {
      NoneWithin(data, rule, i);
      DropSplits(data, rule, i);
    } else if i >= 0 {
      NoColon(data);
    }
  }

  /** What `Index` finds is a place of the pattern, and there is none before it. */
  lemma FirstPlace(s: string, pattern: string)
    ensures var i := Index(s, pattern);
            && (i >= 0 ==> At(s, pattern, i))
            && forall j :: 0 <= j && (i < 0 || j < i) ==> !At(s, pattern, j)
    ensures Index(s, pattern) < 0 ==> forall j :: !At(s, pattern, j)
  {
  }

  lemma NoneWithin(data: string, rule: Rule, i: int)
    requires WellFormed(rule) && At(data, rule.pattern, i) && forall j :: 0 <= j < i ==> !At(data, rule.pattern, j)
    ensures var token := data[..i + rule.kept]; forall j :: !At(token, rule.pattern, j)
  {
    var token := data[..i + rule.kept];
    forall j ensures !At(token, rule.pattern, j) {
      if 0 <= j <= |token| - |rule.pattern| {
        assert token[j..j + |rule.pattern|] == data[j..j + |rule.pattern|];
        assert !At(data, rule.pattern, j);
      }
    }
  }

  lemma NoColon(data: string)
    requires Index(data, ":") < 0
    ensures ':' !in data
  {
    forall j | 0 <= j < |data| ensures data[j] != ':' {
      assert !At(data, ":", j) && data[j..j + 1] == [data[j]];
    }
  }

  lemma SliceOfSlice(s: string, i: nat, m: nat, k: nat)
    requires i + k <= m <= |s|
    ensures s[i..m][k..] == s[i + k..m]
  {
    forall j | 0 <= j < m - i - k ensures s[i..m][k..][j] == s[i + k..m][j] {
      assert s[i..m][k..][j] == s[i..m][k + j] == s[i + k + j];
    }
  }

  lemma ThreeParts(s: string, n: nat, m: nat)
    requires n <= m <= |s|
    ensures s == s[..n] + s[n..m] + s[m..]
  {
  }

  lemma DropSplits(data: string, rule: Rule, i: int)
    requires WellFormed(rule) && At(data, rule.pattern, i)
    ensures data == data[..i + rule.kept] + Dropped(rule) + data[i + |rule.pattern|..]
  {
    SliceOfSlice(data, i, i + |rule.pattern|, rule.kept);
    ThreeParts(data, i + rule.kept, i + |rule.pattern|);
  }

  /** The tokens of a Claude stream are its lines, but for an empty one at the end. */
  lemma {:induction false} TokensAreLines(data: string)
    ensures Split(data, '\n')
            == Whole(ANTHROPIC, data) + if data == "" || data[|data| - 1] == '\n' then [""] else []
    decreases |data|
  {
    if data != "" {
      FirstLineFound(data);
      FirstOfWhole(data);
      var i := Index(data, "\n");
      hide Index, Split, At, Whole, Tokens, SplitFunc;
      if i >= 0 {
        var (line, rest) := (data[..i], data[i + 1..]);
        SplitFirst(line, rest, '\n');
        TokensAreLines(rest);
        assert data[|data| - 1] == if rest == "" then '\n' else rest[|rest| - 1];
        var tail := if data[|data| - 1] == '\n' then [""] else [];
        assert [line] + (Whole(ANTHROPIC, rest) + tail) == [line] + Whole(ANTHROPIC, rest) + tail;
      } else {
        SplitFirst(data, "", '\n');
      }
    }
  }

  lemma FirstOfWhole(data: string)
    requires data != ""
    ensures var i := Index(data, "\n");
            Whole(ANTHROPIC, data) == if i >= 0 then [data[..i]] + Whole(ANTHROPIC, data[i + 1..]) else [data]
  {
    assert data[|data|..] == "" && Whole(ANTHROPIC, data[|data|..]) == [];
  }

  lemma FirstLineFound(data: string)
    requires data != ""
    ensures var i := Index(data, "\n");
            if i >= 0 then i < |data| && '\n' !in data[..i] && data == data[..i] + ['\n'] + data[i + 1..] else '\n' !in data
    ensures Index(data, "\n") == |data| - 1 ==> data[|data| - 1] == '\n'
  {
    var i := Index(data, "\n");
    forall j | 0 <= j < |data| && (i < 0 || j < i) ensures data[j] != '\n' {
      assert !At(data, "\n", j) && data[j..j + 1] == [data[j]];
    }
    if i >= 0 {
      assert data[i..i + 1] == [data[i]];
    }
  }

  /** The rules of the three stream handlers. */
  const RULES := [ANTHROPIC, ZHIPU, OLLAMA]

  function LineEnds(rule: Rule): string {
    if rule == ZHIPU then "\n\n" else "\n"
  }

  /** Each split function, on every way to cut a stream: always the same tokens, which give it back. */
  lemma SplitFunctionsAgree(rule: Rule, chunks: seq<string>)
    requires rule in RULES
    ensures WellFormed(rule)
    ensures var (tokens, data, ends) := (Tokens(rule, "", chunks, false), Concat(chunks), LineEnds(rule));
            && tokens == Whole(rule, data) && Cut(rule, tokens)
            && (Join(tokens, ends) == data || Join(tokens, ends) + ends == data)
  {
    assert WellFormed(rule) && Dropped(rule) == LineEnds(rule) by {
      assert OLLAMA.pattern[1..] == "\n";
    }
    hide Tokens, Whole, Cut, Join;
    CutsDoNotMatter(rule, "", chunks, false);
    assert "" + Concat(chunks) == Concat(chunks);
    TokensReassemble(rule, Concat(chunks));
  }

  /** Every Ollama token but the last ends with a closing brace, which it keeps. */
  lemma {:induction false} TokensAreObjects(data: string)
    ensures var tokens := Whole(OLLAMA, data);
            forall i :: 0 <= i < |tokens| - 1 ==> tokens[i] != "" && tokens[i][|tokens[i]| - 1] == '}'
    decreases |data|
  {
    if data != "" {
      SplitProgresses(OLLAMA, data, true);
      var (advance, token) := SplitFunc(OLLAMA, data, true);
      var rest := Whole(OLLAMA, data[advance..]);
      TokensAreObjects(data[advance..]);
      FirstObject(data);
      hide SplitFunc;
      assert Whole(OLLAMA, data) == [token.value] + rest;
    }
  }

  lemma FirstObject(data: string)
    requires data != ""
    ensures var (advance, token) := SplitFunc(OLLAMA, data, true);
            && token.Some? && 0 < advance <= |data|
            && (Whole(OLLAMA, data[advance..]) != [] ==> token.value != "" && token.value[|token.value| - 1] == '}')
  {
    var i := Index(data, "}\n");
    if i >= 0 {
      assert data[i..i + 2][0] == '}';
    } else {
      assert data[|data|..] == "";
    }
  }

  /** A Zhipu stream is cut at blank lines for just as long as a colon is still to come. */
  lemma {:induction false} CutWhileColonAhead(data: string)
    ensures var tokens := Whole(ZHIPU, data);
            forall i :: 0 <= i < |tokens| - 1 ==> ':' in Join(tokens[i..], "\n\n")
    decreases |data|
  {
    if data != "" {
      var (advance, token) := SplitFunc(ZHIPU, data, true);
      SplitProgresses(ZHIPU, data, true);
      var (tokens, rest) := (Whole(ZHIPU, data), Whole(ZHIPU, data[advance..]));
      CutWhileColonAhead(data[advance..]);
      ColonInFirst(data);
      hide SplitFunc;
      assert tokens == [token.value] + rest;
      hide Whole, Join;
      forall i | 0 <= i < |tokens| - 1 ensures ':' in Join(tokens[i..], "\n\n") {
        if i == 0 {
          assert tokens[0..] == tokens;
        } else {
          assert tokens[i..] == rest[i - 1..];
        }
      }
    }
  }

  lemma ColonInFirst(data: string)
    requires data != ""
    ensures |Whole(ZHIPU, data)| > 1 ==> ':' in Join(Whole(ZHIPU, data), "\n\n")
  {
    TokensReassemble(ZHIPU, data);
    var joined := Join(Whole(ZHIPU, data), "\n\n");
    assert Dropped(ZHIPU) == "\n\n";
    var c := Index(data, ":");
    if c >= 0 {
      assert data[c..c + 1] == [data[c]];
      assert data == joined || data == joined + "\n\n";
      assert ':' in data && ':' !in "\n\n";
    } else {
      assert data[|data|..] == "" && Whole(ZHIPU, data[|data|..]) == [];
    }
  }

  /** No Ollama token has a closing brace before a newline in it. */
  lemma OllamaTokensUnbroken(data: string)
    ensures forall token :: token in Whole(OLLAMA, data) ==>
              forall j :: 0 <= j < |token| - 1 ==> !(token[j] == '}' && token[j + 1] == '\n')
  {
    TokensReassemble(OLLAMA, data);
    var tokens := Whole(OLLAMA, data);
    forall token, j | token in tokens && 0 <= j < |token| - 1 ensures !(token[j] == '}' && token[j + 1] == '\n') {
      var i :| 0 <= i < |tokens| && tokens[i] == token;
      assert !At(token, "}\n", j);
      assert token[j..j + 2] == [token[j], token[j + 1]];
    }
  }

  /** No Zhipu token has a blank line in it but the last, and that only for want of a colon. */
  lemma ZhipuTokensUnbroken(data: string)
    ensures var tokens := Whole(ZHIPU, data);
            forall i :: 0 <= i < |tokens| && (i < |tokens| - 1 || ':' in tokens[i]) ==>
              forall j :: 0 <= j < |tokens[i]| - 1 ==> !(tokens[i][j] == '\n' && tokens[i][j + 1] == '\n')
  {
    TokensReassemble(ZHIPU, data);
    var tokens := Whole(ZHIPU, data);
    forall i, j | 0 <= i < |tokens| && (i < |tokens| - 1 || ':' in tokens[i]) && 0 <= j < |tokens[i]| - 1
      ensures !(tokens[i][j] == '\n' && tokens[i][j + 1] == '\n')
    {
      var token := tokens[i];
      assert !At(token, "\n\n", j);
      assert token[j..j + 2] == [token[j], token[j + 1]];
    }
  }
}
