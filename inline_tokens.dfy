/** The inline tokenizer of the `md_parser` crate: a single scan over the
    characters that emits one token per delimiter, resolves a backslash escape
    by overwriting the pending `Escape` token in place, turns `[` followed by
    `^` into `FootnoteOpen`, and coalesces ordinary characters into `Plain`
    runs. */
module InlineTokens {

  datatype InlineToken =
    | Escape
    | Star          // *
    | Quote         // `
    | SquareOpen    // [
    | SquareClose   // ]
    | CircleOpen    // (
    | CircleClose   // )
    | FootnoteOpen  // [^
    | Strike        // ~
    | Equal         // =
    | Plain(s: string)

  /** Characters that every tokenizer branch treats as plain text. */
  predicate IsOrdinary(c: char) {
    c != '\\' && c != '^' && !IsDelimiter(c)
  }

  /** Characters that push a token of their own when not escaped. */
  predicate IsDelimiter(c: char) {
    c == '*' || c == '`' || c == '[' || c == ']' || c == '(' || c == ')' || c == '~' || c == '='
  }

  function DelimiterToken(c: char): (t: InlineToken)
    requires IsDelimiter(c)
    ensures Surface(t) == [c]
  {
    if c == '*' then Star
    else if c == '`' then Quote
    else if c == '[' then SquareOpen
    else if c == ']' then SquareClose
    else if c == '(' then CircleOpen
    else if c == ')' then CircleClose
    else if c == '~' then Strike
    else Equal
  }

  /** The characters a token stands for in the input. */
  function Surface(t: InlineToken): string {
    match t
    case Escape => "\\"
    case Star => "*"
    case Quote => "`"
    case SquareOpen => "["
    case SquareClose => "]"
    case CircleOpen => "("
    case CircleClose => ")"
    case FootnoteOpen => "[^"
    case Strike => "~"
    case Equal => "="
    case Plain(s) => s
  }

  /** The concatenated surface text of a token sequence. */
  function Render(tokens: seq<InlineToken>): string {
    if tokens == [] then [] else Render(tokens[..|tokens| - 1]) + Surface(tokens[|tokens| - 1])
  }

  predicate EndsWith(tokens: seq<InlineToken>, t: InlineToken) {
    |tokens| > 0 && tokens[|tokens| - 1] == t
  }

  /** What one input character does to the tokens emitted so far. */
  function Step(tokens: seq<InlineToken>, ch: char): seq<InlineToken> {
    if EndsWith(tokens, Escape) then tokens[..|tokens| - 1] + [Plain([ch])]
    else if ch == '\\' then tokens + [Escape]
    else if IsDelimiter(ch) then tokens + [DelimiterToken(ch)]
    else if ch == '^' then
      if EndsWith(tokens, SquareOpen) then tokens[..|tokens| - 1] + [FootnoteOpen]
      else tokens + [Plain("^")]
    else if |tokens| > 0 && tokens[|tokens| - 1].Plain? then
      tokens[..|tokens| - 1] + [Plain(tokens[|tokens| - 1].s + [ch])]
    else tokens + [Plain([ch])]
  }

  /** The tokens emitted after scanning the first `n` characters of `data`:
      `Step` folded over them from the left. */
  function TokensAfter(data: string, n: nat): seq<InlineToken>
    requires n <= |data|
  {
    if n == 0 then [] else Step(TokensAfter(data, n - 1), data[n - 1])
  }

  /** One more character of the fold, from known tokens to known tokens. */
  lemma StepAfter(data: string, n: nat, before: seq<InlineToken>, after: seq<InlineToken>)
    requires 0 < n <= |data|
    requires TokensAfter(data, n - 1) == before && Step(before, data[n - 1]) == after
    ensures TokensAfter(data, n) == after
  {
  }

  /** The tokens of the whole input. */
  function Tokens(data: string): seq<InlineToken> {
    TokensAfter(data, |data|)
  }

  /** `tokenize`: the scan, growing the token vector by `push` and by
      overwriting its last element. */
  method Tokenize(data: string) returns (tokens: seq<InlineToken>)
    ensures tokens == Tokens(data)
  {
    tokens := [];
    for i := 0 to |data|
      invariant tokens == TokensAfter(data, i)
    {
      var ch := data[i];
      if |tokens| > 0 && tokens[|tokens| - 1] == Escape {
        // skip_if_escape!: every arm starts by replacing a pending Escape
        tokens := tokens[..|tokens| - 1] + [Plain([ch])];
      } else if ch == '\\' {
        tokens := tokens + [Escape];
      } else if ch == '*' {
        tokens := tokens + [Star];
      } else if ch == '`' {
        tokens := tokens + [Quote];
      } else if ch == '[' {
        tokens := tokens + [SquareOpen];
      } else if ch == ']' {
        tokens := tokens + [SquareClose];
      } else if ch == '(' {
        tokens := tokens + [CircleOpen];
      } else if ch == ')' {
        tokens := tokens + [CircleClose];
      } else if ch == '^' {
        if |tokens| > 0 && tokens[|tokens| - 1] == SquareOpen {
          tokens := tokens[..|tokens| - 1] + [FootnoteOpen];
        } else {
          tokens := tokens + [Plain("^")];
        }
      } else if ch == '~' {
        tokens := tokens + [Strike];
      } else if ch == '=' {
        tokens := tokens + [Equal];
      } else if |tokens| > 0 && tokens[|tokens| - 1].Plain? {
        tokens := tokens[..|tokens| - 1] + [Plain(tokens[|tokens| - 1].s + [ch])];
      } else {
        tokens := tokens + [Plain([ch])];
      }
    }
  }

  // ---------------------------------------------------------------------------
  // Properties of the token sequence

  /** Every `Plain` run is non-empty and an `Escape` can only be the last token. */
  predicate WellFormed(tokens: seq<InlineToken>) {
    (forall i | 0 <= i < |tokens| :: tokens[i].Plain? ==> tokens[i].s != []) &&
    (forall i | 0 <= i < |tokens| - 1 :: tokens[i] != Escape)
  }

  /** Number of backslashes at the end of `s`. */
  function TrailingBackslashes(s: string): nat {
    if s != [] && s[|s| - 1] == '\\' then 1 + TrailingBackslashes(s[..|s| - 1]) else 0
  }

  /** The tokens after `n` characters depend on those characters only. */
  lemma {:induction false} TokensAfterPrefix(a: string, b: string, n: nat)
    requires n <= |a| && n <= |b| && a[..n] == b[..n]
    ensures TokensAfter(a, n) == TokensAfter(b, n)
  {
    if n > 0 {
      assert a[n - 1] == a[..n][n - 1] == b[n - 1];
      assert a[..n - 1] == a[..n][..n - 1];
      assert b[..n - 1] == b[..n][..n - 1];
      TokensAfterPrefix(a, b, n - 1);
    }
  }

  /** Appending a character applies one `Step`. */
  lemma TokensSnoc(data: string, ch: char)
    ensures Tokens(data + [ch]) == Step(Tokens(data), ch)
  {
    TokensAfterPrefix(data + [ch], data, |data|);
  }

  lemma StepWellFormed(tokens: seq<InlineToken>, ch: char)
    requires WellFormed(tokens)
    ensures WellFormed(Step(tokens, ch))
    ensures |Step(tokens, ch)| <= |tokens| + 1
  {
  }

  /** Each character adds at most one token; runs are non-empty; an `Escape`
      is never followed by another token. */
  lemma {:induction false} TokensWellFormed(data: string)
    ensures WellFormed(Tokens(data))
    ensures |Tokens(data)| <= |data|
  {
    if data != [] {
      var p := data[..|data| - 1];
      TokensWellFormed(p);
      TokensSnoc(p, data[|data| - 1]);
      assert p + [data[|data| - 1]] == data;
      StepWellFormed(Tokens(p), data[|data| - 1]);
    }
  }

  /** The output ends in a pending `Escape` exactly when the input ends in an
      odd run of backslashes (so a lone trailing backslash stays as `Escape`). */
  lemma {:induction false} PendingEscape(data: string)
    ensures EndsWith(Tokens(data), Escape) <==> TrailingBackslashes(data) % 2 == 1
  {
    if data != [] {
      var p := data[..|data| - 1];
      PendingEscape(p);
      TokensSnoc(p, data[|data| - 1]);
      assert p + [data[|data| - 1]] == data;
    }
  }

  /** Any character after a pending escape, a backslash included, replaces the
      `Escape` with a `Plain` of its own; it is never merged into an earlier run. */
  lemma EscapedCharacter(data: string, ch: char)
    requires TrailingBackslashes(data) % 2 == 1
    ensures var t := Tokens(data);
      |t| > 0 && Tokens(data + [ch]) == t[..|t| - 1] + [Plain([ch])]
  {
    PendingEscape(data);
    TokensSnoc(data, ch);
  }

  /** An unescaped delimiter pushes exactly one token; nothing is merged. */
  lemma DelimiterPushesOne(data: string, ch: char)
    requires TrailingBackslashes(data) % 2 == 0 && IsDelimiter(ch)
    ensures Tokens(data + [ch]) == Tokens(data) + [DelimiterToken(ch)]
  {
    PendingEscape(data);
    TokensSnoc(data, ch);
  }

  /** An unescaped `^` turns a preceding `SquareOpen` into `FootnoteOpen`, and
      otherwise pushes a fresh `Plain("^")`. */
  lemma Caret(data: string)
    requires TrailingBackslashes(data) % 2 == 0
    ensures var t := Tokens(data);
      Tokens(data + "^") ==
        if EndsWith(t, SquareOpen) then t[..|t| - 1] + [FootnoteOpen] else t + [Plain("^")]
  {
    PendingEscape(data);
    assert data + "^" == data + ['^'];
    TokensSnoc(data, '^');
    assert !EndsWith(Tokens(data), Escape);
    assert Tokens(data + "^") == Step(Tokens(data), '^');
    var t := Tokens(data);
    assert !IsDelimiter('^');
    assert Step(t, '^') == if EndsWith(t, SquareOpen) then t[..|t| - 1] + [FootnoteOpen] else t + [Plain("^")];
  }

  /** Any other unescaped character extends a trailing `Plain` (whether that run
      began as an escaped character or not), or starts a new one. */
  lemma OrdinaryCharacter(data: string, ch: char)
    requires TrailingBackslashes(data) % 2 == 0
    requires IsOrdinary(ch)
    ensures var t := Tokens(data);
      Tokens(data + [ch]) ==
        if |t| > 0 && t[|t| - 1].Plain? then t[..|t| - 1] + [Plain(t[|t| - 1].s + [ch])]
        else t + [Plain([ch])]
  {
    PendingEscape(data);
    TokensSnoc(data, ch);
  }

  lemma RenderSnoc(tokens: seq<InlineToken>, t: InlineToken)
    ensures Render(tokens + [t]) == Render(tokens) + Surface(t)
  {
    assert (tokens + [t])[..|tokens|] == tokens;
  }

  /** Away from escapes, one step appends the character to the surface text. */
  lemma StepRender(tokens: seq<InlineToken>, ch: char)
    requires !EndsWith(tokens, Escape) && ch != '\\'
    ensures !EndsWith(Step(tokens, ch), Escape)
    ensures Render(Step(tokens, ch)) == Render(tokens) + [ch]
  {
    var n := |tokens|;
    if IsDelimiter(ch) {
      RenderSnoc(tokens, DelimiterToken(ch));
    } else if ch == '^' && EndsWith(tokens, SquareOpen) {
      // Render(tokens) unfolds to Render(tokens[..n - 1]) + "["
      RenderSnoc(tokens[..n - 1], FootnoteOpen);
      assert Render(tokens[..n - 1]) + "[" + ['^'] == Render(tokens[..n - 1]) + "[^";
    } else if ch == '^' {
      RenderSnoc(tokens, Plain("^"));
    } else if n > 0 && tokens[n - 1].Plain? {
      // Render(tokens) unfolds to Render(tokens[..n - 1]) + tokens[n - 1].s
      RenderSnoc(tokens[..n - 1], Plain(tokens[n - 1].s + [ch]));
    } else {
      RenderSnoc(tokens, Plain([ch]));
    }
  }

  /** Without backslashes, the tokens' surface text reproduces the input. */
  lemma {:induction false} RenderTokens(data: string)
    requires '\\' !in data
    ensures !EndsWith(Tokens(data), Escape)
    ensures Render(Tokens(data)) == data
  {
    if data != [] {
      var p, c := data[..|data| - 1], data[|data| - 1];
      assert data == p + [c];
      RenderTokens(p);
      TokensSnoc(p, c);
      StepRender(Tokens(p), c);
    }
  }
}
