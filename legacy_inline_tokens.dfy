/** The inline tokenizer of the older `src` tree: a left fold over the
    characters whose accumulator is updated by `push` or by rewriting its last
    element. Pairs of `*` and of `=` are folded into `DoubleStar` and
    `DoubleEqual`, `/` is the escape marker, and the `~` branch emits `Star`.
    The inline tree builder reads this token type. */
module LegacyInlineTokens {

  datatype InlineToken =
    | Escape
    | Star          // *
    | DoubleStar    // **
    | Quote         // `
    | SquareOpen    // [
    | SquareClose   // ]
    | CircleOpen    // (
    | CircleClose   // )
    | FootnoteOpen  // [^
    | Strike        // ~
    | DoubleStrike  // ~~
    | Equal         // =
    | DoubleEqual   // ==
    | Plain(s: string)

  predicate EndsWith(tokens: seq<InlineToken>, t: InlineToken) {
    |tokens| > 0 && tokens[|tokens| - 1] == t
  }

  /** Characters with a match arm of their own; every other character is text. */
  predicate IsSpecial(c: char) {
    c == '/' || c == '*' || c == '`' || c == '[' || c == ']' || c == '(' || c == ')' ||
    c == '^' || c == '~' || c == '='
  }

  /** The tokens with the last one replaced by `t`. */
  function SetLast(tokens: seq<InlineToken>, t: InlineToken): seq<InlineToken>
    requires |tokens| > 0
  {
    tokens[..|tokens| - 1] + [t]
  }

  datatype Option<T> = None | Some(value: T)

  /** The character each token spells, with `~` read as `*` (the `~` arm
      emits the tokens of `*`). */
  function Spelled(ch: char): char {
    if ch == '~' then '*' else ch
  }

  /** The token a match arm pushes when it does not rewrite the last one. */
  function Pushed(ch: char): InlineToken
  {
    if ch == '/' then Escape
    else if ch == '*' then Star
    else if ch == '`' then Quote
    else if ch == '[' then SquareOpen
    else if ch == ']' then SquareClose
    else if ch == '(' then CircleOpen
    else if ch == ')' then CircleClose
    else if ch == '^' then Plain("^")
    else if ch == '~' then Star
    else if ch == '=' then Equal
    else Plain([ch])
  }

  /** What a match arm rewrites the last token `last` into, if it does:
      `*` doubles a `Star`, `~` doubles a `Strike` into a `DoubleStar`, `=`
      doubles an `Equal`, `^` turns `[` into `[^`, and text extends `Plain`. */
  function Merged(last: InlineToken, ch: char): Option<InlineToken>
  {
    if ch == '*' && last == Star then Some(DoubleStar)
    else if ch == '^' && last == SquareOpen then Some(FootnoteOpen)
    else if ch == '~' && last == Strike then Some(DoubleStar)
    else if ch == '=' && last == Equal then Some(DoubleEqual)
    else if !IsSpecial(ch) && last.Plain? then Some(Plain(last.s + [ch]))
    else None
  }

  /** The tokens the arms produce never spell a strike, and spell the
      character read, `~` as `*`. */
  lemma ArmFacts(last: InlineToken, ch: char)
    ensures var t := Pushed(ch);
      Surface(t) == [Spelled(ch)] && t != Strike && t != DoubleStrike &&
      (t.Plain? ==> (ch == '^' || !IsSpecial(ch)) && t.s == [ch])
    ensures var r := Merged(last, ch);
      r.Some? ==> (r.value != Strike && r.value != DoubleStrike && r.value != Equal &&
        (last != Strike ==> Surface(r.value) == Surface(last) + [Spelled(ch)]) &&
        (r.value.Plain? ==> last.Plain? && |last.s| < |r.value.s| && r.value.s[..|last.s|] == last.s))
  { }

  /** What one character does to the accumulator of the fold: the match
      arm for `ch`, which pushes a token or rewrites the last one. */
  function Step(tokens: seq<InlineToken>, ch: char): seq<InlineToken> {
    if ch == '/' then tokens + [Escape]
    else if ch == '*' then
      if EndsWith(tokens, Star) then SetLast(tokens, DoubleStar) else tokens + [Star]
    else if ch == '`' then tokens + [Quote]
    else if ch == '[' then tokens + [SquareOpen]
    else if ch == ']' then tokens + [SquareClose]
    else if ch == '(' then tokens + [CircleOpen]
    else if ch == ')' then tokens + [CircleClose]
    else if ch == '^' then
      if EndsWith(tokens, SquareOpen) then SetLast(tokens, FootnoteOpen) else tokens + [Plain("^")]
    else if ch == '~' then
      if EndsWith(tokens, Strike) then SetLast(tokens, DoubleStar) else tokens + [Star]
    else if ch == '=' then
      if EndsWith(tokens, Equal) then SetLast(tokens, DoubleEqual) else tokens + [Equal]
    else if |tokens| > 0 && tokens[|tokens| - 1].Plain? then
      SetLast(tokens, Plain(tokens[|tokens| - 1].s + [ch]))
    else tokens + [Plain([ch])]
  }

  /** Every arm either rewrites the last token into `Merged(last, ch)` or
      pushes `Pushed(ch)`. */
  lemma StepShape(tokens: seq<InlineToken>, ch: char)
    ensures Step(tokens, ch) ==
      if |tokens| > 0 && Merged(tokens[|tokens| - 1], ch).Some? then
        SetLast(tokens, Merged(tokens[|tokens| - 1], ch).value)
      else tokens + [Pushed(ch)]
  { }

  /** The tokens after the first `n` characters: `Step` folded over them
      from `vec![]`, as `Iterator::fold` does. */
  function TokensAfter(data: string, n: nat): seq<InlineToken>
    requires n <= |data|
  {
    if n == 0 then [] else Step(TokensAfter(data, n - 1), data[n - 1])
  }

  /** One more character of the fold, from known tokens to known tokens. */
  lemma StepAfter(data: string, n: nat, before: seq<InlineToken>, after: seq<InlineToken>)
    requires 0 < n <= |data|
    requires TokensAfter(data, n - 1) == before && Step(before, data[n - 1]) == after
    ensures TokensAfter(data, n) == after
  { }

  /** The tokens of the whole input. */
  function Tokens(data: string): seq<InlineToken> {
    TokensAfter(data, |data|)
  }

  /** `tokenize`: the fold, with the accumulator updated in place. */
  method Tokenize(data: string) returns (tokens: seq<InlineToken>)
    ensures tokens == Tokens(data)
  {
    tokens := [];
    for i := 0 to |data|
      invariant tokens == TokensAfter(data, i)
    {
      var ch := data[i];
      var n := |tokens|;
      if ch == '/' {
        tokens := tokens + [Escape];
      } else if ch == '*' {
        if n > 0 && tokens[n - 1] == Star {
          tokens := tokens[..n - 1] + [DoubleStar];
        } else {
          tokens := tokens + [Star];
        }
      } else if ch == '`' {
        tokens := tokens + [Quote];
      } else if ch == '[' {
        tokens := tokens + [SquareOpen];
      } else if ch == ']' {
        tokens := tokens + [SquareClose];
      } else if ch == '(' {
        tokens := tokens + [CircleOpen];
      } else if ch == ')' {
        tokens := tokens + [CircleClose];
      } else if ch == '^' {
        if n > 0 && tokens[n - 1] == SquareOpen {
          tokens := tokens[..n - 1] + [FootnoteOpen];
        } else {
          tokens := tokens + [Plain("^")];
        }
      } else if ch == '~' {
        if n > 0 && tokens[n - 1] == Strike {
          tokens := tokens[..n - 1] + [DoubleStar];
        } else {
          tokens := tokens + [Star];
        }
      } else if ch == '=' {
        if n > 0 && tokens[n - 1] == Equal {
          tokens := tokens[..n - 1] + [DoubleEqual];
        } else {
          tokens := tokens + [Equal];
        }
      } else if n > 0 && tokens[n - 1].Plain? {
        tokens := tokens[..n - 1] + [Plain(tokens[n - 1].s + [ch])];
      } else {
        tokens := tokens + [Plain([ch])];
      }
    }
  }

  // ---------------------------------------------------------------------------
  // Folding in pieces
  //
  // These lemmas have the same shape as their namesakes in `InlineTokens`: the
  // two tokenizers fold different `Step` functions over different token types,
  // and each module states its own fold, so each proves its own prefix lemmas.

  /** The fold over a prefix only reads that prefix. */
  lemma {:induction false} TokensAfterPrefix(a: string, b: string, n: nat)
    requires n <= |a| && n <= |b| && a[..n] == b[..n]
    ensures TokensAfter(a, n) == TokensAfter(b, n)
  {
    if n > 0 {
      assert a[n - 1] == a[..n][n - 1] == b[n - 1];
      assert a[..n - 1] == a[..n][..n - 1];
      assert b[..n - 1] == b[..n][..n - 1];
      TokensAfterPrefix(a, b, n - 1);
    }
  }

  /** Appending a character applies one `Step`. */
  lemma TokensSnoc(data: string, ch: char)
    ensures Tokens(data + [ch]) == Step(Tokens(data), ch)
  {
    TokensAfterPrefix(data + [ch], data, |data|);
  }

  /** `Step` reads and rewrites only the last token, so a non-empty tail
      shields everything before it. */
  lemma StepFrame(p: seq<InlineToken>, t: seq<InlineToken>, ch: char)
    requires |t| > 0
    ensures |Step(t, ch)| > 0
    ensures Step(p + t, ch) == p + Step(t, ch)
  {
    var u := p + t;
    StepShape(u, ch);
    StepShape(t, ch);
    assert u[|u| - 1] == t[|t| - 1];
    assert u[..|u| - 1] == p + t[..|t| - 1];
  }

  /** A `/` is a barrier: nothing after it can rewrite a token before it, so
      the tokens of `a + "/" + b` are those of `a` followed by those of
      `"/" + b`. */
  lemma {:induction false} SlashSeparates(a: string, b: string)
    ensures Tokens(a + ['/'] + b) == Tokens(a) + Tokens(['/'] + b)
  {
    if b == [] {
      assert a + ['/'] + b == a + ['/'];
      assert ['/'] + b == [] + ['/'];
      TokensSnoc(a, '/');
      TokensSnoc([], '/');
    } else {
      var b', c := b[..|b| - 1], b[|b| - 1];
      assert a + ['/'] + b == (a + ['/'] + b') + [c];
      assert ['/'] + b == (['/'] + b') + [c];
      SlashSeparates(a, b');
      TokensSnoc(a + ['/'] + b', c);
      TokensSnoc(['/'] + b', c);
      TokensInvariant(['/'] + b');
      StepFrame(Tokens(a), Tokens(['/'] + b'), c);
    }
  }

  // ---------------------------------------------------------------------------
  // Properties of the token sequence

  /** Every `Plain` run is non-empty. */
  predicate PlainsNonEmpty(tokens: seq<InlineToken>) {
    forall i | 0 <= i < |tokens| :: tokens[i].Plain? ==> tokens[i].s != []
  }

  /** No `Strike` or `DoubleStrike` token. */
  predicate StrikeFree(tokens: seq<InlineToken>) {
    forall i | 0 <= i < |tokens| :: tokens[i] != Strike && tokens[i] != DoubleStrike
  }

  /** No `Equal` directly followed by another `Equal`. */
  predicate NoEqualPair(tokens: seq<InlineToken>) {
    forall i | 0 <= i < |tokens| - 1 :: !(tokens[i] == Equal && tokens[i + 1] == Equal)
  }

  /** Two neighbouring `Plain` runs only where the second began with a `^`
      that could not form a footnote opener. */
  predicate PlainPairsStartWithCaret(tokens: seq<InlineToken>) {
    forall i | 0 <= i < |tokens| - 1 ::
      tokens[i].Plain? && tokens[i + 1].Plain? ==> tokens[i + 1].s != [] && tokens[i + 1].s[0] == '^'
  }

  predicate Invariant(tokens: seq<InlineToken>) {
    PlainsNonEmpty(tokens) && StrikeFree(tokens) && NoEqualPair(tokens) && PlainPairsStartWithCaret(tokens)
  }

  lemma PushInvariant(tokens: seq<InlineToken>, t: InlineToken)
    requires Invariant(tokens)
    requires t != Strike && t != DoubleStrike && (t.Plain? ==> t.s != [])
    requires EndsWith(tokens, Equal) ==> t != Equal
    requires |tokens| > 0 && tokens[|tokens| - 1].Plain? && t.Plain? ==> t.s[0] == '^'
    ensures Invariant(tokens + [t])
  {
    var r := tokens + [t];
    assert forall i | 0 <= i < |tokens| :: r[i] == tokens[i];
  }

  lemma RewriteInvariant(tokens: seq<InlineToken>, t: InlineToken)
    requires Invariant(tokens) && |tokens| > 0
    requires t != Strike && t != DoubleStrike && t != Equal
    requires t.Plain? ==> var last := tokens[|tokens| - 1];
      last.Plain? && |last.s| < |t.s| && t.s[..|last.s|] == last.s
    ensures Invariant(SetLast(tokens, t))
  {
    var n := |tokens|;
    var r := SetLast(tokens, t);
    assert forall i | 0 <= i < n - 1 :: r[i] == tokens[i];
    if t.Plain? {
      assert t.s[0] == t.s[..|tokens[n - 1].s|][0];
    }
  }

  lemma StepInvariant(tokens: seq<InlineToken>, ch: char)
    requires Invariant(tokens)
    ensures Invariant(Step(tokens, ch))
    ensures |Step(tokens, ch)| <= |tokens| + 1
  {
    var n := |tokens|;
    ArmFacts(if n > 0 then tokens[n - 1] else Escape, ch);
    StepShape(tokens, ch);
    if n > 0 && Merged(tokens[n - 1], ch).Some? {
      RewriteInvariant(tokens, Merged(tokens[n - 1], ch).value);
    } else {
      PushInvariant(tokens, Pushed(ch));
    }
  }

  /** The fold keeps the invariant; each character adds at most one token. */
  lemma {:induction false} TokensInvariant(data: string)
    ensures Invariant(Tokens(data))
    ensures |Tokens(data)| <= |data|
    ensures data != [] ==> |Tokens(data)| > 0
  {
    if data != [] {
      var p, c := data[..|data| - 1], data[|data| - 1];
      assert data == p + [c];
      TokensInvariant(p);
      TokensSnoc(p, c);
      StepInvariant(Tokens(p), c);
    }
  }

  /** Since no branch emits `Strike`, the check in the `~` arm never succeeds:
      `~` always pushes a `Star`. */
  lemma TildePushesStar(data: string)
    ensures Tokens(data + ['~']) == Tokens(data) + [Star]
  {
    TokensInvariant(data);
    TokensSnoc(data, '~');
    assert !EndsWith(Tokens(data), Strike);
  }

  /** A `*` right after a `Star` (which may have come from `~`) rewrites it to
      `DoubleStar`; any other `*` pushes a new `Star`. */
  lemma StarPairs(data: string)
    ensures var t := Tokens(data);
      Tokens(data + ['*']) == if EndsWith(t, Star) then t[..|t| - 1] + [DoubleStar] else t + [Star]
  {
    TokensSnoc(data, '*');
  }

  /** `=` pairs up with a preceding `Equal` in the same way. */
  lemma EqualPairs(data: string)
    ensures var t := Tokens(data);
      Tokens(data + ['=']) == if EndsWith(t, Equal) then t[..|t| - 1] + [DoubleEqual] else t + [Equal]
  {
    TokensSnoc(data, '=');
  }

  // ---------------------------------------------------------------------------
  // Surface text

  /** The characters a token stands for, with `~` read back as `*`. */
  function Surface(t: InlineToken): string {
    match t
    case Escape => "/"
    case Star => "*"
    case DoubleStar => "**"
    case Quote => "`"
    case SquareOpen => "["
    case SquareClose => "]"
    case CircleOpen => "("
    case CircleClose => ")"
    case FootnoteOpen => "[^"
    case Strike => "~"
    case DoubleStrike => "~~"
    case Equal => "="
    case DoubleEqual => "=="
    case Plain(s) => s
  }

  function Render(tokens: seq<InlineToken>): string {
    if tokens == [] then [] else Render(tokens[..|tokens| - 1]) + Surface(tokens[|tokens| - 1])
  }

  /** The input with every `~` replaced by `*`. */
  function TildeAsStar(s: string): (r: string)
    ensures |r| == |s|
    ensures forall i | 0 <= i < |s| :: r[i] == if s[i] == '~' then '*' else s[i]
  {
    if s == [] then [] else TildeAsStar(s[..|s| - 1]) + [Spelled(s[|s| - 1])]
  }

  lemma RenderSnoc(tokens: seq<InlineToken>, t: InlineToken)
    ensures Render(tokens + [t]) == Render(tokens) + Surface(t)
  {
    assert (tokens + [t])[..|tokens|] == tokens;
  }

  lemma StepRender(tokens: seq<InlineToken>, ch: char)
    requires !EndsWith(tokens, Strike)
    ensures !EndsWith(Step(tokens, ch), Strike)
    ensures Render(Step(tokens, ch)) == Render(tokens) + [Spelled(ch)]
  {
    var n := |tokens|;
    ArmFacts(if n > 0 then tokens[n - 1] else Escape, ch);
    StepShape(tokens, ch);
    if n > 0 && Merged(tokens[n - 1], ch).Some? {
      // Render(tokens) unfolds to Render(tokens[..n - 1]) + Surface(tokens[n - 1])
      RenderSnoc(tokens[..n - 1], Merged(tokens[n - 1], ch).value);
    } else {
      RenderSnoc(tokens, Pushed(ch));
    }
  }

  /** Every character is accounted for: the tokens spell out the input, with
      `~` read back as `*` (the only character the tokenizer changes). */
  lemma {:induction false} RenderTokens(data: string)
    ensures !EndsWith(Tokens(data), Strike)
    ensures Render(Tokens(data)) == TildeAsStar(data)
  {
    if data != [] {
      var p, c := data[..|data| - 1], data[|data| - 1];
      assert data == p + [c];
      RenderTokens(p);
      TokensSnoc(p, c);
      StepRender(Tokens(p), c);
    }
  }
}
