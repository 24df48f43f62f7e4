/** Worked inputs for the `src` inline tokenizer, each stated as a lemma
    about `Tokens`. The `...Steps` lemmas evaluate `Step` on the tokens after
    each prefix of the input, and the `...Trace` lemma chains those steps along
    the fold. */
module LegacyInlineTokenExamples {
  import opened LegacyInlineTokens

  lemma TripleStarExampleSteps1()
    ensures Step([], '*') == [Star]
    ensures Step([Star], '*') == [DoubleStar]
  {
  }

  lemma TripleStarExampleSteps2()
    ensures Step([DoubleStar], '*') == [DoubleStar, Star]
  {
  }

  /** Three stars: the first two pair up, the third stays single. */
  lemma TripleStarExample()
    ensures Tokens("***") == [DoubleStar, Star]
  {
    TripleStarExampleTrace("***");
  }

  lemma TripleStarExampleTrace(d: string)
    requires |d| == 3
    requires d[0] == '*' && d[1] == '*' && d[2] == '*'
    ensures TokensAfter(d, 3) == [DoubleStar, Star]
  {
    TripleStarExampleSteps1();
    TripleStarExampleSteps2();
    StepAfter(d, 1, [], [Star]);
    StepAfter(d, 2, [Star], [DoubleStar]);
    StepAfter(d, 3, [DoubleStar], [DoubleStar, Star]);
  }

  lemma QuadrupleStarExampleSteps1()
    ensures Step([], '*') == [Star]
    ensures Step([Star], '*') == [DoubleStar]
  {
  }

  lemma QuadrupleStarExampleSteps2()
    ensures Step([DoubleStar], '*') == [DoubleStar, Star]
    ensures Step([DoubleStar, Star], '*') == [DoubleStar, DoubleStar]
  {
  }

  /** Four stars make two `DoubleStar` tokens. */
  lemma QuadrupleStarExample()
    ensures Tokens("****") == [DoubleStar, DoubleStar]
  {
    QuadrupleStarExampleTrace("****");
  }

  lemma QuadrupleStarExampleTrace(d: string)
    requires |d| == 4
    requires d[0] == '*' && d[1] == '*' && d[2] == '*' && d[3] == '*'
    ensures TokensAfter(d, 4) == [DoubleStar, DoubleStar]
  {
    QuadrupleStarExampleSteps1();
    QuadrupleStarExampleSteps2();
    StepAfter(d, 1, [], [Star]);
    StepAfter(d, 2, [Star], [DoubleStar]);
    StepAfter(d, 3, [DoubleStar], [DoubleStar, Star]);
    StepAfter(d, 4, [DoubleStar, Star], [DoubleStar, DoubleStar]);
  }

  lemma TildeStarExampleSteps1()
    ensures Step([], '~') == [Star]
    ensures Step([Star], '*') == [DoubleStar]
  {
  }

  /** The `~` arm emits a `Star`, which a following `*` pairs with. */
  lemma TildeStarExample()
    ensures Tokens("~*") == [DoubleStar]
  {
    TildeStarExampleTrace("~*");
  }

  lemma TildeStarExampleTrace(d: string)
    requires |d| == 2
    requires d[0] == '~' && d[1] == '*'
    ensures TokensAfter(d, 2) == [DoubleStar]
  {
    TildeStarExampleSteps1();
    StepAfter(d, 1, [], [Star]);
    StepAfter(d, 2, [Star], [DoubleStar]);
  }

  lemma StarTildeExampleSteps1()
    ensures Step([], '*') == [Star]
    ensures Step([Star], '~') == [Star, Star]
  {
  }

  /** A `~` after a `*` does not pair with it. */
  lemma StarTildeExample()
    ensures Tokens("*~") == [Star, Star]
  {
    StarTildeExampleTrace("*~");
  }

  lemma StarTildeExampleTrace(d: string)
    requires |d| == 2
    requires d[0] == '*' && d[1] == '~'
    ensures TokensAfter(d, 2) == [Star, Star]
  {
    StarTildeExampleSteps1();
    StepAfter(d, 1, [], [Star]);
    StepAfter(d, 2, [Star], [Star, Star]);
  }

  lemma TripleEqualExampleSteps1()
    ensures Step([], '=') == [Equal]
    ensures Step([Equal], '=') == [DoubleEqual]
  {
  }

  lemma TripleEqualExampleSteps2()
    ensures Step([DoubleEqual], '=') == [DoubleEqual, Equal]
  {
  }

  /** Equal signs pair up like stars. */
  lemma TripleEqualExample()
    ensures Tokens("===") == [DoubleEqual, Equal]
  {
    TripleEqualExampleTrace("===");
  }

  lemma TripleEqualExampleTrace(d: string)
    requires |d| == 3
    requires d[0] == '=' && d[1] == '=' && d[2] == '='
    ensures TokensAfter(d, 3) == [DoubleEqual, Equal]
  {
    TripleEqualExampleSteps1();
    TripleEqualExampleSteps2();
    StepAfter(d, 1, [], [Equal]);
    StepAfter(d, 2, [Equal], [DoubleEqual]);
    StepAfter(d, 3, [DoubleEqual], [DoubleEqual, Equal]);
  }

  lemma BoldExampleSteps1()
    ensures Step([], '*') == [Star]
    ensures Step([Star], '*') == [DoubleStar]
  {
  }

  lemma BoldExampleSteps2()
    ensures Step([DoubleStar], 'b') == [DoubleStar, Plain("b")]
    ensures Step([DoubleStar, Plain("b")], 'o') == [DoubleStar, Plain("bo")]
  {
    assert "b" + ['o'] == "bo";
  }

  lemma BoldExampleSteps3()
    ensures Step([DoubleStar, Plain("bo")], 'l') == [DoubleStar, Plain("bol")]
    ensures Step([DoubleStar, Plain("bol")], 'd') == [DoubleStar, Plain("bold")]
  {
    assert "bo" + ['l'] == "bol";
    assert "bol" + ['d'] == "bold";
  }

  lemma BoldExampleSteps4()
    ensures Step([DoubleStar, Plain("bold")], '*') == [DoubleStar, Plain("bold"), Star]
    ensures Step([DoubleStar, Plain("bold"), Star], '*') == [DoubleStar, Plain("bold"), DoubleStar]
  {
  }

  /** A word between two pairs of stars. */
  lemma BoldExample()
    ensures Tokens("**bold**") == [DoubleStar, Plain("bold"), DoubleStar]
  {
    BoldExampleTrace("**bold**");
  }

  lemma BoldExampleTrace(d: string)
    requires |d| == 8
    requires d[0] == '*' && d[1] == '*' && d[2] == 'b' && d[3] == 'o' && d[4] == 'l'
    requires d[5] == 'd' && d[6] == '*' && d[7] == '*'
    ensures TokensAfter(d, 8) == [DoubleStar, Plain("bold"), DoubleStar]
  {
    BoldExampleSteps1();
    BoldExampleSteps2();
    BoldExampleSteps3();
    BoldExampleSteps4();
    StepAfter(d, 1, [], [Star]);
    StepAfter(d, 2, [Star], [DoubleStar]);
    StepAfter(d, 3, [DoubleStar], [DoubleStar, Plain("b")]);
    StepAfter(d, 4, [DoubleStar, Plain("b")], [DoubleStar, Plain("bo")]);
    StepAfter(d, 5, [DoubleStar, Plain("bo")], [DoubleStar, Plain("bol")]);
    StepAfter(d, 6, [DoubleStar, Plain("bol")], [DoubleStar, Plain("bold")]);
    StepAfter(d, 7, [DoubleStar, Plain("bold")], [DoubleStar, Plain("bold"), Star]);
    StepAfter(d, 8, [DoubleStar, Plain("bold"), Star], [DoubleStar, Plain("bold"), DoubleStar]);
  }

  lemma SlashExampleSteps1()
    ensures Step([], '/') == [Escape]
  {
  }

  lemma SlashExampleSteps2()
    ensures Step([Escape], '*') == [Escape, Star]
  {
  }

  lemma SlashExampleSteps3()
    ensures Step([Escape, Star], 'a') == [Escape, Star, Plain("a")]
    ensures Step([Escape, Star, Plain("a")], '\\') == [Escape, Star, Plain("a\\")]
  {
    assert "a" + ['\\'] == "a\\";
  }

  lemma SlashExampleSteps4()
    ensures Step([Escape, Star, Plain("a\\")], 'b') == [Escape, Star, Plain("a\\b")]
    ensures Step([Escape, Star, Plain("a\\b")], '*') == [Escape, Star, Plain("a\\b"), Star]
  {
    assert "a\\" + ['b'] == "a\\b";
  }

  /** A `/` is a token of its own and leaves the next `*` a delimiter; a backslash is text. */
  lemma SlashExample()
    ensures Tokens("/*a\\b*") == [Escape, Star, Plain("a\\b"), Star]
  {
    SlashExampleTrace("/*a\\b*");
  }

  lemma SlashExampleTrace(d: string)
    requires |d| == 6
    requires d[0] == '/' && d[1] == '*' && d[2] == 'a' && d[3] == '\\' && d[4] == 'b'
    requires d[5] == '*'
    ensures TokensAfter(d, 6) == [Escape, Star, Plain("a\\b"), Star]
  {
    SlashExampleSteps1();
    SlashExampleSteps2();
    SlashExampleSteps3();
    SlashExampleSteps4();
    StepAfter(d, 1, [], [Escape]);
    StepAfter(d, 2, [Escape], [Escape, Star]);
    StepAfter(d, 3, [Escape, Star], [Escape, Star, Plain("a")]);
    StepAfter(d, 4, [Escape, Star, Plain("a")], [Escape, Star, Plain("a\\")]);
    StepAfter(d, 5, [Escape, Star, Plain("a\\")], [Escape, Star, Plain("a\\b")]);
    StepAfter(d, 6, [Escape, Star, Plain("a\\b")], [Escape, Star, Plain("a\\b"), Star]);
  }

  lemma FootnoteExampleSteps1()
    ensures Step([], '[') == [SquareOpen]
    ensures Step([SquareOpen], '^') == [FootnoteOpen]
  {
  }

  lemma FootnoteExampleSteps2()
    ensures Step([FootnoteOpen], '1') == [FootnoteOpen, Plain("1")]
    ensures Step([FootnoteOpen, Plain("1")], ']') == [FootnoteOpen, Plain("1"), SquareClose]
  {
  }

  /** A `[` followed by `^` becomes a footnote opener. */
  lemma FootnoteExample()
    ensures Tokens("[^1]") == [FootnoteOpen, Plain("1"), SquareClose]
  {
    FootnoteExampleTrace("[^1]");
  }

  lemma FootnoteExampleTrace(d: string)
    requires |d| == 4
    requires d[0] == '[' && d[1] == '^' && d[2] == '1' && d[3] == ']'
    ensures TokensAfter(d, 4) == [FootnoteOpen, Plain("1"), SquareClose]
  {
    FootnoteExampleSteps1();
    FootnoteExampleSteps2();
    StepAfter(d, 1, [], [SquareOpen]);
    StepAfter(d, 2, [SquareOpen], [FootnoteOpen]);
    StepAfter(d, 3, [FootnoteOpen], [FootnoteOpen, Plain("1")]);
    StepAfter(d, 4, [FootnoteOpen, Plain("1")], [FootnoteOpen, Plain("1"), SquareClose]);
  }
}
