/** The unit tests of the `md_parser` inline tokenizer, each stated as a lemma
    about `Tokens`. The `...Steps` lemmas evaluate `Step` on the tokens after
    each prefix of the input, and the `...Trace` lemma chains those steps along
    the fold. */
module InlineTokenExamples {
  import opened InlineTokens

  lemma CodeSpanExampleSteps1()
    ensures Step([], '`') == [Quote]
    ensures Step([Quote], 'c') == [Quote, Plain("c")]
  {
  }

  lemma CodeSpanExampleSteps2()
    ensures Step([Quote, Plain("c")], 'o') == [Quote, Plain("co")]
    ensures Step([Quote, Plain("co")], 'd') == [Quote, Plain("cod")]
  {
    assert "c" + ['o'] == "co";
    assert "co" + ['d'] == "cod";
  }

  lemma CodeSpanExampleSteps3()
    ensures Step([Quote, Plain("cod")], 'e') == [Quote, Plain("code")]
    ensures Step([Quote, Plain("code")], ' ') == [Quote, Plain("code ")]
  {
    assert "cod" + ['e'] == "code";
    assert "code" + [' '] == "code ";
  }

  lemma CodeSpanExampleSteps4()
    ensures Step([Quote, Plain("code ")], '*') == [Quote, Plain("code "), Star]
    ensures Step([Quote, Plain("code "), Star], '*') == [Quote, Plain("code "), Star, Star]
  {
  }

  lemma CodeSpanExampleSteps5()
    ensures Step([Quote, Plain("code "), Star, Star], 'b') == [Quote, Plain("code "), Star, Star, Plain("b")]
    ensures Step([Quote, Plain("code "), Star, Star, Plain("b")], 'o') == [Quote, Plain("code "), Star, Star, Plain("bo")]
  {
    assert "b" + ['o'] == "bo";
  }

  lemma CodeSpanExampleSteps6()
    ensures Step([Quote, Plain("code "), Star, Star, Plain("bo")], 'l') == [Quote, Plain("code "), Star, Star, Plain("bol")]
    ensures Step([Quote, Plain("code "), Star, Star, Plain("bol")], 'd') == [Quote, Plain("code "), Star, Star, Plain("bold")]
  {
    assert "bo" + ['l'] == "bol";
    assert "bol" + ['d'] == "bold";
  }

  lemma CodeSpanExampleSteps7()
    ensures Step([Quote, Plain("code "), Star, Star, Plain("bold")], '*') == [Quote, Plain("code "), Star, Star, Plain("bold"), Star]
    ensures Step([Quote, Plain("code "), Star, Star, Plain("bold"), Star], '*') == [Quote, Plain("code "), Star, Star, Plain("bold"), Star, Star]
  {
  }

  lemma CodeSpanExampleSteps8()
    ensures Step([Quote, Plain("code "), Star, Star, Plain("bold"), Star, Star], '`') == [Quote, Plain("code "), Star, Star, Plain("bold"), Star, Star, Quote]
  {
  }

  /** A code span holding two stars on each side of a word. */
  lemma CodeSpanExample()
    ensures Tokens("`code **bold**`") == [Quote, Plain("code "), Star, Star, Plain("bold"), Star, Star, Quote]
  {
    CodeSpanExampleTrace("`code **bold**`");
  }

  lemma CodeSpanExampleTrace(d: string)
    requires |d| == 15
    requires d[0] == '`' && d[1] == 'c' && d[2] == 'o' && d[3] == 'd' && d[4] == 'e'
    requires d[5] == ' ' && d[6] == '*' && d[7] == '*' && d[8] == 'b' && d[9] == 'o'
    requires d[10] == 'l' && d[11] == 'd' && d[12] == '*' && d[13] == '*' && d[14] == '`'
    ensures TokensAfter(d, 15) == [Quote, Plain("code "), Star, Star, Plain("bold"), Star, Star, Quote]
  {
    CodeSpanExampleSteps1();
    CodeSpanExampleSteps2();
    CodeSpanExampleSteps3();
    CodeSpanExampleSteps4();
    CodeSpanExampleSteps5();
    CodeSpanExampleSteps6();
    CodeSpanExampleSteps7();
    CodeSpanExampleSteps8();
    StepAfter(d, 1, [], [Quote]);
    StepAfter(d, 2, [Quote], [Quote, Plain("c")]);
    StepAfter(d, 3, [Quote, Plain("c")], [Quote, Plain("co")]);
    StepAfter(d, 4, [Quote, Plain("co")], [Quote, Plain("cod")]);
    StepAfter(d, 5, [Quote, Plain("cod")], [Quote, Plain("code")]);
    StepAfter(d, 6, [Quote, Plain("code")], [Quote, Plain("code ")]);
    StepAfter(d, 7, [Quote, Plain("code ")], [Quote, Plain("code "), Star]);
    StepAfter(d, 8, [Quote, Plain("code "), Star], [Quote, Plain("code "), Star, Star]);
    StepAfter(d, 9, [Quote, Plain("code "), Star, Star], [Quote, Plain("code "), Star, Star, Plain("b")]);
    StepAfter(d, 10, [Quote, Plain("code "), Star, Star, Plain("b")], [Quote, Plain("code "), Star, Star, Plain("bo")]);
    StepAfter(d, 11, [Quote, Plain("code "), Star, Star, Plain("bo")], [Quote, Plain("code "), Star, Star, Plain("bol")]);
    StepAfter(d, 12, [Quote, Plain("code "), Star, Star, Plain("bol")], [Quote, Plain("code "), Star, Star, Plain("bold")]);
    StepAfter(d, 13, [Quote, Plain("code "), Star, Star, Plain("bold")], [Quote, Plain("code "), Star, Star, Plain("bold"), Star]);
    StepAfter(d, 14, [Quote, Plain("code "), Star, Star, Plain("bold"), Star], [Quote, Plain("code "), Star, Star, Plain("bold"), Star, Star]);
    StepAfter(d, 15, [Quote, Plain("code "), Star, Star, Plain("bold"), Star, Star], [Quote, Plain("code "), Star, Star, Plain("bold"), Star, Star, Quote]);
  }

  lemma DoubleStarExampleSteps1()
    ensures Step([], '*') == [Star]
    ensures Step([Star], '*') == [Star, Star]
  {
  }

  lemma DoubleStarExampleSteps2()
    ensures Step([Star, Star], 'b') == [Star, Star, Plain("b")]
    ensures Step([Star, Star, Plain("b")], 'o') == [Star, Star, Plain("bo")]
  {
    assert "b" + ['o'] == "bo";
  }

  lemma DoubleStarExampleSteps3()
    ensures Step([Star, Star, Plain("bo")], 'l') == [Star, Star, Plain("bol")]
    ensures Step([Star, Star, Plain("bol")], 'd') == [Star, Star, Plain("bold")]
  {
    assert "bo" + ['l'] == "bol";
    assert "bol" + ['d'] == "bold";
  }

  lemma DoubleStarExampleSteps4()
    ensures Step([Star, Star, Plain("bold")], '*') == [Star, Star, Plain("bold"), Star]
    ensures Step([Star, Star, Plain("bold"), Star], '*') == [Star, Star, Plain("bold"), Star, Star]
  {
  }

  /** Stars are emitted one token each; pairing them is left to the parser. */
  lemma DoubleStarExample()
    ensures Tokens("**bold**") == [Star, Star, Plain("bold"), Star, Star]
  {
    DoubleStarExampleTrace("**bold**");
  }

  lemma DoubleStarExampleTrace(d: string)
    requires |d| == 8
    requires d[0] == '*' && d[1] == '*' && d[2] == 'b' && d[3] == 'o' && d[4] == 'l'
    requires d[5] == 'd' && d[6] == '*' && d[7] == '*'
    ensures TokensAfter(d, 8) == [Star, Star, Plain("bold"), Star, Star]
  {
    DoubleStarExampleSteps1();
    DoubleStarExampleSteps2();
    DoubleStarExampleSteps3();
    DoubleStarExampleSteps4();
    StepAfter(d, 1, [], [Star]);
    StepAfter(d, 2, [Star], [Star, Star]);
    StepAfter(d, 3, [Star, Star], [Star, Star, Plain("b")]);
    StepAfter(d, 4, [Star, Star, Plain("b")], [Star, Star, Plain("bo")]);
    StepAfter(d, 5, [Star, Star, Plain("bo")], [Star, Star, Plain("bol")]);
    StepAfter(d, 6, [Star, Star, Plain("bol")], [Star, Star, Plain("bold")]);
    StepAfter(d, 7, [Star, Star, Plain("bold")], [Star, Star, Plain("bold"), Star]);
    StepAfter(d, 8, [Star, Star, Plain("bold"), Star], [Star, Star, Plain("bold"), Star, Star]);
  }

  lemma SingleStarExampleSteps1()
    ensures Step([], '*') == [Star]
    ensures Step([Star], 'b') == [Star, Plain("b")]
  {
  }

  lemma SingleStarExampleSteps2()
    ensures Step([Star, Plain("b")], 'o') == [Star, Plain("bo")]
    ensures Step([Star, Plain("bo")], 'l') == [Star, Plain("bol")]
  {
    assert "b" + ['o'] == "bo";
    assert "bo" + ['l'] == "bol";
  }

  lemma SingleStarExampleSteps3()
    ensures Step([Star, Plain("bol")], 'd') == [Star, Plain("bold")]
    ensures Step([Star, Plain("bold")], '*') == [Star, Plain("bold"), Star]
  {
    assert "bol" + ['d'] == "bold";
  }

  /** A single star on each side. */
  lemma SingleStarExample()
    ensures Tokens("*bold*") == [Star, Plain("bold"), Star]
  {
    SingleStarExampleTrace("*bold*");
  }

  lemma SingleStarExampleTrace(d: string)
    requires |d| == 6
    requires d[0] == '*' && d[1] == 'b' && d[2] == 'o' && d[3] == 'l' && d[4] == 'd'
    requires d[5] == '*'
    ensures TokensAfter(d, 6) == [Star, Plain("bold"), Star]
  {
    SingleStarExampleSteps1();
    SingleStarExampleSteps2();
    SingleStarExampleSteps3();
    StepAfter(d, 1, [], [Star]);
    StepAfter(d, 2, [Star], [Star, Plain("b")]);
    StepAfter(d, 3, [Star, Plain("b")], [Star, Plain("bo")]);
    StepAfter(d, 4, [Star, Plain("bo")], [Star, Plain("bol")]);
    StepAfter(d, 5, [Star, Plain("bol")], [Star, Plain("bold")]);
    StepAfter(d, 6, [Star, Plain("bold")], [Star, Plain("bold"), Star]);
  }

  lemma DoubleEqualExampleSteps1()
    ensures Step([], '=') == [Equal]
    ensures Step([Equal], '=') == [Equal, Equal]
  {
  }

  lemma DoubleEqualExampleSteps2()
    ensures Step([Equal, Equal], 'b') == [Equal, Equal, Plain("b")]
    ensures Step([Equal, Equal, Plain("b")], 'o') == [Equal, Equal, Plain("bo")]
  {
    assert "b" + ['o'] == "bo";
  }

  lemma DoubleEqualExampleSteps3()
    ensures Step([Equal, Equal, Plain("bo")], 'l') == [Equal, Equal, Plain("bol")]
    ensures Step([Equal, Equal, Plain("bol")], 'd') == [Equal, Equal, Plain("bold")]
  {
    assert "bo" + ['l'] == "bol";
    assert "bol" + ['d'] == "bold";
  }

  lemma DoubleEqualExampleSteps4()
    ensures Step([Equal, Equal, Plain("bold")], '=') == [Equal, Equal, Plain("bold"), Equal]
    ensures Step([Equal, Equal, Plain("bold"), Equal], '=') == [Equal, Equal, Plain("bold"), Equal, Equal]
  {
  }

  /** Equal signs likewise stay single tokens. */
  lemma DoubleEqualExample()
    ensures Tokens("==bold==") == [Equal, Equal, Plain("bold"), Equal, Equal]
  {
    DoubleEqualExampleTrace("==bold==");
  }

  lemma DoubleEqualExampleTrace(d: string)
    requires |d| == 8
    requires d[0] == '=' && d[1] == '=' && d[2] == 'b' && d[3] == 'o' && d[4] == 'l'
    requires d[5] == 'd' && d[6] == '=' && d[7] == '='
    ensures TokensAfter(d, 8) == [Equal, Equal, Plain("bold"), Equal, Equal]
  {
    DoubleEqualExampleSteps1();
    DoubleEqualExampleSteps2();
    DoubleEqualExampleSteps3();
    DoubleEqualExampleSteps4();
    StepAfter(d, 1, [], [Equal]);
    StepAfter(d, 2, [Equal], [Equal, Equal]);
    StepAfter(d, 3, [Equal, Equal], [Equal, Equal, Plain("b")]);
    StepAfter(d, 4, [Equal, Equal, Plain("b")], [Equal, Equal, Plain("bo")]);
    StepAfter(d, 5, [Equal, Equal, Plain("bo")], [Equal, Equal, Plain("bol")]);
    StepAfter(d, 6, [Equal, Equal, Plain("bol")], [Equal, Equal, Plain("bold")]);
    StepAfter(d, 7, [Equal, Equal, Plain("bold")], [Equal, Equal, Plain("bold"), Equal]);
    StepAfter(d, 8, [Equal, Equal, Plain("bold"), Equal], [Equal, Equal, Plain("bold"), Equal, Equal]);
  }

  lemma SingleEqualExampleSteps1()
    ensures Step([], '=') == [Equal]
    ensures Step([Equal], 'b') == [Equal, Plain("b")]
  {
  }

  lemma SingleEqualExampleSteps2()
    ensures Step([Equal, Plain("b")], 'o') == [Equal, Plain("bo")]
    ensures Step([Equal, Plain("bo")], 'l') == [Equal, Plain("bol")]
  {
    assert "b" + ['o'] == "bo";
    assert "bo" + ['l'] == "bol";
  }

  lemma SingleEqualExampleSteps3()
    ensures Step([Equal, Plain("bol")], 'd') == [Equal, Plain("bold")]
    ensures Step([Equal, Plain("bold")], '=') == [Equal, Plain("bold"), Equal]
  {
    assert "bol" + ['d'] == "bold";
  }

  /** A single equal sign on each side. */
  lemma SingleEqualExample()
    ensures Tokens("=bold=") == [Equal, Plain("bold"), Equal]
  {
    SingleEqualExampleTrace("=bold=");
  }

  lemma SingleEqualExampleTrace(d: string)
    requires |d| == 6
    requires d[0] == '=' && d[1] == 'b' && d[2] == 'o' && d[3] == 'l' && d[4] == 'd'
    requires d[5] == '='
    ensures TokensAfter(d, 6) == [Equal, Plain("bold"), Equal]
  {
    SingleEqualExampleSteps1();
    SingleEqualExampleSteps2();
    SingleEqualExampleSteps3();
    StepAfter(d, 1, [], [Equal]);
    StepAfter(d, 2, [Equal], [Equal, Plain("b")]);
    StepAfter(d, 3, [Equal, Plain("b")], [Equal, Plain("bo")]);
    StepAfter(d, 4, [Equal, Plain("bo")], [Equal, Plain("bol")]);
    StepAfter(d, 5, [Equal, Plain("bol")], [Equal, Plain("bold")]);
    StepAfter(d, 6, [Equal, Plain("bold")], [Equal, Plain("bold"), Equal]);
  }

  lemma EscapedStarExampleSteps1()
    ensures Step([], '\\') == [Escape]
  {
  }

  lemma EscapedStarExampleSteps2()
    ensures Step([Escape], '*') == [Plain("*")]
  {
  }

  lemma EscapedStarExampleSteps3()
    ensures Step([Plain("*")], '*') == [Plain("*"), Star]
    ensures Step([Plain("*"), Star], 'b') == [Plain("*"), Star, Plain("b")]
  {
  }

  lemma EscapedStarExampleSteps4()
    ensures Step([Plain("*"), Star, Plain("b")], 'o') == [Plain("*"), Star, Plain("bo")]
    ensures Step([Plain("*"), Star, Plain("bo")], 'l') == [Plain("*"), Star, Plain("bol")]
  {
    assert "b" + ['o'] == "bo";
    assert "bo" + ['l'] == "bol";
  }

  lemma EscapedStarExampleSteps5()
    ensures Step([Plain("*"), Star, Plain("bol")], 'd') == [Plain("*"), Star, Plain("bold")]
    ensures Step([Plain("*"), Star, Plain("bold")], '*') == [Plain("*"), Star, Plain("bold"), Star]
  {
    assert "bol" + ['d'] == "bold";
  }

  lemma EscapedStarExampleSteps6()
    ensures Step([Plain("*"), Star, Plain("bold"), Star], '*') == [Plain("*"), Star, Plain("bold"), Star, Star]
  {
  }

  /** An escaped star becomes text of its own; the next star is a token again. */
  lemma EscapedStarExample()
    ensures Tokens("\\**bold**") == [Plain("*"), Star, Plain("bold"), Star, Star]
  {
    EscapedStarExampleTrace("\\**bold**");
  }

  lemma EscapedStarExampleTrace(d: string)
    requires |d| == 9
    requires d[0] == '\\' && d[1] == '*' && d[2] == '*' && d[3] == 'b' && d[4] == 'o'
    requires d[5] == 'l' && d[6] == 'd' && d[7] == '*' && d[8] == '*'
    ensures TokensAfter(d, 9) == [Plain("*"), Star, Plain("bold"), Star, Star]
  {
    EscapedStarExampleSteps1();
    EscapedStarExampleSteps2();
    EscapedStarExampleSteps3();
    EscapedStarExampleSteps4();
    EscapedStarExampleSteps5();
    EscapedStarExampleSteps6();
    StepAfter(d, 1, [], [Escape]);
    StepAfter(d, 2, [Escape], [Plain("*")]);
    StepAfter(d, 3, [Plain("*")], [Plain("*"), Star]);
    StepAfter(d, 4, [Plain("*"), Star], [Plain("*"), Star, Plain("b")]);
    StepAfter(d, 5, [Plain("*"), Star, Plain("b")], [Plain("*"), Star, Plain("bo")]);
    StepAfter(d, 6, [Plain("*"), Star, Plain("bo")], [Plain("*"), Star, Plain("bol")]);
    StepAfter(d, 7, [Plain("*"), Star, Plain("bol")], [Plain("*"), Star, Plain("bold")]);
    StepAfter(d, 8, [Plain("*"), Star, Plain("bold")], [Plain("*"), Star, Plain("bold"), Star]);
    StepAfter(d, 9, [Plain("*"), Star, Plain("bold"), Star], [Plain("*"), Star, Plain("bold"), Star, Star]);
  }

  lemma EscapedEqualExampleSteps1()
    ensures Step([], '\\') == [Escape]
  {
  }

  lemma EscapedEqualExampleSteps2()
    ensures Step([Escape], '=') == [Plain("=")]
  {
  }

  lemma EscapedEqualExampleSteps3()
    ensures Step([Plain("=")], 'b') == [Plain("=b")]
    ensures Step([Plain("=b")], 'o') == [Plain("=bo")]
  {
    assert "=" + ['b'] == "=b";
    assert "=b" + ['o'] == "=bo";
  }

  lemma EscapedEqualExampleSteps4()
    ensures Step([Plain("=bo")], 'l') == [Plain("=bol")]
    ensures Step([Plain("=bol")], 'd') == [Plain("=bold")]
  {
    assert "=bo" + ['l'] == "=bol";
    assert "=bol" + ['d'] == "=bold";
  }

  lemma EscapedEqualExampleSteps5()
    ensures Step([Plain("=bold")], '=') == [Plain("=bold"), Equal]
  {
  }

  /** An escaped character starts a run that following text extends. */
  lemma EscapedEqualExample()
    ensures Tokens("\\=bold=") == [Plain("=bold"), Equal]
  {
    EscapedEqualExampleTrace("\\=bold=");
  }

  lemma EscapedEqualExampleTrace(d: string)
    requires |d| == 7
    requires d[0] == '\\' && d[1] == '=' && d[2] == 'b' && d[3] == 'o' && d[4] == 'l'
    requires d[5] == 'd' && d[6] == '='
    ensures TokensAfter(d, 7) == [Plain("=bold"), Equal]
  {
    EscapedEqualExampleSteps1();
    EscapedEqualExampleSteps2();
    EscapedEqualExampleSteps3();
    EscapedEqualExampleSteps4();
    EscapedEqualExampleSteps5();
    StepAfter(d, 1, [], [Escape]);
    StepAfter(d, 2, [Escape], [Plain("=")]);
    StepAfter(d, 3, [Plain("=")], [Plain("=b")]);
    StepAfter(d, 4, [Plain("=b")], [Plain("=bo")]);
    StepAfter(d, 5, [Plain("=bo")], [Plain("=bol")]);
    StepAfter(d, 6, [Plain("=bol")], [Plain("=bold")]);
    StepAfter(d, 7, [Plain("=bold")], [Plain("=bold"), Equal]);
  }

  lemma EscapedTildeExampleSteps1()
    ensures Step([Plain("=bold")], '\\') == [Plain("=bold"), Escape]
  {
  }

  lemma EscapedTildeExampleSteps2()
    ensures Step([Plain("=bold"), Escape], '~') == [Plain("=bold"), Plain("~")]
  {
  }

  /** A second escape starts a new run instead of joining the previous one. */
  lemma EscapedTildeExample()
    ensures Tokens("\\=bold\\~") == [Plain("=bold"), Plain("~")]
  {
    EscapedTildeExampleTrace("\\=bold\\~");
  }

  lemma EscapedTildeExampleTrace(d: string)
    requires |d| == 8
    requires d[0] == '\\' && d[1] == '=' && d[2] == 'b' && d[3] == 'o' && d[4] == 'l'
    requires d[5] == 'd' && d[6] == '\\' && d[7] == '~'
    ensures TokensAfter(d, 8) == [Plain("=bold"), Plain("~")]
  {
    EscapedEqualExampleSteps1();
    EscapedEqualExampleSteps2();
    EscapedEqualExampleSteps3();
    EscapedEqualExampleSteps4();
    EscapedTildeExampleSteps1();
    EscapedTildeExampleSteps2();
    StepAfter(d, 1, [], [Escape]);
    StepAfter(d, 2, [Escape], [Plain("=")]);
    StepAfter(d, 3, [Plain("=")], [Plain("=b")]);
    StepAfter(d, 4, [Plain("=b")], [Plain("=bo")]);
    StepAfter(d, 5, [Plain("=bo")], [Plain("=bol")]);
    StepAfter(d, 6, [Plain("=bol")], [Plain("=bold")]);
    StepAfter(d, 7, [Plain("=bold")], [Plain("=bold"), Escape]);
    StepAfter(d, 8, [Plain("=bold"), Escape], [Plain("=bold"), Plain("~")]);
  }

  lemma FootnoteExampleSteps1()
    ensures Step([], '[') == [SquareOpen]
    ensures Step([SquareOpen], '^') == [FootnoteOpen]
  {
  }

  lemma FootnoteExampleSteps2()
    ensures Step([FootnoteOpen], '1') == [FootnoteOpen, Plain("1")]
    ensures Step([FootnoteOpen, Plain("1")], '\\') == [FootnoteOpen, Plain("1"), Escape]
  {
  }

  lemma FootnoteExampleSteps3()
    ensures Step([FootnoteOpen, Plain("1"), Escape], ']') == [FootnoteOpen, Plain("1"), Plain("]")]
  {
  }

  /** A `[` followed by `^` is a footnote opener; an escaped `]` is text. */
  lemma FootnoteExample()
    ensures Tokens("[^1\\]") == [FootnoteOpen, Plain("1"), Plain("]")]
  {
    FootnoteExampleTrace("[^1\\]");
  }

  lemma FootnoteExampleTrace(d: string)
    requires |d| == 5
    requires d[0] == '[' && d[1] == '^' && d[2] == '1' && d[3] == '\\' && d[4] == ']'
    ensures TokensAfter(d, 5) == [FootnoteOpen, Plain("1"), Plain("]")]
  {
    FootnoteExampleSteps1();
    FootnoteExampleSteps2();
    FootnoteExampleSteps3();
    StepAfter(d, 1, [], [SquareOpen]);
    StepAfter(d, 2, [SquareOpen], [FootnoteOpen]);
    StepAfter(d, 3, [FootnoteOpen], [FootnoteOpen, Plain("1")]);
    StepAfter(d, 4, [FootnoteOpen, Plain("1")], [FootnoteOpen, Plain("1"), Escape]);
    StepAfter(d, 5, [FootnoteOpen, Plain("1"), Escape], [FootnoteOpen, Plain("1"), Plain("]")]);
  }

  lemma EscapedSquareExampleSteps1()
    ensures Step([], '\\') == [Escape]
  {
  }

  lemma EscapedSquareExampleSteps2()
    ensures Step([Escape], '[') == [Plain("[")]
  {
  }

  lemma EscapedSquareExampleSteps3()
    ensures Step([Plain("[")], '^') == [Plain("["), Plain("^")]
    ensures Step([Plain("["), Plain("^")], '1') == [Plain("["), Plain("^1")]
  {
    assert "^" + ['1'] == "^1";
  }

  lemma EscapedSquareExampleSteps4()
    ensures Step([Plain("["), Plain("^1")], ']') == [Plain("["), Plain("^1"), SquareClose]
  {
  }

  /** An escaped `[` cannot open a footnote. */
  lemma EscapedSquareExample()
    ensures Tokens("\\[^1]") == [Plain("["), Plain("^1"), SquareClose]
  {
    EscapedSquareExampleTrace("\\[^1]");
  }

  lemma EscapedSquareExampleTrace(d: string)
    requires |d| == 5
    requires d[0] == '\\' && d[1] == '[' && d[2] == '^' && d[3] == '1' && d[4] == ']'
    ensures TokensAfter(d, 5) == [Plain("["), Plain("^1"), SquareClose]
  {
    EscapedSquareExampleSteps1();
    EscapedSquareExampleSteps2();
    EscapedSquareExampleSteps3();
    EscapedSquareExampleSteps4();
    StepAfter(d, 1, [], [Escape]);
    StepAfter(d, 2, [Escape], [Plain("[")]);
    StepAfter(d, 3, [Plain("[")], [Plain("["), Plain("^")]);
    StepAfter(d, 4, [Plain("["), Plain("^")], [Plain("["), Plain("^1")]);
    StepAfter(d, 5, [Plain("["), Plain("^1")], [Plain("["), Plain("^1"), SquareClose]);
  }

  lemma EscapedCaretExampleSteps1()
    ensures Step([], '[') == [SquareOpen]
    ensures Step([SquareOpen], '\\') == [SquareOpen, Escape]
  {
  }

  lemma EscapedCaretExampleSteps2()
    ensures Step([SquareOpen, Escape], '^') == [SquareOpen, Plain("^")]
  {
  }

  lemma EscapedCaretExampleSteps3()
    ensures Step([SquareOpen, Plain("^")], '1') == [SquareOpen, Plain("^1")]
    ensures Step([SquareOpen, Plain("^1")], ']') == [SquareOpen, Plain("^1"), SquareClose]
  {
    assert "^" + ['1'] == "^1";
  }

  /** An escaped `^` leaves the `[` alone. */
  lemma EscapedCaretExample()
    ensures Tokens("[\\^1]") == [SquareOpen, Plain("^1"), SquareClose]
  {
    EscapedCaretExampleTrace("[\\^1]");
  }

  lemma EscapedCaretExampleTrace(d: string)
    requires |d| == 5
    requires d[0] == '[' && d[1] == '\\' && d[2] == '^' && d[3] == '1' && d[4] == ']'
    ensures TokensAfter(d, 5) == [SquareOpen, Plain("^1"), SquareClose]
  {
    EscapedCaretExampleSteps1();
    EscapedCaretExampleSteps2();
    EscapedCaretExampleSteps3();
    StepAfter(d, 1, [], [SquareOpen]);
    StepAfter(d, 2, [SquareOpen], [SquareOpen, Escape]);
    StepAfter(d, 3, [SquareOpen, Escape], [SquareOpen, Plain("^")]);
    StepAfter(d, 4, [SquareOpen, Plain("^")], [SquareOpen, Plain("^1")]);
    StepAfter(d, 5, [SquareOpen, Plain("^1")], [SquareOpen, Plain("^1"), SquareClose]);
  }
}
