/** Worked token lists for the inline tree builder, and the tokenizer and the
    builder run one after the other. Each `...StepN` lemma evaluates one call
    of `Build` or `Arm`, from the calls it makes. */
module MdInlineExamples {
  import opened LegacyInlineTokens
  import opened MdInlineBuilder
  import LegacyInlineTokenExamples

  lemma BoldExampleStep1()
    ensures Arm([DoubleStar, Plain("bold"), DoubleStar], 1, []).0 == 2 && Arm([DoubleStar, Plain("bold"), DoubleStar], 1, []).1 == [InlineString("bold")]
  {
    assert AllImplemented([DoubleStar, Plain("bold"), DoubleStar]);
  }

  lemma BoldExampleStep2()
    ensures Build([DoubleStar, Plain("bold"), DoubleStar], 2, [InlineString("bold")], Some(DoubleStar)).0 == 3 && Build([DoubleStar, Plain("bold"), DoubleStar], 2, [InlineString("bold")], Some(DoubleStar)).1 == [InlineString("bold")]
  {
    assert AllImplemented([DoubleStar, Plain("bold"), DoubleStar]);
  }

  lemma BoldExampleStep3()
    ensures Build([DoubleStar, Plain("bold"), DoubleStar], 1, [], Some(DoubleStar)).0 == 3 && Build([DoubleStar, Plain("bold"), DoubleStar], 1, [], Some(DoubleStar)).1 == [InlineString("bold")]
  {
    BoldExampleStep1();
    BoldExampleStep2();
  }

  lemma BoldExampleStep4()
    ensures Arm([DoubleStar, Plain("bold"), DoubleStar], 0, []).0 == 3 && Arm([DoubleStar, Plain("bold"), DoubleStar], 0, []).1 == [Bold([InlineString("bold")])]
  {
    BoldExampleStep3();
  }

  lemma BoldExampleStep5()
    ensures Build([DoubleStar, Plain("bold"), DoubleStar], 3, [Bold([InlineString("bold")])], None).0 == 3 && Build([DoubleStar, Plain("bold"), DoubleStar], 3, [Bold([InlineString("bold")])], None).1 == [Bold([InlineString("bold")])]
  {
    assert AllImplemented([DoubleStar, Plain("bold"), DoubleStar]);
  }

  lemma BoldExampleStep6()
    ensures Build([DoubleStar, Plain("bold"), DoubleStar], 0, [], None).0 == 3 && Build([DoubleStar, Plain("bold"), DoubleStar], 0, [], None).1 == [Bold([InlineString("bold")])]
  {
    BoldExampleStep4();
    BoldExampleStep5();
  }

  /** A `**` scope closed by the next `**`. */
  lemma BoldExample()
    ensures Parse([DoubleStar, Plain("bold"), DoubleStar]) == [Bold([InlineString("bold")])]
  {
    BoldExampleStep6();
  }

  lemma UnterminatedExampleStep1()
    ensures Arm([Star, Plain("a")], 1, []).0 == 2 && Arm([Star, Plain("a")], 1, []).1 == [InlineString("a")]
  {
    assert AllImplemented([Star, Plain("a")]);
  }

  lemma UnterminatedExampleStep2()
    ensures Build([Star, Plain("a")], 2, [InlineString("a")], Some(Star)).0 == 2 && Build([Star, Plain("a")], 2, [InlineString("a")], Some(Star)).1 == [InlineString("a")]
  {
    assert AllImplemented([Star, Plain("a")]);
  }

  lemma UnterminatedExampleStep3()
    ensures Build([Star, Plain("a")], 1, [], Some(Star)).0 == 2 && Build([Star, Plain("a")], 1, [], Some(Star)).1 == [InlineString("a")]
  {
    UnterminatedExampleStep1();
    UnterminatedExampleStep2();
  }

  lemma UnterminatedExampleStep4()
    ensures Arm([Star, Plain("a")], 0, []).0 == 2 && Arm([Star, Plain("a")], 0, []).1 == [Italic([InlineString("a")])]
  {
    UnterminatedExampleStep3();
  }

  lemma UnterminatedExampleStep5()
    ensures Build([Star, Plain("a")], 2, [Italic([InlineString("a")])], None).0 == 2 && Build([Star, Plain("a")], 2, [Italic([InlineString("a")])], None).1 == [Italic([InlineString("a")])]
  {
    assert AllImplemented([Star, Plain("a")]);
  }

  lemma UnterminatedExampleStep6()
    ensures Build([Star, Plain("a")], 0, [], None).0 == 2 && Build([Star, Plain("a")], 0, [], None).1 == [Italic([InlineString("a")])]
  {
    UnterminatedExampleStep4();
    UnterminatedExampleStep5();
  }

  /** A scope left open at the end of the input is still pushed. */
  lemma UnterminatedExample()
    ensures Parse([Star, Plain("a")]) == [Italic([InlineString("a")])]
  {
    UnterminatedExampleStep6();
  }

  lemma EqualExampleStep1()
    ensures Arm([Plain("a"), Equal, Plain("b")], 0, []).0 == 1 && Arm([Plain("a"), Equal, Plain("b")], 0, []).1 == [InlineString("a")]
  {
    assert AllImplemented([Plain("a"), Equal, Plain("b")]);
  }

  lemma EqualExampleStep2()
    ensures Arm([Plain("a"), Equal, Plain("b")], 1, [InlineString("a")]).0 == 2 && Arm([Plain("a"), Equal, Plain("b")], 1, [InlineString("a")]).1 == [InlineString("a"), InlineString("=")]
  {
    assert AllImplemented([Plain("a"), Equal, Plain("b")]);
  }

  lemma EqualExampleStep3()
    ensures Arm([Plain("a"), Equal, Plain("b")], 2, [InlineString("a"), InlineString("=")]).0 == 3 && Arm([Plain("a"), Equal, Plain("b")], 2, [InlineString("a"), InlineString("=")]).1 == [InlineString("a"), InlineString("=b")]
  {
    assert AllImplemented([Plain("a"), Equal, Plain("b")]);
    assert "=" + "b" == "=b";
  }

  lemma EqualExampleStep4()
    ensures Build([Plain("a"), Equal, Plain("b")], 3, [InlineString("a"), InlineString("=b")], None).0 == 3 && Build([Plain("a"), Equal, Plain("b")], 3, [InlineString("a"), InlineString("=b")], None).1 == [InlineString("a"), InlineString("=b")]
  {
    assert AllImplemented([Plain("a"), Equal, Plain("b")]);
  }

  lemma EqualExampleStep5()
    ensures Build([Plain("a"), Equal, Plain("b")], 2, [InlineString("a"), InlineString("=")], None).0 == 3 && Build([Plain("a"), Equal, Plain("b")], 2, [InlineString("a"), InlineString("=")], None).1 == [InlineString("a"), InlineString("=b")]
  {
    EqualExampleStep3();
    EqualExampleStep4();
  }

  lemma EqualExampleStep6()
    ensures Build([Plain("a"), Equal, Plain("b")], 1, [InlineString("a")], None).0 == 3 && Build([Plain("a"), Equal, Plain("b")], 1, [InlineString("a")], None).1 == [InlineString("a"), InlineString("=b")]
  {
    EqualExampleStep2();
    EqualExampleStep5();
  }

  lemma EqualExampleStep7()
    ensures Build([Plain("a"), Equal, Plain("b")], 0, [], None).0 == 3 && Build([Plain("a"), Equal, Plain("b")], 0, [], None).1 == [InlineString("a"), InlineString("=b")]
  {
    EqualExampleStep1();
    EqualExampleStep6();
  }

  /** `=` pushes a string of its own, which the following text then extends. */
  lemma EqualExample()
    ensures Parse([Plain("a"), Equal, Plain("b")]) == [InlineString("a"), InlineString("=b")]
  {
    EqualExampleStep7();
  }

  lemma EscapeExampleStep1()
    ensures Arm([Plain("a"), Escape, Plain("b")], 0, []).0 == 1 && Arm([Plain("a"), Escape, Plain("b")], 0, []).1 == [InlineString("a")]
  {
    assert AllImplemented([Plain("a"), Escape, Plain("b")]);
  }

  lemma EscapeExampleStep2()
    ensures Arm([Plain("a"), Escape, Plain("b")], 1, [InlineString("a")]).0 == 2 && Arm([Plain("a"), Escape, Plain("b")], 1, [InlineString("a")]).1 == [InlineString("a")]
  {
    assert AllImplemented([Plain("a"), Escape, Plain("b")]);
  }

  lemma EscapeExampleStep3()
    ensures Arm([Plain("a"), Escape, Plain("b")], 2, [InlineString("a")]).0 == 3 && Arm([Plain("a"), Escape, Plain("b")], 2, [InlineString("a")]).1 == [InlineString("ab")]
  {
    assert AllImplemented([Plain("a"), Escape, Plain("b")]);
    assert "a" + "b" == "ab";
  }

  lemma EscapeExampleStep4()
    ensures Build([Plain("a"), Escape, Plain("b")], 3, [InlineString("ab")], None).0 == 3 && Build([Plain("a"), Escape, Plain("b")], 3, [InlineString("ab")], None).1 == [InlineString("ab")]
  {
    assert AllImplemented([Plain("a"), Escape, Plain("b")]);
  }

  lemma EscapeExampleStep5()
    ensures Build([Plain("a"), Escape, Plain("b")], 2, [InlineString("a")], None).0 == 3 && Build([Plain("a"), Escape, Plain("b")], 2, [InlineString("a")], None).1 == [InlineString("ab")]
  {
    EscapeExampleStep3();
    EscapeExampleStep4();
  }

  lemma EscapeExampleStep6()
    ensures Build([Plain("a"), Escape, Plain("b")], 1, [InlineString("a")], None).0 == 3 && Build([Plain("a"), Escape, Plain("b")], 1, [InlineString("a")], None).1 == [InlineString("ab")]
  {
    EscapeExampleStep2();
    EscapeExampleStep5();
  }

  lemma EscapeExampleStep7()
    ensures Build([Plain("a"), Escape, Plain("b")], 0, [], None).0 == 3 && Build([Plain("a"), Escape, Plain("b")], 0, [], None).1 == [InlineString("ab")]
  {
    EscapeExampleStep1();
    EscapeExampleStep6();
  }

  /** An escape marker adds nothing, so the text on both sides joins. */
  lemma EscapeExample()
    ensures Parse([Plain("a"), Escape, Plain("b")]) == [InlineString("ab")]
  {
    EscapeExampleStep7();
  }

  lemma NestedExampleStep1()
    ensures Arm([DoubleStar, Star, Plain("x"), Star, DoubleStar], 2, []).0 == 3 && Arm([DoubleStar, Star, Plain("x"), Star, DoubleStar], 2, []).1 == [InlineString("x")]
  {
    assert AllImplemented([DoubleStar, Star, Plain("x"), Star, DoubleStar]);
  }

  lemma NestedExampleStep2()
    ensures Build([DoubleStar, Star, Plain("x"), Star, DoubleStar], 3, [InlineString("x")], Some(Star)).0 == 4 && Build([DoubleStar, Star, Plain("x"), Star, DoubleStar], 3, [InlineString("x")], Some(Star)).1 == [InlineString("x")]
  {
    assert AllImplemented([DoubleStar, Star, Plain("x"), Star, DoubleStar]);
  }

  lemma NestedExampleStep3()
    ensures Build([DoubleStar, Star, Plain("x"), Star, DoubleStar], 2, [], Some(Star)).0 == 4 && Build([DoubleStar, Star, Plain("x"), Star, DoubleStar], 2, [], Some(Star)).1 == [InlineString("x")]
  {
    NestedExampleStep1();
    NestedExampleStep2();
  }

  lemma NestedExampleStep4()
    ensures Arm([DoubleStar, Star, Plain("x"), Star, DoubleStar], 1, []).0 == 4 && Arm([DoubleStar, Star, Plain("x"), Star, DoubleStar], 1, []).1 == [Italic([InlineString("x")])]
  {
    NestedExampleStep3();
  }

  lemma NestedExampleStep5()
    ensures Build([DoubleStar, Star, Plain("x"), Star, DoubleStar], 4, [Italic([InlineString("x")])], Some(DoubleStar)).0 == 5 && Build([DoubleStar, Star, Plain("x"), Star, DoubleStar], 4, [Italic([InlineString("x")])], Some(DoubleStar)).1 == [Italic([InlineString("x")])]
  {
    assert AllImplemented([DoubleStar, Star, Plain("x"), Star, DoubleStar]);
  }

  lemma NestedExampleStep6()
    ensures Build([DoubleStar, Star, Plain("x"), Star, DoubleStar], 1, [], Some(DoubleStar)).0 == 5 && Build([DoubleStar, Star, Plain("x"), Star, DoubleStar], 1, [], Some(DoubleStar)).1 == [Italic([InlineString("x")])]
  {
    NestedExampleStep4();
    NestedExampleStep5();
  }

  lemma NestedExampleStep7()
    ensures Arm([DoubleStar, Star, Plain("x"), Star, DoubleStar], 0, []).0 == 5 && Arm([DoubleStar, Star, Plain("x"), Star, DoubleStar], 0, []).1 == [Bold([Italic([InlineString("x")])])]
  {
    NestedExampleStep6();
  }

  lemma NestedExampleStep8()
    ensures Build([DoubleStar, Star, Plain("x"), Star, DoubleStar], 5, [Bold([Italic([InlineString("x")])])], None).0 == 5 && Build([DoubleStar, Star, Plain("x"), Star, DoubleStar], 5, [Bold([Italic([InlineString("x")])])], None).1 == [Bold([Italic([InlineString("x")])])]
  {
    assert AllImplemented([DoubleStar, Star, Plain("x"), Star, DoubleStar]);
  }

  lemma NestedExampleStep9()
    ensures Build([DoubleStar, Star, Plain("x"), Star, DoubleStar], 0, [], None).0 == 5 && Build([DoubleStar, Star, Plain("x"), Star, DoubleStar], 0, [], None).1 == [Bold([Italic([InlineString("x")])])]
  {
    NestedExampleStep7();
    NestedExampleStep8();
  }

  /** Scopes nest. */
  lemma NestedExample()
    ensures Parse([DoubleStar, Star, Plain("x"), Star, DoubleStar]) == [Bold([Italic([InlineString("x")])])]
  {
    NestedExampleStep9();
  }

  lemma CrossedScopesExampleStep1()
    ensures Arm([Star, DoubleStar, Plain("x"), Star], 2, []).0 == 3 && Arm([Star, DoubleStar, Plain("x"), Star], 2, []).1 == [InlineString("x")]
  {
    assert AllImplemented([Star, DoubleStar, Plain("x"), Star]);
  }

  lemma CrossedScopesExampleStep2()
    ensures Build([Star, DoubleStar, Plain("x"), Star], 4, [], Some(Star)).0 == 4 && Build([Star, DoubleStar, Plain("x"), Star], 4, [], Some(Star)).1 == []
  {
    assert AllImplemented([Star, DoubleStar, Plain("x"), Star]);
  }

  lemma CrossedScopesExampleStep3()
    ensures Arm([Star, DoubleStar, Plain("x"), Star], 3, [InlineString("x")]).0 == 4 && Arm([Star, DoubleStar, Plain("x"), Star], 3, [InlineString("x")]).1 == [InlineString("x"), Italic([])]
  {
    CrossedScopesExampleStep2();
  }

  lemma CrossedScopesExampleStep4()
    ensures Build([Star, DoubleStar, Plain("x"), Star], 4, [InlineString("x"), Italic([])], Some(DoubleStar)).0 == 4 && Build([Star, DoubleStar, Plain("x"), Star], 4, [InlineString("x"), Italic([])], Some(DoubleStar)).1 == [InlineString("x"), Italic([])]
  {
    assert AllImplemented([Star, DoubleStar, Plain("x"), Star]);
  }

  lemma CrossedScopesExampleStep5()
    ensures Build([Star, DoubleStar, Plain("x"), Star], 3, [InlineString("x")], Some(DoubleStar)).0 == 4 && Build([Star, DoubleStar, Plain("x"), Star], 3, [InlineString("x")], Some(DoubleStar)).1 == [InlineString("x"), Italic([])]
  {
    CrossedScopesExampleStep3();
    CrossedScopesExampleStep4();
  }

  lemma CrossedScopesExampleStep6()
    ensures Build([Star, DoubleStar, Plain("x"), Star], 2, [], Some(DoubleStar)).0 == 4 && Build([Star, DoubleStar, Plain("x"), Star], 2, [], Some(DoubleStar)).1 == [InlineString("x"), Italic([])]
  {
    CrossedScopesExampleStep1();
    CrossedScopesExampleStep5();
  }

  lemma CrossedScopesExampleStep7()
    ensures Arm([Star, DoubleStar, Plain("x"), Star], 1, []).0 == 4 && Arm([Star, DoubleStar, Plain("x"), Star], 1, []).1 == [Bold([InlineString("x"), Italic([])])]
  {
    CrossedScopesExampleStep6();
  }

  lemma CrossedScopesExampleStep8()
    ensures Build([Star, DoubleStar, Plain("x"), Star], 4, [Bold([InlineString("x"), Italic([])])], Some(Star)).0 == 4 && Build([Star, DoubleStar, Plain("x"), Star], 4, [Bold([InlineString("x"), Italic([])])], Some(Star)).1 == [Bold([InlineString("x"), Italic([])])]
  {
    assert AllImplemented([Star, DoubleStar, Plain("x"), Star]);
  }

  lemma CrossedScopesExampleStep9()
    ensures Build([Star, DoubleStar, Plain("x"), Star], 1, [], Some(Star)).0 == 4 && Build([Star, DoubleStar, Plain("x"), Star], 1, [], Some(Star)).1 == [Bold([InlineString("x"), Italic([])])]
  {
    CrossedScopesExampleStep7();
    CrossedScopesExampleStep8();
  }

  lemma CrossedScopesExampleStep10()
    ensures Arm([Star, DoubleStar, Plain("x"), Star], 0, []).0 == 4 && Arm([Star, DoubleStar, Plain("x"), Star], 0, []).1 == [Italic([Bold([InlineString("x"), Italic([])])])]
  {
    CrossedScopesExampleStep9();
  }

  lemma CrossedScopesExampleStep11()
    ensures Build([Star, DoubleStar, Plain("x"), Star], 4, [Italic([Bold([InlineString("x"), Italic([])])])], None).0 == 4 && Build([Star, DoubleStar, Plain("x"), Star], 4, [Italic([Bold([InlineString("x"), Italic([])])])], None).1 == [Italic([Bold([InlineString("x"), Italic([])])])]
  {
    assert AllImplemented([Star, DoubleStar, Plain("x"), Star]);
  }

  lemma CrossedScopesExampleStep12()
    ensures Build([Star, DoubleStar, Plain("x"), Star], 0, [], None).0 == 4 && Build([Star, DoubleStar, Plain("x"), Star], 0, [], None).1 == [Italic([Bold([InlineString("x"), Italic([])])])]
  {
    CrossedScopesExampleStep10();
    CrossedScopesExampleStep11();
  }

  /** A call waits only for its own `until` token: the `*` inside the `**`
      scope opens a new scope instead of closing the outer one. */
  lemma CrossedScopesExample()
    ensures Parse([Star, DoubleStar, Plain("x"), Star]) == [Italic([Bold([InlineString("x"), Italic([])])])]
  {
    CrossedScopesExampleStep12();
  }

  /** `**bold**` through the tokenizer and the builder. */
  lemma TokenizeAndBuildExample()
    ensures AllImplemented(Tokens("**bold**"))
    ensures Parse(Tokens("**bold**")) == [Bold([InlineString("bold")])]
  {
    LegacyInlineTokenExamples.BoldExample();
    BoldExample();
  }
}
