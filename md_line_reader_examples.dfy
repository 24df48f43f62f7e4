/** The unit tests of `starts_with_ordered_list_pattern`, the `u32` limit of
    the ordered-list test, and a few classified lines. */
module LineReaderExamples {
  import opened RustStr
  import opened LineReader

  /** `"1. jsdf"` and `"1. "`: a number, then a dot. */
  lemma NumberDotExamples()
    ensures StartsWithOrderedListPattern("1. jsdf")
    ensures StartsWithOrderedListPattern("1. ")
  {
    DigitsThenDot("1", " jsdf");
    assert "1" + "." + " jsdf" == "1. jsdf";
    DigitsThenDot("1", " ");
    assert "1" + "." + " " == "1. ";
  }

  /** `"1.jsdf."`: only the text before the first dot is read. */
  lemma FirstDotExample()
    ensures StartsWithOrderedListPattern("1.jsdf.")
  {
    DigitsThenDot("1", "jsdf.");
    assert "1" + "." + "jsdf." == "1.jsdf.";
  }

  /** `" 1jsdf"` and `" 1jsdf."`: a leading space is not part of a number. */
  lemma LeadingSpaceExamples()
    ensures !StartsWithOrderedListPattern(" 1jsdf")
    ensures !StartsWithOrderedListPattern(" 1jsdf.")
  {
    if StartsWithOrderedListPattern(" 1jsdf") {
      OrderedListStart(" 1jsdf");
    }
    if StartsWithOrderedListPattern(" 1jsdf.") {
      OrderedListStart(" 1jsdf.");
    }
  }

  lemma LeadingDigitsValue()
    ensures DigitsValue("42949") == 42949
  {
    assert DigitsValue("4") == 4;
    assert "42"[..1] == "4";
    assert DigitsValue("42") == 42;
    assert "429"[..2] == "42";
    assert DigitsValue("429") == 429;
    assert "4294"[..3] == "429";
    assert DigitsValue("4294") == 4294;
    assert "42949"[..4] == "4294";
    assert DigitsValue("42949") == 42949;
  }

  lemma NineDigitsValue()
    ensures DigitsValue("429496729") == 429496729
  {
    LeadingDigitsValue();
    assert "429496"[..5] == "42949";
    assert DigitsValue("429496") == 429496;
    assert "4294967"[..6] == "429496";
    assert DigitsValue("4294967") == 4294967;
    assert "42949672"[..7] == "4294967";
    assert DigitsValue("42949672") == 42949672;
    assert "429496729"[..8] == "42949672";
    assert DigitsValue("429496729") == 429496729;
  }

  lemma MaxValue()
    ensures AllDigits("4294967295") && DigitsValue("4294967295") == 4294967295
  {
    NineDigitsValue();
    assert "4294967295"[..9] == "429496729";
  }

  lemma OverflowValue()
    ensures AllDigits("4294967296") && DigitsValue("4294967296") == 4294967296
  {
    NineDigitsValue();
    assert "4294967296"[..9] == "429496729";
  }

  lemma MaxParses()
    ensures ParsesAsU32("4294967295")
  {
    MaxValue();
    assert "4294967295"[0] == '4';
  }

  lemma OverflowFails()
    ensures !ParsesAsU32("4294967296")
  {
    OverflowValue();
    assert "4294967296"[0] == '4';
  }

  lemma U32MaxExamplePiece()
    ensures BeforeFirst("4294967295. x", '.') == "4294967295"
  {
    MaxValue();
    DigitsHaveNoDot("4294967295");
    assert "4294967295. x"[..10] == "4294967295";
    BeforeFirstIs("4294967295. x", '.', 10);
  }

  /** The largest `u32` still numbers a list item. */
  lemma U32MaxExample()
    ensures StartsWithOrderedListPattern("4294967295. x")
  {
    OrderedListBeforeDot("4294967295. x");
    U32MaxExamplePiece();
    MaxParses();
  }

  lemma U32OverflowExamplePiece()
    ensures BeforeFirst("4294967296. x", '.') == "4294967296"
  {
    OverflowValue();
    DigitsHaveNoDot("4294967296");
    assert "4294967296. x"[..10] == "4294967296";
    BeforeFirstIs("4294967296. x", '.', 10);
  }

  /** One more overflows, so the line is not an ordered-list item. */
  lemma U32OverflowExample()
    ensures !StartsWithOrderedListPattern("4294967296. x")
  {
    OrderedListBeforeDot("4294967296. x");
    U32OverflowExamplePiece();
    OverflowFails();
  }

  /** A leading `+` is accepted by the `u32` parser. */
  lemma PlusSignExample()
    ensures StartsWithOrderedListPattern("+3. x")
  {
    OrderedListBeforeDot("+3. x");
    BeforeFirstAt("+3", '.', " x");
    assert "+3" + "." + " x" == "+3. x";
    assert "+3"[1..] == "3";
  }

  /** A task line is not an unordered item. */
  lemma TaskLineExample()
    ensures ToMdLine("- [X] done") == TaskLine("- [X] done")
  {
    assert "- [X] done"[..6] == "- [X] ";
    PrefixDecides("- [X] done");
  }

  lemma UListExample()
    ensures ToMdLine("- item") == UList("- item")
  {
    assert "- item"[..2] == "- ";
    if StartsWith("- item", "- [ ] ") {
      StartsWithAt("- item", "- [ ] ", 2);
    }
    if StartsWith("- item", "- [X] ") {
      StartsWithAt("- item", "- [X] ", 2);
    }
    PrefixDecides("- item");
  }

  /** Three dashes are a rule, not an unordered item. */
  lemma RuleExample()
    ensures ToMdLine("---") == HR
  {
    assert "---"[..3] == "---";
    PrefixDecides("---");
  }

  lemma TabbedLineExample()
    ensures ToMdLine("\tcode") == TabbedLine("\tcode")
  {
    assert "\tcode"[..1] == "\t";
    PrefixDecides("\tcode");
  }

  lemma FenceExample()
    ensures ToMdLine("```rust") == CodeBlock
  {
    assert "```rust"[..3] == "```";
    PrefixDecides("```rust");
  }
}
