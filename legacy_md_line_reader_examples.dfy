/** A short document read by the older line reader: a heading, a fenced code
    block holding a heading-like line, and a tab-led line after the block. */
module LegacyLineReaderExamples {
  import opened RustStr
  import opened LegacyLineReader
  import LineReaderExamples

  const Document: seq<string> := ["# Title", "```", "# not a heading", "```", "\tcode"]

  lemma DocumentFlags()
    ensures !FlagAfter(Document, 1)
    ensures FlagAfter(Document, 2) && FlagAfter(Document, 3)
    ensures !FlagAfter(Document, 4)
  {
    assert Document[1][..3] == "```" && Document[3][..3] == "```";
    if IsFence(Document[0]) {
      StartsWithAt(Document[0], "```", 0);
    }
    if IsFence(Document[2]) {
      StartsWithAt(Document[2], "```", 0);
    }
  }

  lemma HeadingLine()
    ensures Classify(false, "# Title") == Head("# Title")
  {
    assert "# Title"[..1] == "#";
  }

  lemma FenceLines()
    ensures Classify(false, "```") == CodeStart
    ensures Classify(true, "```") == CodeEnd
  {
    assert "```"[..3] == "```";
    FenceStarts("```");
  }

  /** Inside the block a heading-like line is text. */
  lemma LineInsideBlock()
    ensures Classify(true, "# not a heading") == Text("# not a heading")
  {
    if StartsWith("# not a heading", "```") {
      StartsWithAt("# not a heading", "```", 0);
    }
  }

  /** There is no tab rule: a tab-led line is text. */
  lemma TabLine()
    ensures Classify(false, "\tcode") == Text("\tcode")
  {
    LineReaderExamples.TabbedLineExample();
    AgreesWithNewer("\tcode");
  }

  lemma DocumentExample()
    ensures ReadLines(Document) ==
            [Head("# Title"), CodeStart, Text("# not a heading"), CodeEnd, Text("\tcode")]
  {
    DocumentFlags();
    HeadingLine();
    FenceLines();
    LineInsideBlock();
    TabLine();
  }
}
