/** The unit tests of the heading purifier, each stated as a lemma about
    `HeadOf`, which `PurifyHead` and `Purify` compute. The `...Split`
    and `...Pieces` lemmas cut the line at its spaces; the `...Title` lemmas
    evaluate the title and the id from the pieces. */
module LinePurifierExamples {
  import opened RustStr
  import opened LinePurifier

  lemma ProperSpacingExampleFirstId(ps: seq<string>)
    requires |ps| == 3 && ps[0] == "head" && ps[1] == "2" && ps[2] == "{#head-2}"
    ensures FirstIdPiece(ps, 0) == 2
  {
    NotIdByStart(ps[0]);
    NotIdByStart(ps[1]);
    assert "{#head-2}"[..2] == "{#" && "{#head-2}"[8..] == "}";
    assert FirstIdPiece(ps, 2) == 2;
    assert FirstIdPiece(ps, 1) == 2;
    assert FirstIdPiece(ps, 0) == 2;
  }

  lemma ProperSpacingExampleTitle(ps: seq<string>)
    requires |ps| == 3 && ps[0] == "head" && ps[1] == "2" && ps[2] == "{#head-2}"
    ensures TrimEnd(Spaced(ps[..2])) == "head 2"
  {
    assert ps[..0] == [];
    assert ps[..1] == ps[..0] + [ps[0]];
    SpacedSnoc(ps[..0], ps[0]);
    assert "" + "head" + " " == "head ";
    assert ps[..2] == ps[..1] + [ps[1]];
    SpacedSnoc(ps[..1], ps[1]);
    assert "head " + "2" + " " == "head 2 ";
    TrimEndSpace("head 2");
    assert "head 2" + " " == "head 2 ";
  }

  lemma ProperSpacingExampleId()
    ensures IsIdPiece("{#head-2}") && IdOf("{#head-2}") == "head-2"
  {
    assert "{#head-2}"[..2] == "{#" && "{#head-2}"[8..] == "}";
    assert "{#head-2}"[2..8] == "head-2";
  }

  lemma ProperSpacingExampleSplit2()
    ensures var t := Split("{#head-2}", ' '); |t| == 1 && t[0] == "{#head-2}"
  {
    SplitNoSep("{#head-2}", ' ');
  }

  lemma ProperSpacingExampleSplit1()
    ensures var t := Split("2 {#head-2}", ' '); |t| == 2 && t[0] == "2" && t[1] == "{#head-2}"
  {
    assert "2 {#head-2}"[..1] == "2";
    assert "2 {#head-2}"[2..] == "{#head-2}";
    SplitAt("2 {#head-2}", ' ', 1);
    ProperSpacingExampleSplit2();
  }

  lemma ProperSpacingExampleSplit0()
    ensures var t := Split("head 2 {#head-2}", ' '); |t| == 3 && t[0] == "head" && t[1] == "2" && t[2] == "{#head-2}"
  {
    assert "head 2 {#head-2}"[..4] == "head";
    assert "head 2 {#head-2}"[5..] == "2 {#head-2}";
    SplitAt("head 2 {#head-2}", ' ', 4);
    ProperSpacingExampleSplit1();
  }

  lemma ProperSpacingExamplePieces()
    ensures var t := TitlePieces("## head 2 {#head-2}"); |t| == 3 && t[0] == "head" && t[1] == "2" && t[2] == "{#head-2}"
  {
    assert "## head 2 {#head-2}"[3..] == "head 2 {#head-2}";
    SplitAt("## head 2 {#head-2}", ' ', 2);
    ProperSpacingExampleSplit0();
  }

  /** A space after the hashes and before the id: title, level and id. */
  lemma ProperSpacingExample()
    ensures HeadOf("## head 2 {#head-2}") == Head("head 2", 2, "head-2")
  {
    LeadingCountIs("## head 2 {#head-2}", '#', 2);
    ProperSpacingExamplePieces();
    ProperSpacingExampleFirstId(TitlePieces("## head 2 {#head-2}"));
    ProperSpacingExampleTitle(TitlePieces("## head 2 {#head-2}"));
    ProperSpacingExampleId();
  }

  /** No space after the hashes: the line fails unchanged. */
  lemma MissingSpaceExample()
    ensures HeadOf("##head 2 {#head-2}") == FailedText("##head 2 {#head-2}")
  {
    LeadingCountIs("##head 2 {#head-2}", '#', 2);
  }

  lemma GluedIdExampleFirstId(ps: seq<string>)
    requires |ps| == 2 && ps[0] == "head" && ps[1] == "2{#head-2}"
    ensures FirstIdPiece(ps, 0) == 2
  {
    NotIdByStart(ps[0]);
    NotIdByStart(ps[1]);
    assert FirstIdPiece(ps, 2) == 2;
    assert FirstIdPiece(ps, 1) == 2;
    assert FirstIdPiece(ps, 0) == 2;
  }

  lemma GluedIdExampleTitle(ps: seq<string>)
    requires |ps| == 2 && ps[0] == "head" && ps[1] == "2{#head-2}"
    ensures TrimEnd(Spaced(ps[..2])) == "head 2{#head-2}"
  {
    assert ps[..0] == [];
    assert ps[..1] == ps[..0] + [ps[0]];
    SpacedSnoc(ps[..0], ps[0]);
    assert "" + "head" + " " == "head ";
    assert ps[..2] == ps[..1] + [ps[1]];
    SpacedSnoc(ps[..1], ps[1]);
    assert "head " + "2{#head-2}" + " " == "head 2{#head-2} ";
    TrimEndSpace("head 2{#head-2}");
    assert "head 2{#head-2}" + " " == "head 2{#head-2} ";
  }

  lemma GluedIdExampleSplit1()
    ensures var t := Split("2{#head-2}", ' '); |t| == 1 && t[0] == "2{#head-2}"
  {
    SplitNoSep("2{#head-2}", ' ');
  }

  lemma GluedIdExampleSplit0()
    ensures var t := Split("head 2{#head-2}", ' '); |t| == 2 && t[0] == "head" && t[1] == "2{#head-2}"
  {
    assert "head 2{#head-2}"[..4] == "head";
    assert "head 2{#head-2}"[5..] == "2{#head-2}";
    SplitAt("head 2{#head-2}", ' ', 4);
    GluedIdExampleSplit1();
  }

  lemma GluedIdExamplePieces()
    ensures var t := TitlePieces("## head 2{#head-2}"); |t| == 2 && t[0] == "head" && t[1] == "2{#head-2}"
  {
    assert "## head 2{#head-2}"[3..] == "head 2{#head-2}";
    SplitAt("## head 2{#head-2}", ' ', 2);
    GluedIdExampleSplit0();
  }

  /** An id glued to the last word stays in the title. */
  lemma GluedIdExample()
    ensures HeadOf("## head 2{#head-2}") == Head("head 2{#head-2}", 2, "")
  {
    LeadingCountIs("## head 2{#head-2}", '#', 2);
    GluedIdExamplePieces();
    GluedIdExampleFirstId(TitlePieces("## head 2{#head-2}"));
    GluedIdExampleTitle(TitlePieces("## head 2{#head-2}"));
  }

  lemma SplitIdExampleFirstId(ps: seq<string>)
    requires |ps| == 4 && ps[0] == "head" && ps[1] == "2" && ps[2] == "{#" && ps[3] == "head-2}"
    ensures FirstIdPiece(ps, 0) == 4
  {
    NotIdByStart(ps[0]);
    NotIdByStart(ps[1]);
    NotIdByEnd(ps[2]);
    NotIdByStart(ps[3]);
    assert FirstIdPiece(ps, 4) == 4;
    assert FirstIdPiece(ps, 3) == 4;
    assert FirstIdPiece(ps, 2) == 4;
    assert FirstIdPiece(ps, 1) == 4;
    assert FirstIdPiece(ps, 0) == 4;
  }

  lemma SplitIdExampleTitle(ps: seq<string>)
    requires |ps| == 4 && ps[0] == "head" && ps[1] == "2" && ps[2] == "{#" && ps[3] == "head-2}"
    ensures TrimEnd(Spaced(ps[..4])) == "head 2 {# head-2}"
  {
    assert ps[..0] == [];
    assert ps[..1] == ps[..0] + [ps[0]];
    SpacedSnoc(ps[..0], ps[0]);
    assert "" + "head" + " " == "head ";
    assert ps[..2] == ps[..1] + [ps[1]];
    SpacedSnoc(ps[..1], ps[1]);
    assert "head " + "2" + " " == "head 2 ";
    assert ps[..3] == ps[..2] + [ps[2]];
    SpacedSnoc(ps[..2], ps[2]);
    assert "head 2 " + "{#" + " " == "head 2 {# ";
    assert ps[..4] == ps[..3] + [ps[3]];
    SpacedSnoc(ps[..3], ps[3]);
    assert "head 2 {# " + "head-2}" + " " == "head 2 {# head-2} ";
    TrimEndSpace("head 2 {# head-2}");
    assert "head 2 {# head-2}" + " " == "head 2 {# head-2} ";
  }

  lemma SplitIdExampleSplit3()
    ensures var t := Split("head-2}", ' '); |t| == 1 && t[0] == "head-2}"
  {
    SplitNoSep("head-2}", ' ');
  }

  lemma SplitIdExampleSplit2()
    ensures var t := Split("{# head-2}", ' '); |t| == 2 && t[0] == "{#" && t[1] == "head-2}"
  {
    assert "{# head-2}"[..2] == "{#";
    assert "{# head-2}"[3..] == "head-2}";
    SplitAt("{# head-2}", ' ', 2);
    SplitIdExampleSplit3();
  }

  lemma SplitIdExampleSplit1()
    ensures var t := Split("2 {# head-2}", ' '); |t| == 3 && t[0] == "2" && t[1] == "{#" && t[2] == "head-2}"
  {
    assert "2 {# head-2}"[..1] == "2";
    assert "2 {# head-2}"[2..] == "{# head-2}";
    SplitAt("2 {# head-2}", ' ', 1);
    SplitIdExampleSplit2();
  }

  lemma SplitIdExampleSplit0()
    ensures var t := Split("head 2 {# head-2}", ' '); |t| == 4 && t[0] == "head" && t[1] == "2" && t[2] == "{#" && t[3] == "head-2}"
  {
    assert "head 2 {# head-2}"[..4] == "head";
    assert "head 2 {# head-2}"[5..] == "2 {# head-2}";
    SplitAt("head 2 {# head-2}", ' ', 4);
    SplitIdExampleSplit1();
  }

  lemma SplitIdExamplePieces()
    ensures var t := TitlePieces("## head 2 {# head-2}"); |t| == 4 && t[0] == "head" && t[1] == "2" && t[2] == "{#" && t[3] == "head-2}"
  {
    assert "## head 2 {# head-2}"[3..] == "head 2 {# head-2}";
    SplitAt("## head 2 {# head-2}", ' ', 2);
    SplitIdExampleSplit0();
  }

  /** An id split by a space is not an id piece. */
  lemma SplitIdExample()
    ensures HeadOf("## head 2 {# head-2}") == Head("head 2 {# head-2}", 2, "")
  {
    LeadingCountIs("## head 2 {# head-2}", '#', 2);
    SplitIdExamplePieces();
    SplitIdExampleFirstId(TitlePieces("## head 2 {# head-2}"));
    SplitIdExampleTitle(TitlePieces("## head 2 {# head-2}"));
  }

  lemma SevenHashesExampleFirstId(ps: seq<string>)
    requires |ps| == 1 && ps[0] == "x"
    ensures FirstIdPiece(ps, 0) == 1
  {
    NotIdByStart(ps[0]);
    assert FirstIdPiece(ps, 1) == 1;
    assert FirstIdPiece(ps, 0) == 1;
  }

  lemma SevenHashesExampleTitle(ps: seq<string>)
    requires |ps| == 1 && ps[0] == "x"
    ensures TrimEnd(Spaced(ps[..1])) == "x"
  {
    assert ps[..0] == [];
    assert ps[..1] == ps[..0] + [ps[0]];
    SpacedSnoc(ps[..0], ps[0]);
    assert "" + "x" + " " == "x ";
    TrimEndSpace("x");
    assert "x" + " " == "x ";
  }

  lemma SevenHashesExampleSplit0()
    ensures var t := Split("x", ' '); |t| == 1 && t[0] == "x"
  {
    SplitNoSep("x", ' ');
  }

  lemma SevenHashesExamplePieces()
    ensures var t := TitlePieces("####### x"); |t| == 1 && t[0] == "x"
  {
    assert "####### x"[8..] == "x";
    SplitAt("####### x", ' ', 7);
    SevenHashesExampleSplit0();
  }

  /** Seven hashes still make a heading, of level 7. */
  lemma SevenHashesExample()
    ensures HeadOf("####### x") == Head("x", 7, "")
  {
    LeadingCountIs("####### x", '#', 7);
    SevenHashesExamplePieces();
    SevenHashesExampleFirstId(TitlePieces("####### x"));
    SevenHashesExampleTitle(TitlePieces("####### x"));
  }
}
