/** The older line reader of the `src` tree. Outside a code block it applies
    the same prefix rules as the newer classifier, minus the tab rule; a fence
    line opens a code block, and inside one every line is plain text until the
    next fence closes it. */
module LegacyLineReader {
  import opened RustStr
  import LineReader

  datatype MdRawLine =
    | Head(line: string)
    | Quote(line: string)
    | OList(line: string)
    | UList(line: string)
    | Image(line: string)
    | Table(line: string)
    | CodeStart
    | CodeEnd
    | Definition(line: string)
    | TaskLine(line: string)
    | TabbedLine(line: string)
    | HR
    | Text(line: string)
    | EmptyLine

  /** The classes that carry a payload. */
  predicate HasLine(m: MdRawLine) {
    !(m.CodeStart? || m.CodeEnd? || m.HR? || m.EmptyLine?)
  }

  /** A line that opens or closes a code block. */
  predicate IsFence(line: string) {
    StartsWith(line, "```")
  }

  /** The class one call of the reader's `map` closure gives `line`, given
      the code-block flag. No rule yields `TabbedLine`. */
  function Classify(inCodeBlock: bool, line: string): (r: MdRawLine)
    ensures HasLine(r) ==> r.line == line
    ensures !r.TabbedLine?
  {
    if inCodeBlock then
      if StartsWith(line, "```") then CodeEnd else Text(line)
    else if StartsWith(line, "#") then Head(line)
    else if StartsWith(line, "> ") then Quote(line)
    else if StartsWith(line, "- [ ] ") || StartsWith(line, "- [X] ") then TaskLine(line)
    else if LineReader.StartsWithOrderedListPattern(line) then OList(line)
    else if StartsWith(line, "- ") then UList(line)
    else if StartsWith(line, "---") then HR
    else if StartsWith(line, "![") then Image(line)
    else if StartsWith(line, "|") then Table(line)
    else if StartsWith(line, "```") then CodeStart
    else if StartsWith(line, ": ") then Definition(line)
    else if StartsWith(line, "\n") then EmptyLine
    else Text(line)
  }

  /** The code-block flag after the first `n` lines: each fence flips it. */
  function FlagAfter(lines: seq<string>, n: nat): bool
    requires n <= |lines|
  {
    if n == 0 then false else FlagAfter(lines, n - 1) != IsFence(lines[n - 1])
  }

  /** `to_mdlines`: one class per line, in order, each line classified with
      the flag the lines before it leave. */
  function ReadLines(lines: seq<string>): (r: seq<MdRawLine>)
  {
    seq(|lines|, i requires 0 <= i < |lines| => Classify(FlagAfter(lines, i), lines[i]))
  }

  /** `to_mdlines`, with the file already split into lines: the closure's
      `in_code_block` flag is a local that each line may flip. */
  method ToMdLines(lines: seq<string>) returns (r: seq<MdRawLine>)
    ensures r == ReadLines(lines)
  {
    var inCodeBlock := false;
    r := [];
    for i := 0 to |lines|
      invariant r == ReadLines(lines[..i])
      invariant |r| == i
      invariant inCodeBlock == FlagAfter(lines, i)
    {
      var line := lines[i];
      FenceStarts(line);
      var m: MdRawLine;
      if inCodeBlock {
        if StartsWith(line, "```") {
          inCodeBlock := false;
          m := CodeEnd;
        } else {
          m := Text(line);
        }
      } else if StartsWith(line, "#") {
        m := Head(line);
      } else if StartsWith(line, "> ") {
        m := Quote(line);
      } else if StartsWith(line, "- [ ] ") || StartsWith(line, "- [X] ") {
        m := TaskLine(line);
      } else if LineReader.StartsWithOrderedListPattern(line) {
        m := OList(line);
      } else if StartsWith(line, "- ") {
        m := UList(line);
      } else if StartsWith(line, "---") {
        m := HR;
      } else if StartsWith(line, "![") {
        m := Image(line);
      } else if StartsWith(line, "|") {
        m := Table(line);
      } else if StartsWith(line, "```") {
        inCodeBlock := true;
        m := CodeStart;
      } else if StartsWith(line, ": ") {
        m := Definition(line);
      } else if StartsWith(line, "\n") {
        m := EmptyLine;
      } else {
        m := Text(line);
      }
      r := r + [m];
      ReadLinesSnoc(lines, i);
    }
    assert lines[..|lines|] == lines;
  }

  /** Outside a code block no rule before the fence rule claims a line that
      starts with a fence, so the fence rule sets the flag exactly on fences. */
  lemma FenceStarts(line: string)
    ensures IsFence(line) ==> Classify(false, line) == CodeStart
  {
    LineReader.RuleCharacters(line);
  }

  /** The class the newer classifier gives, in this reader's terms: the newer
      `CodeBlock` is `CodeStart` here, and a tab-led line is plain text. */
  function FromNewer(m: LineReader.MdRawLine): MdRawLine {
    match m
    case Head(l) => Head(l)
    case Quote(l) => Quote(l)
    case OList(l) => OList(l)
    case UList(l) => UList(l)
    case Image(l) => Image(l)
    case Table(l) => Table(l)
    case CodeBlock => CodeStart
    case Definition(l) => Definition(l)
    case TaskLine(l) => TaskLine(l)
    case TabbedLine(l) => Text(l)
    case HR => HR
    case Text(l) => Text(l)
    case EmptyLine => EmptyLine
  }

  /** Outside a code block both readers share every prefix rule but the tab
      rule, which this one lacks. */
  lemma AgreesWithNewer(line: string)
    ensures Classify(false, line) == FromNewer(LineReader.ToMdLine(line))
  {
    if StartsWith(line, "#") || StartsWith(line, "> ") || StartsWith(line, "- [ ] ") || StartsWith(line, "- [X] ") ||
             LineReader.StartsWithOrderedListPattern(line) {
      AgreesFirstRules(line);
    } else if StartsWith(line, "- ") || StartsWith(line, "---") || StartsWith(line, "![") || StartsWith(line, "|") {
      AgreesMiddleRules(line);
    } else {
      AgreesLastRules(line);
    }
  }

  lemma AgreesFirstRules(line: string)
    requires StartsWith(line, "#") || StartsWith(line, "> ") || StartsWith(line, "- [ ] ") || StartsWith(line, "- [X] ") ||
             LineReader.StartsWithOrderedListPattern(line)
    ensures Classify(false, line) == FromNewer(LineReader.ToMdLine(line))
  {
    if StartsWith(line, "#") {
      assert Classify(false, line) == FromNewer(LineReader.ToMdLine(line));
    } else if StartsWith(line, "> ") {
      assert Classify(false, line) == FromNewer(LineReader.ToMdLine(line));
    } else if StartsWith(line, "- [ ] ") || StartsWith(line, "- [X] ") {
      assert Classify(false, line) == FromNewer(LineReader.ToMdLine(line));
    }
  }

  lemma AgreesMiddleRules(line: string)
    requires !(StartsWith(line, "#") || StartsWith(line, "> ") || StartsWith(line, "- [ ] ") || StartsWith(line, "- [X] ") ||
             LineReader.StartsWithOrderedListPattern(line))
    requires StartsWith(line, "- ") || StartsWith(line, "---") || StartsWith(line, "![") || StartsWith(line, "|")
    ensures Classify(false, line) == FromNewer(LineReader.ToMdLine(line))
  {
    if StartsWith(line, "- ") {
      assert Classify(false, line) == FromNewer(LineReader.ToMdLine(line));
    } else if StartsWith(line, "---") {
      assert Classify(false, line) == FromNewer(LineReader.ToMdLine(line));
    } else if StartsWith(line, "![") {
      assert Classify(false, line) == FromNewer(LineReader.ToMdLine(line));
    }
  }

  lemma AgreesLastRules(line: string)
    requires !(StartsWith(line, "#") || StartsWith(line, "> ") || StartsWith(line, "- [ ] ") || StartsWith(line, "- [X] ") ||
             LineReader.StartsWithOrderedListPattern(line))
    requires !(StartsWith(line, "- ") || StartsWith(line, "---") || StartsWith(line, "![") || StartsWith(line, "|"))
    ensures Classify(false, line) == FromNewer(LineReader.ToMdLine(line))
  {
    if StartsWith(line, "```") {
      assert Classify(false, line) == FromNewer(LineReader.ToMdLine(line));
    } else if StartsWith(line, ": ") {
      assert Classify(false, line) == FromNewer(LineReader.ToMdLine(line));
    } else {
      assert Classify(false, line) == FromNewer(LineReader.ToMdLine(line));
    }
  }

  /** Number of fence lines among the first `n`. */
  function FenceCount(lines: seq<string>, n: nat): nat
    requires n <= |lines|
  {
    if n == 0 then 0 else FenceCount(lines, n - 1) + (if IsFence(lines[n - 1]) then 1 else 0)
  }

  /** A code block is open after an odd number of fences. */
  lemma {:induction false} FlagParity(lines: seq<string>, n: nat)
    requires n <= |lines|
    ensures FlagAfter(lines, n) == (FenceCount(lines, n) % 2 == 1)
  {
    if n > 0 {
      FlagParity(lines, n - 1);
    }
  }

  /** The flag before line `i` depends only on the lines before it. */
  lemma {:induction false} FlagAfterPrefix(lines: seq<string>, n: nat, m: nat)
    requires n <= m <= |lines|
    ensures FlagAfter(lines[..m], n) == FlagAfter(lines, n)
  {
    if n > 0 {
      FlagAfterPrefix(lines, n - 1, m);
      assert lines[..m][n - 1] == lines[n - 1];
    }
  }

  /** Reading one more line appends its class. */
  lemma ReadLinesSnoc(lines: seq<string>, i: nat)
    requires i < |lines|
    ensures ReadLines(lines[..i + 1]) == ReadLines(lines[..i]) + [Classify(FlagAfter(lines, i), lines[i])]
  {
    var l, r := ReadLines(lines[..i + 1]), ReadLines(lines[..i]) + [Classify(FlagAfter(lines, i), lines[i])];
    forall k | 0 <= k < |l|
      ensures l[k] == r[k]
    {
      FlagAfterPrefix(lines, k, i + 1);
      if k < i {
        FlagAfterPrefix(lines, k, i);
      }
    }
  }

  /** The class of line `i`, one class per line and in order: inside a code
      block (after an odd number of fences) a fence closes it and any other
      line is text; outside, the line is classified as the newer reader does,
      with the differences `FromNewer` names. */
  lemma ReadLinesAt(lines: seq<string>, i: nat)
    requires i < |lines|
    ensures FenceCount(lines, i) % 2 == 1 && IsFence(lines[i]) ==> ReadLines(lines)[i] == CodeEnd
    ensures FenceCount(lines, i) % 2 == 1 && !IsFence(lines[i]) ==> ReadLines(lines)[i] == Text(lines[i])
    ensures FenceCount(lines, i) % 2 == 0 ==>
              ReadLines(lines)[i] == FromNewer(LineReader.ToMdLine(lines[i]))
  {
    FlagParity(lines, i);
    if FenceCount(lines, i) % 2 == 0 {
      AgreesWithNewer(lines[i]);
    }
  }

  /** Reading a document that does not end inside a code block, then more
      lines, reads the two parts separately. */
  lemma {:induction false} ReadLinesAppend(a: seq<string>, b: seq<string>)
    requires FenceCount(a, |a|) % 2 == 0
    ensures ReadLines(a + b) == ReadLines(a) + ReadLines(b)
  {
    var l, r := ReadLines(a + b), ReadLines(a) + ReadLines(b);
    forall i | 0 <= i < |l|
      ensures l[i] == r[i]
    {
      FlagAfterAppend(a, b, i);
      if i < |a| {
        assert (a + b)[i] == a[i];
      } else {
        assert (a + b)[i] == b[i - |a|];
      }
    }
  }

  /** After a part with an even number of fences, the flag restarts. */
  lemma FlagAfterAppend(a: seq<string>, b: seq<string>, i: nat)
    requires FenceCount(a, |a|) % 2 == 0
    requires i < |a| + |b|
    ensures i < |a| ==> FlagAfter(a + b, i) == FlagAfter(a, i)
    ensures |a| <= i ==> FlagAfter(a + b, i) == FlagAfter(b, i - |a|)
  {
    FlagParity(a + b, i);
    if i < |a| {
      FlagParity(a, i);
      FenceCountPrefix(a, b, i);
    } else {
      FlagParity(b, i - |a|);
      FenceCountSuffix(a, b, i);
    }
  }

  lemma {:induction false} FenceCountPrefix(a: seq<string>, b: seq<string>, n: nat)
    requires n <= |a|
    ensures FenceCount(a + b, n) == FenceCount(a, n)
  {
    if n > 0 {
      FenceCountPrefix(a, b, n - 1);
      assert (a + b)[n - 1] == a[n - 1];
    }
  }

  lemma {:induction false} FenceCountSuffix(a: seq<string>, b: seq<string>, n: nat)
    requires |a| <= n <= |a| + |b|
    ensures FenceCount(a + b, n) == FenceCount(a, |a|) + FenceCount(b, n - |a|)
  {
    if n == |a| {
      FenceCountPrefix(a, b, n);
    } else {
      FenceCountSuffix(a, b, n - 1);
      assert (a + b)[n - 1] == b[n - 1 - |a|];
    }
  }
}
