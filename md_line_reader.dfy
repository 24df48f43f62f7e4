/** The `md_parser` line classifier: every raw line of a document is put in one
    class by the first prefix rule that matches it. */
module LineReader {
  import opened RustStr

  datatype MdRawLine =
    | Head(line: string)
    | Quote(line: string)
    | OList(line: string)
    | UList(line: string)
    | Image(line: string)
    | Table(line: string)
    | CodeBlock
    | Definition(line: string)
    | TaskLine(line: string)
    | TabbedLine(line: string)
    | HR
    | Text(line: string)
    | EmptyLine

  /** The classes that carry a payload. */
  predicate HasLine(m: MdRawLine) {
    !(m.CodeBlock? || m.HR? || m.EmptyLine?)
  }

  predicate IsDigit(c: char) {
    '0' <= c <= '9'
  }

  predicate AllDigits(s: string) {
    forall i | 0 <= i < |s| :: IsDigit(s[i])
  }

  lemma DigitsHaveNoDot(s: string)
    requires AllDigits(s)
    ensures '.' !in s
  {
  }

  /** The decimal value of a digit string, most significant digit first. */
  function DigitsValue(s: string): nat
    requires AllDigits(s)
  {
    if s == [] then 0
    else DigitsValue(s[..|s| - 1]) * 10 + (s[|s| - 1] as int - '0' as int)
  }

  function Pow10(n: nat): nat {
    if n == 0 then 1 else 10 * Pow10(n - 1)
  }

  const U32_MAX: nat := 0xFFFF_FFFF

  /** Rust's `u32::from_str`: an optional `+`, then at least one decimal digit,
      and a value that fits in 32 bits. */
  predicate ParsesAsU32(s: string) {
    var digits := if |s| > 0 && s[0] == '+' then s[1..] else s;
    |digits| > 0 && AllDigits(digits) && DigitsValue(digits) <= U32_MAX
  }

  /** `starts_with_ordered_list_pattern`: the first piece of `line.split('.')`
      parses as a `u32`. */
  predicate StartsWithOrderedListPattern(line: string) {
    ParsesAsU32(Split(line, '.')[0])
  }

  /** `to_mdline`: the prefix rules in priority order. */
  function ToMdLine(line: string): (r: MdRawLine)
    ensures HasLine(r) ==> r.line == line
  {
    if StartsWith(line, "#") then Head(line)
    else if StartsWith(line, "> ") then Quote(line)
    else if StartsWith(line, "- [ ] ") || StartsWith(line, "- [X] ") then TaskLine(line)
    else if StartsWithOrderedListPattern(line) then OList(line)
    else if StartsWith(line, "- ") then UList(line)
    else if StartsWith(line, "---") then HR
    else if StartsWith(line, "![") then Image(line)
    else if StartsWith(line, "|") then Table(line)
    else if StartsWith(line, "```") then CodeBlock
    else if StartsWith(line, ": ") then Definition(line)
    else if StartsWith(line, "\t") then TabbedLine(line)
    else if StartsWith(line, "\n") then EmptyLine
    else Text(line)
  }

  /** `to_mdlines`: one class per line, in order. */
  function ToMdLines(lines: seq<string>): (r: seq<MdRawLine>)
    ensures |r| == |lines|
    ensures forall i | 0 <= i < |lines| :: r[i] == ToMdLine(lines[i])
  {
    if lines == [] then [] else [ToMdLine(lines[0])] + ToMdLines(lines[1..])
  }

  /** Classifying a document split in two classifies each part. */
  lemma {:induction false} ToMdLinesAppend(a: seq<string>, b: seq<string>)
    ensures ToMdLines(a + b) == ToMdLines(a) + ToMdLines(b)
  {
    var l, r := ToMdLines(a + b), ToMdLines(a) + ToMdLines(b);
    assert |l| == |r|;
    forall i | 0 <= i < |l|
      ensures l[i] == r[i]
    {
      if i < |a| {
        assert (a + b)[i] == a[i];
      } else {
        assert (a + b)[i] == b[i - |a|];
      }
    }
  }

  /** A string that parses as a `u32` starts with a digit or `+`. */
  lemma ParsesAsU32Start(s: string)
    requires ParsesAsU32(s)
    ensures |s| > 0 && (IsDigit(s[0]) || s[0] == '+')
  {
    var digits := if |s| > 0 && s[0] == '+' then s[1..] else s;
    assert IsDigit(digits[0]);
  }

  /** The ordered-list test reads only the text before the first `.`. */
  lemma OrderedListBeforeDot(line: string)
    ensures StartsWithOrderedListPattern(line) <==> ParsesAsU32(BeforeFirst(line, '.'))
  {
    SplitFirst(line, '.');
  }

  /** A line that is an ordered-list item starts with a digit or `+`. */
  lemma OrderedListStart(line: string)
    requires StartsWithOrderedListPattern(line)
    ensures |line| > 0 && (IsDigit(line[0]) || line[0] == '+')
  {
    OrderedListBeforeDot(line);
    var p := BeforeFirst(line, '.');
    ParsesAsU32Start(p);
    assert line[0] == p[0];
  }

  lemma {:induction false} DigitsValueBound(s: string)
    requires AllDigits(s)
    ensures DigitsValue(s) < Pow10(|s|)
  {
    if s != [] {
      DigitsValueBound(s[..|s| - 1]);
    }
  }

  lemma {:induction false} Pow10Monotone(m: nat, n: nat)
    requires m <= n
    ensures Pow10(m) <= Pow10(n)
  {
    if m < n {
      Pow10Monotone(m, n - 1);
    }
  }

  /** Up to nine digits followed by a dot always make an ordered-list item:
      such a number cannot overflow a `u32`. */
  lemma DigitsThenDot(digits: string, rest: string)
    requires 0 < |digits| <= 9 && AllDigits(digits)
    ensures StartsWithOrderedListPattern(digits + "." + rest)
  {
    var line := digits + "." + rest;
    OrderedListBeforeDot(line);
    BeforeFirstAt(digits, '.', rest);
    DigitsValueBound(digits);
    Pow10Monotone(|digits|, 9);
    assert Pow10(9) == 1000000000;
  }

  /** The characters of a line that tell the prefix rules apart. */
  lemma RuleCharacters(line: string)
    ensures StartsWith(line, "#") ==> line[0] == '#'
    ensures StartsWith(line, "> ") ==> line[0] == '>'
    ensures StartsWith(line, "- [ ] ") ==> line[0] == '-' && line[1] == ' '
    ensures StartsWith(line, "- [X] ") ==> line[0] == '-' && line[1] == ' '
    ensures StartsWithOrderedListPattern(line) ==> |line| > 0 && (IsDigit(line[0]) || line[0] == '+')
    ensures StartsWith(line, "- ") ==> line[0] == '-' && line[1] == ' '
    ensures StartsWith(line, "---") ==> line[0] == '-' && line[1] == '-'
    ensures StartsWith(line, "![") ==> line[0] == '!'
    ensures StartsWith(line, "|") ==> line[0] == '|'
    ensures StartsWith(line, "```") ==> line[0] == '`'
    ensures StartsWith(line, ": ") ==> line[0] == ':'
    ensures StartsWith(line, "\t") ==> line[0] == '\t'
  {
    if StartsWithOrderedListPattern(line) {
      OrderedListStart(line);
    }
    if StartsWith(line, "#") {
      StartsWithAt(line, "#", 0);
    }
    if StartsWith(line, "![") {
      StartsWithAt(line, "![", 0);
    }
    if StartsWith(line, "|") {
      StartsWithAt(line, "|", 0);
    }
    if StartsWith(line, "```") {
      StartsWithAt(line, "```", 0);
    }
    if StartsWith(line, ": ") {
      StartsWithAt(line, ": ", 0);
    }
    if StartsWith(line, "\t") {
      StartsWithAt(line, "\t", 0);
    }
    if StartsWith(line, "> ") {
      StartsWithAt(line, "> ", 0);
      StartsWithAt(line, "> ", 1);
    }
    if StartsWith(line, "- [ ] ") {
      StartsWithAt(line, "- [ ] ", 0);
      StartsWithAt(line, "- [ ] ", 1);
    }
    if StartsWith(line, "- [X] ") {
      StartsWithAt(line, "- [X] ", 0);
      StartsWithAt(line, "- [X] ", 1);
    }
    if StartsWith(line, "- ") {
      StartsWithAt(line, "- ", 0);
      StartsWithAt(line, "- ", 1);
    }
    if StartsWith(line, "---") {
      StartsWithAt(line, "---", 0);
      StartsWithAt(line, "---", 1);
    }
  }

  /** Which rule decides the class of a line: a line's first characters settle
      its class, whatever the rest of the line holds, except that `- [ ] ` and
      `- [X] ` take precedence over `- `; a line that no rule matches, and only
      such a line, is Text holding the whole line. */
  lemma PrefixDecides(line: string)
    ensures StartsWith(line, "#") ==> ToMdLine(line) == Head(line)
    ensures StartsWith(line, "> ") ==> ToMdLine(line) == Quote(line)
    ensures StartsWith(line, "- [ ] ") || StartsWith(line, "- [X] ") ==> ToMdLine(line) == TaskLine(line)
    ensures ToMdLine(line).OList? <==> StartsWithOrderedListPattern(line)
    ensures StartsWith(line, "- ") && !StartsWith(line, "- [ ] ") && !StartsWith(line, "- [X] ") ==>
              ToMdLine(line) == UList(line)
    ensures StartsWith(line, "---") ==> ToMdLine(line) == HR
    ensures StartsWith(line, "![") ==> ToMdLine(line) == Image(line)
    ensures StartsWith(line, "|") ==> ToMdLine(line) == Table(line)
    ensures StartsWith(line, "```") ==> ToMdLine(line) == CodeBlock
    ensures StartsWith(line, ": ") ==> ToMdLine(line) == Definition(line)
    ensures StartsWith(line, "\t") ==> ToMdLine(line) == TabbedLine(line)
    ensures StartsWith(line, "\n") ==> ToMdLine(line) == EmptyLine
    ensures ToMdLine(line) == Text(line) <==>
              !StartsWith(line, "#") && !StartsWith(line, "> ") && !StartsWith(line, "- [ ] ") &&
              !StartsWith(line, "- [X] ") && !StartsWithOrderedListPattern(line) && !StartsWith(line, "- ") &&
              !StartsWith(line, "---") && !StartsWith(line, "![") && !StartsWith(line, "|") &&
              !StartsWith(line, "```") && !StartsWith(line, ": ") && !StartsWith(line, "\t") &&
              !StartsWith(line, "\n")
  {
    RuleCharacters(line);
  }
}
