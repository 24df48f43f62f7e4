# md-parser in Dafny

A Dafny model of the working core of `md-parser`, an unfinished Markdown parser written in Rust.
The repository holds two generations of the code: an older `src/` tree and a newer `md_parser/` crate.
Each piece is modelled on its own, in the form the Rust code takes:

- **Inline tokenizers.** Both turn a line's text into `InlineToken`s, growing a token buffer by push or by rewriting its last element.
  - The newer one (`InlineTokens`) resolves backslash escapes.
  - The older one (`LegacyInlineTokens`) pairs `*` and `=` into double tokens.
  - Each is an imperative method. Each is proved equal to a left fold of a one-character `Step` function, and the properties are proved about that fold.
- **Inline tree builder** (`MdInlineBuilder`). A recursive method over a shared cursor (a position into the token list) and an output list.
  - It is proved equal to the functions `Build`/`Arm`, which recurse the same way.
  - The lemmas show that the output only grows, and that every character of text reaches the tree.
- **Heading purifier** (`LinePurifier`). `purify_head` counts the leading `#`, fails on junk before the first space, and splits the rest into a title and an optional `{#id}`.
  - Its two loops are methods, proved equal to the declarative `HeadOf`.
- **Line classifiers.**
  - The newer `to_mdline`/`to_mdlines` (`LineReader`) are pure functions.
  - The older `to_mdlines` (`LegacyLineReader`) is a loop that threads the `in_code_block` flag. It is proved equal to `ReadLines`, and compared rule by rule with the newer classifier.
- **String helpers** (`RustStr`). The Rust standard-library string operations the code relies on: `starts_with`, `ends_with`, `split`, `trim_end`, and `char::is_whitespace`.

The `...Examples` modules state the repository's unit tests as lemmas, plus a few more worked inputs.

The code implements less than a full inline engine, and the model follows the code:

- The older tokenizer has no `Star{3}`-style multiplicity: a pair of stars becomes one `DoubleStar`, and a third star starts over.
- There are no code, link or footnote scopes in the builder.
- The `src` comment on `TabbedLine` mentions three leading spaces, but no rule in `src/md_line_reader.rs` produces `TabbedLine`.

## Model

| member | source | states |
|---|---|---|
| RustStr.Split | md_parser/src/md_line_reader.rs:67-68 | `str::split` yields at least one piece, and no piece contains the separator |
| RustStr.SplitJoin | src/md_line_purifier.rs:64 | re-joining the pieces of `split` with the separator gives back the input |
| RustStr.SplitAtSep | src/md_line_purifier.rs:64 | splitting `a + sep + b` splits `a` and `b` separately |
| RustStr.TrimEnd | src/md_line_purifier.rs:83 | `trim_end` removes exactly the trailing run of Unicode whitespace: the result is a prefix that does not end in whitespace, and everything cut is whitespace |
| RustStr.LeadingCount | src/md_line_purifier.rs:44-50 | the length of the leading run of one character: all of it is that character, and the next one is not |
| RustStr.BeforeFirst | md_parser/src/md_line_reader.rs:67-68 | the text before the first separator: a separator-free prefix followed by the separator or the end |
| RustStr.SplitFirst | md_parser/src/md_line_reader.rs:67-68 | the first piece of `split` is the text before the first separator |
| LineReader.ToMdLine | md_parser/src/md_line_reader.rs:29-57 | every class that carries text carries the whole line unchanged |
| LineReader.PrefixDecides | md_parser/src/md_line_reader.rs:29-57 | the class each prefix gives, in priority order: `#` is Head before any other rule, `- [ ] `/`- [X] ` are TaskLine before `- ` is UList, then `---`, `![`, pipe, fence, `: `, tab and newline; a line is OList exactly when it passes the ordered-list test; the final `else`: a line is `Text(line)` exactly when no rule matches |
| LineReader.ToMdLines | md_parser/src/md_line_reader.rs:59-64 | one class per line, same length and order, element i is `ToMdLine(lines[i])` |
| LineReader.ToMdLinesAppend | md_parser/src/md_line_reader.rs:59-64 | classifying two documents one after the other is classifying each |
| LineReader.OrderedListBeforeDot | md_parser/src/md_line_reader.rs:66-73 | the ordered-list test holds exactly when the text before the first `.` (or the whole line) parses as a `u32` |
| LineReader.ParsesAsU32Start | md_parser/src/md_line_reader.rs:69 | a string that parses as a `u32` starts with a digit or `+` |
| LineReader.OrderedListStart | md_parser/src/md_line_reader.rs:66-73 | an ordered-list line starts with a digit or `+` |
| LineReader.DigitsValueBound | md_parser/src/md_line_reader.rs:69 | a string of n digits has a value below 10^n |
| LineReader.DigitsThenDot | md_parser/src/md_line_reader.rs:66-73 | one to nine digits followed by `.` always make an ordered-list line, whatever follows |
| LineReaderExamples.NumberDotExamples | md_parser/src/md_line_reader.rs:77-81 | `"1. jsdf"` and `"1. "` pass the ordered-list test |
| LineReaderExamples.FirstDotExample | md_parser/src/md_line_reader.rs:80 | `"1.jsdf."` passes: only the text before the first dot is read |
| LineReaderExamples.LeadingSpaceExamples | md_parser/src/md_line_reader.rs:78-79 | `" 1jsdf"` and `" 1jsdf."` fail the ordered-list test |
| LineReaderExamples.U32MaxExample | md_parser/src/md_line_reader.rs:69 | `"4294967295. x"` is an ordered-list line (the largest `u32`) |
| LineReaderExamples.U32OverflowExample | md_parser/src/md_line_reader.rs:69 | `"4294967296. x"` is not (the number overflows a `u32`) |
| LineReaderExamples.PlusSignExample | md_parser/src/md_line_reader.rs:69 | `"+3. x"` is an ordered-list line, as `u32::from_str` accepts a leading `+` |
| LineReaderExamples.TaskLineExample | md_parser/src/md_line_reader.rs:34-35 | `"- [X] done"` is a TaskLine, not an unordered item |
| LineReaderExamples.UListExample | md_parser/src/md_line_reader.rs:38-39 | `"- item"` is an unordered item |
| LineReaderExamples.RuleExample | md_parser/src/md_line_reader.rs:40-41 | `"---"` is a rule, not an unordered item |
| LineReaderExamples.TabbedLineExample | md_parser/src/md_line_reader.rs:50-51 | a tab-led line is a TabbedLine |
| LineReaderExamples.FenceExample | md_parser/src/md_line_reader.rs:46-47 | a fence line is CodeBlock |
| LegacyLineReader.Classify | src/md_line_reader.rs:49-83 | one step of the reader: every class with text carries the whole line, and no rule gives TabbedLine |
| LegacyLineReader.ToMdLines | src/md_line_reader.rs:42-89 | the loop that threads `in_code_block` gives `ReadLines`: line i is classified with the flag left by lines 0..i |
| LegacyLineReader.FenceStarts | src/md_line_reader.rs:73-76 | outside a code block a fence line opens a block (CodeStart) |
| LegacyLineReader.AgreesWithNewer | src/md_line_reader.rs:57-83 | outside a code block this reader and the newer `to_mdline` agree, except that a fence is CodeStart and a tab-led line is Text |
| LegacyLineReader.FlagParity | src/md_line_reader.rs:49-56 | the reader is inside a code block exactly when an odd number of fence lines came before |
| LegacyLineReader.FlagAfterPrefix | src/md_line_reader.rs:44-89 | the flag at a line depends only on the lines before it |
| LegacyLineReader.ReadLinesAt | src/md_line_reader.rs:49-83 | line i is: CodeEnd for a fence after an odd number of fences; Text(line) for any other line there, whatever its prefix; otherwise the newer classifier's class, mapped as in AgreesWithNewer |
| LegacyLineReader.ReadLinesAppend | src/md_line_reader.rs:44-89 | a document split after an even number of fences reads as its two parts |
| LegacyLineReaderExamples.DocumentExample | src/md_line_reader.rs:49-83 | a heading, a fenced block holding `# not a heading`, and a tab-led line read as Head, CodeStart, Text, CodeEnd, Text |
| LinePurifier.IdPieceLength | src/md_line_purifier.rs:76-79 | an id piece has at least three characters, so the unchecked slice `2..len-1` is in range |
| LinePurifier.IdOf | src/md_line_purifier.rs:75-80 | the id is what lies between `{#` and `}`: `"{#" + id + "}"` is the piece |
| LinePurifier.NotIdByStart | src/md_line_purifier.rs:65 | a piece not starting with `{` is not an id piece |
| LinePurifier.NotIdByEnd | src/md_line_purifier.rs:65 | a piece not ending with `}` is not an id piece |
| LinePurifier.FirstIdPiece | src/md_line_purifier.rs:64-72 | the position of the first id piece: no earlier piece is one, and the one found is |
| LinePurifier.SpacedSnoc | src/md_line_purifier.rs:69-70 | each piece adds itself and one space to the title text |
| LinePurifier.CountHashes | src/md_line_purifier.rs:44-55 | the first loop: the count is the number of leading `#`, and it reports junk exactly when a character other than a space follows them |
| LinePurifier.CollectTitle | src/md_line_purifier.rs:62-72 | the second loop: the title text is the pieces after the first, each followed by a space, up to the first id piece, which is returned (empty if none) |
| LinePurifier.PurifyHead | src/md_line_purifier.rs:42-87 | `purify_head` computes `HeadOf` |
| LinePurifier.Purify | src/md_line_purifier.rs:23-25 | `purify` of a `Head(s)` is `purify_head(s)` |
| LinePurifier.LevelAndFailure | src/md_line_purifier.rs:44-55 | a line fails exactly when some character other than `#` or space comes after only `#`s; a failure carries the line unchanged; a heading's level is the number of leading `#` |
| LinePurifier.AnyLevelIsHead | src/md_line_purifier.rs:56-59 | the range check never fires: any number of `#` (seven and more included) and a space give a heading of that level |
| LinePurifier.SpacedIsJoin | src/md_line_purifier.rs:69-70 | the title text is the pieces joined by single spaces, plus one space |
| LinePurifier.TitleAndId | src/md_line_purifier.rs:62-85 | the title is the pieces before the first id piece, joined by single spaces and trimmed; the id is that piece without `{#` and `}`, or empty when there is none |
| LinePurifier.RestAfterIdIgnored | src/md_line_purifier.rs:66-67 | once an id piece is found, anything appended after it leaves the heading unchanged |
| LinePurifierExamples.ProperSpacingExample | src/md_line_purifier.rs:133-140 | `"## head 2 {#head-2}"` gives title `head 2`, level 2, id `head-2` |
| LinePurifierExamples.MissingSpaceExample | src/md_line_purifier.rs:143-146 | `"##head 2 {#head-2}"` fails unchanged |
| LinePurifierExamples.GluedIdExample | src/md_line_purifier.rs:149-152 | an id glued to a word stays in the title, and the id is empty |
| LinePurifierExamples.SplitIdExample | src/md_line_purifier.rs:155-158 | an id split by a space stays in the title, and the id is empty |
| LinePurifierExamples.SevenHashesExample | src/md_line_purifier.rs:56-59 | `"####### x"` is a heading of level 7 |
| InlineTokens.DelimiterToken | md_parser/src/md_inline_parser/inline_tokens.rs:43-82 | the token of a delimiter stands for exactly that character |
| InlineTokens.Tokenize | md_parser/src/md_inline_parser/inline_tokens.rs:34-96 | the scan, with the buffer updated by push and by overwriting its last token, gives `Tokens(data)` |
| InlineTokens.StepWellFormed | md_parser/src/md_inline_parser/inline_tokens.rs:37-91 | one character keeps the runs non-empty and the escape last, and adds at most one token |
| InlineTokens.TokensWellFormed | md_parser/src/md_inline_parser/inline_tokens.rs:37-95 | every Plain run is non-empty; an Escape can only be the last token; there are at most as many tokens as characters |
| InlineTokens.PendingEscape | md_parser/src/md_inline_parser/inline_tokens.rs:39-42 | the output ends in Escape exactly when the input ends in an odd run of backslashes |
| InlineTokens.EscapedCharacter | md_parser/src/md_inline_parser/inline_tokens.rs:23-30 | any character after a pending escape, a backslash included, replaces the Escape with `Plain(ch)` and merges with nothing |
| InlineTokens.DelimiterPushesOne | md_parser/src/md_inline_parser/inline_tokens.rs:43-82 | an unescaped delimiter pushes exactly its token, with no merging |
| InlineTokens.Caret | md_parser/src/md_inline_parser/inline_tokens.rs:67-73 | an unescaped `^` rewrites a preceding SquareOpen to FootnoteOpen, and otherwise pushes a fresh `Plain("^")` |
| InlineTokens.OrdinaryCharacter | md_parser/src/md_inline_parser/inline_tokens.rs:83-89 | any other unescaped character extends a trailing Plain or starts a new one |
| InlineTokens.StepRender | md_parser/src/md_inline_parser/inline_tokens.rs:43-89 | away from escapes, one character appends itself to the tokens' surface text |
| InlineTokens.RenderTokens | md_parser/src/md_inline_parser/inline_tokens.rs:37-91 | without backslashes, the tokens' surface text is the input |
| InlineTokenExamples.CodeSpanExample | md_parser/src/md_inline_parser/inline_tokens.rs:99-112 | the tokens of ``"`code **bold**`"`` |
| InlineTokenExamples.DoubleStarExample | md_parser/src/md_inline_parser/inline_tokens.rs:117-120 | `"**bold**"` gives one Star per `*` |
| InlineTokenExamples.SingleStarExample | md_parser/src/md_inline_parser/inline_tokens.rs:121-124 | the tokens of `"*bold*"` |
| InlineTokenExamples.DoubleEqualExample | md_parser/src/md_inline_parser/inline_tokens.rs:129-132 | `"==bold=="` gives one Equal per `=` |
| InlineTokenExamples.SingleEqualExample | md_parser/src/md_inline_parser/inline_tokens.rs:133-136 | the tokens of `"=bold="` |
| InlineTokenExamples.EscapedStarExample | md_parser/src/md_inline_parser/inline_tokens.rs:141-150 | an escaped star becomes `Plain("*")` and the next star is a token again |
| InlineTokenExamples.EscapedEqualExample | md_parser/src/md_inline_parser/inline_tokens.rs:151-154 | an escaped `=` starts a run that the following text extends |
| InlineTokenExamples.EscapedTildeExample | md_parser/src/md_inline_parser/inline_tokens.rs:155-158 | a second escape starts a new run rather than joining the previous one |
| InlineTokenExamples.FootnoteExample | md_parser/src/md_inline_parser/inline_tokens.rs:163-166 | `[^` opens a footnote and an escaped `]` is text |
| InlineTokenExamples.EscapedSquareExample | md_parser/src/md_inline_parser/inline_tokens.rs:167-170 | an escaped `[` cannot open a footnote |
| InlineTokenExamples.EscapedCaretExample | md_parser/src/md_inline_parser/inline_tokens.rs:171-174 | an escaped `^` leaves the `[` alone |
| LegacyInlineTokens.ArmFacts | src/md_inline_parser/inline_tokens.rs:30-85 | what each match arm pushes or rewrites: never a strike token, spelling its character (with `~` spelled as `*`); a rewritten Plain only grows |
| LegacyInlineTokens.StepShape | src/md_inline_parser/inline_tokens.rs:30-85 | every arm either rewrites the last token or pushes one token |
| LegacyInlineTokens.Tokenize | src/md_inline_parser/inline_tokens.rs:29-88 | the fold, with its accumulator updated in place, gives `Tokens(data)` |
| LegacyInlineTokens.StepFrame | src/md_inline_parser/inline_tokens.rs:30-85 | a step reads and rewrites only the last token |
| LegacyInlineTokens.SlashSeparates | src/md_inline_parser/inline_tokens.rs:32-34 | a `/` is a barrier: the tokens of `a + "/" + b` are those of `a` followed by those of `"/" + b` |
| LegacyInlineTokens.StepInvariant | src/md_inline_parser/inline_tokens.rs:30-85 | one character keeps the invariant and adds at most one token |
| LegacyInlineTokens.TokensInvariant | src/md_inline_parser/inline_tokens.rs:29-88 | Plain runs are non-empty; no Strike or DoubleStrike appears; no two Equals are adjacent; two adjacent Plains only where the second starts with `^`; at most one token per character |
| LegacyInlineTokens.TildePushesStar | src/md_inline_parser/inline_tokens.rs:64-70 | `~` always appends Star, because no arm emits Strike |
| LegacyInlineTokens.StarPairs | src/md_inline_parser/inline_tokens.rs:35-41 | `*` after a Star rewrites it to DoubleStar, and otherwise pushes Star |
| LegacyInlineTokens.EqualPairs | src/md_inline_parser/inline_tokens.rs:71-77 | `=` after an Equal rewrites it to DoubleEqual, and otherwise pushes Equal |
| LegacyInlineTokens.TildeAsStar | src/md_inline_parser/inline_tokens.rs:64-70 | the input with every `~` read as `*`, character by character |
| LegacyInlineTokens.StepRender | src/md_inline_parser/inline_tokens.rs:30-85 | one character appends what it spells to the surface text |
| LegacyInlineTokens.RenderTokens | src/md_inline_parser/inline_tokens.rs:29-88 | nothing is lost: the tokens spell out the input, with `~` read as `*` and `/` kept as Escape |
| LegacyInlineTokenExamples.TripleStarExample | src/md_inline_parser/inline_tokens.rs:35-41 | `***` gives DoubleStar, Star |
| LegacyInlineTokenExamples.QuadrupleStarExample | src/md_inline_parser/inline_tokens.rs:35-41 | `****` gives DoubleStar, DoubleStar |
| LegacyInlineTokenExamples.TildeStarExample | src/md_inline_parser/inline_tokens.rs:64-70 | `~*` gives DoubleStar: the Star from `~` pairs with the `*` |
| LegacyInlineTokenExamples.StarTildeExample | src/md_inline_parser/inline_tokens.rs:64-70 | `*~` gives Star, Star |
| LegacyInlineTokenExamples.TripleEqualExample | src/md_inline_parser/inline_tokens.rs:71-77 | `===` gives DoubleEqual, Equal |
| LegacyInlineTokenExamples.BoldExample | src/md_inline_parser/inline_tokens.rs:35-41 | `**bold**` gives DoubleStar, `Plain("bold")`, DoubleStar |
| LegacyInlineTokenExamples.SlashExample | src/md_inline_parser/inline_tokens.rs:32-34 | `/` is a token of its own that leaves the next `*` a delimiter, and a backslash joins the text |
| LegacyInlineTokenExamples.FootnoteExample | src/md_inline_parser/inline_tokens.rs:57-63 | `[^1]` gives FootnoteOpen, `Plain("1")`, SquareClose |
| MdInlineBuilder.Build | md_parser/src/md_inline_parser/md_inline.rs:25-68 | a call only moves the cursor forward; it stops at the end of the input, or right after consuming its `until` token |
| MdInlineBuilder.Arm | md_parser/src/md_inline_parser/md_inline.rs:37-66 | every arm consumes at least its own token |
| MdInlineBuilder.FromTokensToMdInline | md_parser/src/md_inline_parser/md_inline.rs:25-68 | the recursive builder over a shared cursor computes `Build` |
| MdInlineBuilder.ExtendsTransitive | md_parser/src/md_inline_parser/md_inline.rs:41-67 | append-only growth composes across calls |
| MdInlineBuilder.ExtendsByArm | md_parser/src/md_inline_parser/md_inline.rs:41-65 | a push, and the Plain arm's extension of a trailing string, keep every earlier element |
| MdInlineBuilder.BuildExtends | md_parser/src/md_inline_parser/md_inline.rs:41-67 | the list is only appended to, or has its last string extended; earlier elements never change |
| MdInlineBuilder.TextAddText | md_parser/src/md_inline_parser/md_inline.rs:59-65 | the Plain arm adds exactly its text to the tree |
| MdInlineBuilder.BuildText | md_parser/src/md_inline_parser/md_inline.rs:25-68 | every character of every consumed Plain, and every consumed `=`, reaches the tree in order |
| MdInlineBuilder.ArmText | md_parser/src/md_inline_parser/md_inline.rs:37-66 | each arm adds the text of the tokens it consumed |
| MdInlineBuilder.ScopeText | md_parser/src/md_inline_parser/md_inline.rs:38-47 | an Italic or Bold scope adds the text of its nested list |
| MdInlineBuilder.DelimiterText | md_parser/src/md_inline_parser/md_inline.rs:38-47 | a star delimiter contributes no text |
| MdInlineBuilder.ParseText | md_parser/src/md_inline_parser/md_inline.rs:25-68 | at the top level every token is consumed and all text is kept |
| MdInlineExamples.BoldExample | md_parser/src/md_inline_parser/md_inline.rs:43-47 | a `**` scope is closed by the next `**` |
| MdInlineExamples.UnterminatedExample | md_parser/src/md_inline_parser/md_inline.rs:30-42 | a scope left open at the end of the input is still pushed |
| MdInlineExamples.EqualExample | md_parser/src/md_inline_parser/md_inline.rs:58-65 | `=` pushes a string of its own, which the following text extends |
| MdInlineExamples.EscapeExample | md_parser/src/md_inline_parser/md_inline.rs:50 | an Escape adds nothing, so the text on each side joins |
| MdInlineExamples.NestedExample | md_parser/src/md_inline_parser/md_inline.rs:38-47 | scopes nest |
| MdInlineExamples.CrossedScopesExample | md_parser/src/md_inline_parser/md_inline.rs:30-33 | a call waits only for its own `until`: crossed delimiters nest rather than close |
| MdInlineExamples.TokenizeAndBuildExample | md_parser/src/md_inline_parser/md_inline.rs:25-68 | composes the two crates, as the builder's arms require: the `src` tokenizer turns `**bold**` into `[DoubleStar, Plain("bold"), DoubleStar]`, and the `md_parser` builder turns that into `Bold([InlineString("bold")])` |

## Left out

- File reading in `src/md_line_reader.rs` (`BufReader`, `lines()`, and the `eprintln!`/`exit(1)` error path): the reader takes the lines as a `seq<string>`.
- The `todo!()` stubs: `purify`'s non-Head arms, every `purify_*` method other than `purify_head`, and the builder's arms for DoubleStrike, DoubleEqual, Quote, SquareOpen, SquareClose, CircleOpen, CircleClose, FootnoteOpen and Strike. A precondition (`Purify`'s `line.Head?`; the builder's `AllImplemented`) excludes them, since they panic.
- MdInlineBuilder: the builder in `md_parser/src/md_inline_parser/md_inline.rs` imports its own crate's `InlineToken` (md_inline.rs:6). That enum (`md_parser/src/md_inline_parser/inline_tokens.rs:2-21`) has no `DoubleStar`, `DoubleStrike` or `DoubleEqual`, yet the builder's match names all three (md_inline.rs:43, 48-49). As written, the builder does not type-check against its own crate. The model gives it the 14-variant enum of `src/md_inline_parser/inline_tokens.rs` (`LegacyInlineTokens.InlineToken`), the only enum that has every token the match names. The builder is therefore never composed with the `md_parser` tokenizer (`InlineTokens`), which emits one `Star` per `*`, so `**bold**` would never reach the Bold arm. `MdInlineExamples.TokenizeAndBuildExample` is a composition of the two crates that neither crate contains.
- The builder test that expects `[NoMatch]`: the builder never produces `NoMatch`.
- `src/md_block.rs` and `src/md_inline_parser/mod.rs` hold type declarations only. `md_parser/src/md_inline_parser/md_string.rs` calls a method that does not exist. The `mod.rs` last-element helper is inlined in both tokenizers.
- `purify` takes an `MdLine`, a type the repository does not define. The model takes the older reader's `MdRawLine`, whose `Head` variant it matches.
- The older reader's `starts_with_ordered_list_pattern` (src/md_line_reader.rs:93-100) is a line-for-line copy of the newer one. One predicate, `LineReader.StartsWithOrderedListPattern`, serves both readers, and its tests (src/md_line_reader.rs:102-109) are the same five cases.
- PurifyHead: requires at most 255 leading `#`. The Rust `u8` counter would overflow (panic in debug, wrap in release) beyond that; that case is not modelled.
- CountHashes: requires at most 255 leading `#`, for the same reason.
- Purify: requires at most 255 leading `#`, for the same reason.
- BuildText: states the text property only for `until` None, Star or DoubleStar, the only values the builder passes. For another `until`, the consumed token's text would be dropped.
- `purify_head` iterates over bytes; the model iterates over characters. This is the same thing here, because `#` and space are ASCII and the loop stops at the first other character.
- `char` is a Dafny `char`, and strings are `seq<char>`. Rust's UTF-8 byte layout is not modelled.
