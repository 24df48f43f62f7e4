/** The inline tree builder: a recursive descent over a shared forward cursor
    into the token list, which opens an `Italic` scope at `*` and a `Bold`
    scope at `**`, closes a scope at its `until` token or at the end of the
    input, drops escape markers and gathers text into trailing
    `InlineString`s. Its match arms name the tokens of the `src` tokenizer. */
module MdInlineBuilder {
  import opened LegacyInlineTokens

  datatype MdInline =
    | Bold(children: seq<MdInline>)
    | Italic(children: seq<MdInline>)
    | Code(children: seq<MdInline>)
    | Link(text: string, target: string)
    | Strike(children: seq<MdInline>)
    | Highlight(children: seq<MdInline>)
    | Sub(children: seq<MdInline>)
    | Super(children: seq<MdInline>)
    | InlineString(s: string)
    | NoMatch

  /** The tokens whose match arm is implemented; every other arm is `todo!()`. */
  predicate Implemented(t: InlineToken) {
    t.Star? || t.DoubleStar? || t.Escape? || t.Equal? || t.Plain?
  }

  predicate AllImplemented(tokens: seq<InlineToken>) {
    forall i | 0 <= i < |tokens| :: Implemented(tokens[i])
  }

  /** The `Plain(f)` arm: `f` is appended to a trailing `InlineString`, or
      pushed as a new one. */
  function AddText(md: seq<MdInline>, f: string): seq<MdInline> {
    if |md| > 0 && md[|md| - 1].InlineString? then md[..|md| - 1] + [InlineString(md[|md| - 1].s + f)]
    else md + [InlineString(f)]
  }

  /** `from_tokens_to_mdinline` with the cursor at `pos` and `md` as the list
      built so far: the cursor position afterwards and the list. A call
      returns at the end of the input, or right after consuming `until`;
      otherwise it runs the arm of the next token and calls itself again. */
  function Build(tokens: seq<InlineToken>, pos: nat, md: seq<MdInline>, until: Option<InlineToken>): (r: (nat, seq<MdInline>))
    requires pos <= |tokens| && AllImplemented(tokens)
    ensures pos <= r.0 <= |tokens|
    ensures r.0 == |tokens| || (pos < r.0 && until == Some(tokens[r.0 - 1]))
    decreases |tokens| - pos, 1
  {
    if pos == |tokens| then (pos, md)
    else if until == Some(tokens[pos]) then (pos + 1, md)
    else
      var (p, next) := Arm(tokens, pos, md);
      Build(tokens, p, next, until)
  }

  /** The match arm of the token at `pos`: where it leaves the cursor and
      what it leaves in the list. `*` and `**` build the nested list of a
      scope up to the next token of the same kind. */
  function Arm(tokens: seq<InlineToken>, pos: nat, md: seq<MdInline>): (r: (nat, seq<MdInline>))
    requires pos < |tokens| && AllImplemented(tokens)
    ensures pos < r.0 <= |tokens|
    decreases |tokens| - pos, 0
  {
    var t := tokens[pos];
    if t.Star? then
      var (p, inner) := Build(tokens, pos + 1, [], Some(Star));
      (p, md + [Italic(inner)])
    else if t.DoubleStar? then
      var (p, inner) := Build(tokens, pos + 1, [], Some(DoubleStar));
      (p, md + [Bold(inner)])
    else if t.Escape? then (pos + 1, md)
    else if t.Equal? then (pos + 1, md + [InlineString("=")])
    else (pos + 1, AddText(md, t.s))
  }

  /** The tree of a whole token list, built from an empty list with no
      `until` token. */
  function Parse(tokens: seq<InlineToken>): seq<MdInline>
    requires AllImplemented(tokens)
  {
    Build(tokens, 0, [], None).1
  }

  /** `from_tokens_to_mdinline`: the cursor is a position into `tokens`, the
      `&mut Vec<MdInline>` is threaded in as `md` and out as `result`. */
  method FromTokensToMdInline(tokens: seq<InlineToken>, pos: nat, md: seq<MdInline>, until: Option<InlineToken>)
    returns (next: nat, result: seq<MdInline>)
    requires pos <= |tokens| && AllImplemented(tokens)
    ensures (next, result) == Build(tokens, pos, md, until)
    decreases |tokens| - pos
  {
    if pos == |tokens| {
      return pos, md;
    }
    var token := tokens[pos];
    var cursor := pos + 1;
    if until == Some(token) {
      return cursor, md;
    }
    result := md;
    match token {
      case Star =>
        var inner;
        cursor, inner := FromTokensToMdInline(tokens, cursor, [], Some(Star));
        result := result + [Italic(inner)];
      case DoubleStar =>
        var inner;
        cursor, inner := FromTokensToMdInline(tokens, cursor, [], Some(DoubleStar));
        result := result + [Bold(inner)];
      case Escape =>
      case Equal =>
        result := result + [InlineString("=")];
      case Plain(f) =>
        if |result| > 0 && result[|result| - 1].InlineString? {
          result := result[..|result| - 1] + [InlineString(result[|result| - 1].s + f)];
        } else {
          result := result + [InlineString(f)];
        }
      case _ =>
        assert false;
    }
    next, result := FromTokensToMdInline(tokens, cursor, result, until);
  }

  // ---------------------------------------------------------------------------
  // The list is only appended to

  /** `b` is `a` with elements appended, and possibly the last element of `a`,
      an `InlineString`, extended at its end. */
  predicate Extends(a: seq<MdInline>, b: seq<MdInline>) {
    |a| <= |b| &&
    (forall i | 0 <= i < |a| - 1 :: b[i] == a[i]) &&
    (|a| > 0 ==>
       b[|a| - 1] == a[|a| - 1] ||
       (a[|a| - 1].InlineString? && b[|a| - 1].InlineString? && a[|a| - 1].s <= b[|a| - 1].s))
  }

  lemma ExtendsTransitive(a: seq<MdInline>, b: seq<MdInline>, c: seq<MdInline>)
    requires Extends(a, b) && Extends(b, c)
    ensures Extends(a, c)
  {
    if |a| > 0 && |a| < |b| {
      assert c[|a| - 1] == b[|a| - 1];
    }
  }

  lemma ExtendsByArm(md: seq<MdInline>, t: MdInline, f: string)
    ensures Extends(md, md + [t])
    ensures Extends(md, AddText(md, f))
  {
    var n := |md|;
    assert forall i | 0 <= i < n :: (md + [t])[i] == md[i];
    if n > 0 && md[n - 1].InlineString? {
      assert md[n - 1].s <= md[n - 1].s + f;
    }
  }

  /** The builder never removes or rewrites what is already in the list: it
      pushes, or extends the trailing `InlineString`. */
  lemma {:induction false} BuildExtends(tokens: seq<InlineToken>, pos: nat, md: seq<MdInline>, until: Option<InlineToken>)
    requires pos <= |tokens| && AllImplemented(tokens)
    ensures Extends(md, Build(tokens, pos, md, until).1)
    decreases |tokens| - pos
  {
    if pos == |tokens| || until == Some(tokens[pos]) {
      assert forall i | 0 <= i < |md| :: md[i] == md[i];
    } else {
      var (p, next) := Arm(tokens, pos, md);
      var t := tokens[pos];
      if t.Escape? {
        assert forall i | 0 <= i < |md| :: md[i] == md[i];
      } else if t.Star? || t.DoubleStar? {
        ExtendsByArm(md, next[|md|], []);
      } else {
        ExtendsByArm(md, InlineString("="), if t.Plain? then t.s else []);
      }
      BuildExtends(tokens, p, next, until);
      ExtendsTransitive(md, next, Build(tokens, p, next, until).1);
    }
  }

  // ---------------------------------------------------------------------------
  // No text is lost

  /** The text a token contributes: `Plain(f)` its string, `Equal` a `=`,
      delimiters and escape markers nothing. */
  function TokenText(t: InlineToken): string {
    if t.Plain? then t.s else if t.Equal? then "=" else []
  }

  /** The text of the tokens from position `i` up to position `j`. */
  function TokensText(tokens: seq<InlineToken>, i: nat, j: nat): string
    requires i <= j <= |tokens|
    decreases j
  {
    if i == j then [] else TokensText(tokens, i, j - 1) + TokenText(tokens[j - 1])
  }

  /** The text of a tree: its strings in reading order, through every scope. */
  function Text(md: seq<MdInline>): string
    decreases md
  {
    if md == [] then [] else Text(md[..|md| - 1]) + ItemText(md[|md| - 1])
  }

  function ItemText(item: MdInline): string
    decreases item
  {
    match item
    case InlineString(s) => s
    case Link(_, _) => []
    case NoMatch => []
    case _ => Text(item.children)
  }

  lemma {:induction false} TokensTextSplit(tokens: seq<InlineToken>, i: nat, j: nat, k: nat)
    requires i <= j <= k <= |tokens|
    ensures TokensText(tokens, i, k) == TokensText(tokens, i, j) + TokensText(tokens, j, k)
    decreases k
  {
    if j < k {
      TokensTextSplit(tokens, i, j, k - 1);
    }
  }

  lemma TextSnoc(md: seq<MdInline>, t: MdInline)
    ensures Text(md + [t]) == Text(md) + ItemText(t)
  {
    assert (md + [t])[..|md|] == md;
  }

  lemma TextAddText(md: seq<MdInline>, f: string)
    ensures Text(AddText(md, f)) == Text(md) + f
  {
    var n := |md|;
    if n > 0 && md[n - 1].InlineString? {
      var front := md[..n - 1];
      TextSnoc(front, InlineString(md[n - 1].s + f));
      TextSnoc(front, md[n - 1]);
      assert front + [md[n - 1]] == md;
    } else {
      TextSnoc(md, InlineString(f));
    }
  }

  /** Every character of every `Plain` token, and every `=`, reaches the tree
      in order: the text gained by a call is the text of the tokens it
      consumed. */
  lemma {:induction false} BuildText(tokens: seq<InlineToken>, pos: nat, md: seq<MdInline>, until: Option<InlineToken>)
    requires pos <= |tokens| && AllImplemented(tokens)
    requires until == None || until == Some(Star) || until == Some(DoubleStar)
    ensures var r := Build(tokens, pos, md, until);
      Text(r.1) == Text(md) + TokensText(tokens, pos, r.0)
    decreases |tokens| - pos, 2
  {
    if pos < |tokens| && until == Some(tokens[pos]) {
      assert Build(tokens, pos, md, until) == (pos + 1, md);
      assert TokensText(tokens, pos, pos + 1) == TokenText(tokens[pos]) == [];
    } else if pos < |tokens| {
      var arm := Arm(tokens, pos, md);
      var r := Build(tokens, arm.0, arm.1, until);
      assert Build(tokens, pos, md, until) == r;
      ArmText(tokens, pos, md);
      BuildText(tokens, arm.0, arm.1, until);
      TokensTextSplit(tokens, pos, arm.0, r.0);
    }
  }

  lemma {:induction false} ArmText(tokens: seq<InlineToken>, pos: nat, md: seq<MdInline>)
    requires pos < |tokens| && AllImplemented(tokens)
    ensures var r := Arm(tokens, pos, md);
      Text(r.1) == Text(md) + TokensText(tokens, pos, r.0)
    decreases |tokens| - pos, 1
  {
    var t := tokens[pos];
    if t.Star? || t.DoubleStar? {
      ArmScopeText(tokens, pos, md);
    } else {
      var next := if t.Escape? then md else if t.Equal? then md + [InlineString("=")] else AddText(md, t.s);
      assert Arm(tokens, pos, md) == (pos + 1, next);
      assert TokensText(tokens, pos, pos + 1) == TokenText(t);
      if t.Equal? {
        TextSnoc(md, InlineString("="));
      } else if t.Plain? {
        TextAddText(md, t.s);
      }
      assert Text(next) == Text(md) + TokenText(t);
    }
  }

  lemma {:induction false} ArmScopeText(tokens: seq<InlineToken>, pos: nat, md: seq<MdInline>)
    requires pos < |tokens| && AllImplemented(tokens)
    requires tokens[pos].Star? || tokens[pos].DoubleStar?
    ensures var r := Arm(tokens, pos, md);
      Text(r.1) == Text(md) + TokensText(tokens, pos, r.0)
    decreases |tokens| - pos, 0
  {
    var t := tokens[pos];
    var inner := Build(tokens, pos + 1, [], Some(t));
    var scope := if t.Star? then Italic(inner.1) else Bold(inner.1);
    assert Arm(tokens, pos, md) == (inner.0, md + [scope]);
    BuildText(tokens, pos + 1, [], Some(t));
    assert Text([]) == [];
    ScopeText(tokens, pos, inner.0, md, scope);
  }

  /** A scope adds the text of its nested list, which is the text of the
      tokens it consumed after its opening token. */
  lemma ScopeText(tokens: seq<InlineToken>, pos: nat, end: nat, md: seq<MdInline>, scope: MdInline)
    requires pos < end <= |tokens| && (tokens[pos].Star? || tokens[pos].DoubleStar?)
    requires scope.Italic? || scope.Bold?
    requires Text(scope.children) == TokensText(tokens, pos + 1, end)
    ensures Text(md + [scope]) == Text(md) + TokensText(tokens, pos, end)
  {
    TextScope(md, scope);
    DelimiterText(tokens, pos, end);
  }

  lemma TextScope(md: seq<MdInline>, scope: MdInline)
    requires scope.Italic? || scope.Bold?
    ensures Text(md + [scope]) == Text(md) + Text(scope.children)
  {
    TextSnoc(md, scope);
  }

  /** A delimiter contributes no text. */
  lemma DelimiterText(tokens: seq<InlineToken>, pos: nat, end: nat)
    requires pos < end <= |tokens| && (tokens[pos].Star? || tokens[pos].DoubleStar?)
    ensures TokensText(tokens, pos, end) == TokensText(tokens, pos + 1, end)
  {
    assert TokensText(tokens, pos, pos + 1) == [];
    TokensTextSplit(tokens, pos, pos + 1, end);
  }

  /** At the top level the builder consumes every token and keeps all text. */
  lemma ParseText(tokens: seq<InlineToken>)
    requires AllImplemented(tokens)
    ensures Text(Parse(tokens)) == TokensText(tokens, 0, |tokens|)
  {
    BuildText(tokens, 0, [], None);
  }
}
