/** String helpers that mirror the Rust `str` methods the line classifiers and
    the heading purifier call: `starts_with`, `ends_with`, `split`, `trim_end`. */
module RustStr {

  predicate StartsWith(s: string, prefix: string) {
    |prefix| <= |s| && s[..|prefix|] == prefix
  }

  predicate EndsWith(s: string, suffix: string) {
    |suffix| <= |s| && s[|s| - |suffix|..] == suffix
  }

  /** Rust's `char::is_whitespace`: the Unicode White_Space property. */
  predicate IsWhitespace(c: char) {
    ('\t' <= c <= '\r') || c == ' ' || c == '\U{0085}' || c == '\U{00A0}' ||
    c == '\U{1680}' || ('\U{2000}' <= c <= '\U{200A}') || c == '\U{2028}' ||
    c == '\U{2029}' || c == '\U{202F}' || c == '\U{205F}' || c == '\U{3000}'
  }

  /** The pieces separated by `sep`, re-joined with `sep` in between. */
  function Join(pieces: seq<string>, sep: char): string {
    if |pieces| == 0 then []
    else if |pieces| == 1 then pieces[0]
    else pieces[0] + [sep] + Join(pieces[1..], sep)
  }

  /** `str::split(sep)`: the maximal runs between separators, in order.
      There is always at least one piece (`"".split(' ')` yields `[""]`). */
  function Split(s: string, sep: char): (pieces: seq<string>)
    ensures |pieces| >= 1
    ensures forall i | 0 <= i < |pieces| :: sep !in pieces[i]
  {
    if s == [] then [[]]
    else
      var rest := Split(s[1..], sep);
      if s[0] == sep then [[]] + rest
      else [[s[0]] + rest[0]] + rest[1..]
  }

  /** Joining the pieces with the separator gives the string back. */
  lemma {:induction false} SplitJoin(s: string, sep: char)
    ensures Join(Split(s, sep), sep) == s
  {
    if s != [] {
      var rest := Split(s[1..], sep);
      SplitJoin(s[1..], sep);
      if s[0] == sep {
        assert ([[]] + rest)[1..] == rest;
      } else {
        var pieces := [[s[0]] + rest[0]] + rest[1..];
        assert pieces[1..] == rest[1..];
        assert s == [s[0]] + s[1..];
      }
    }
  }

  /** A string with no separator is a single piece. */
  lemma {:induction false} SplitNoSep(s: string, sep: char)
    requires sep !in s
    ensures Split(s, sep) == [s]
  {
    if s != [] {
      SplitNoSep(s[1..], sep);
      assert s == [s[0]] + s[1..];
    }
  }

  /** Splitting at a separator splits the pieces list there too. */
  lemma {:induction false} SplitAtSep(a: string, sep: char, b: string)
    ensures Split(a + [sep] + b, sep) == Split(a, sep) + Split(b, sep)
  {
    if a == [] {
      assert ([] + [sep] + b)[1..] == b;
    } else {
      assert (a + [sep] + b)[1..] == a[1..] + [sep] + b;
      SplitAtSep(a[1..], sep, b);
    }
  }

  /** `str::trim_end`: drops the maximal whitespace suffix. */
  function TrimEnd(s: string): (r: string)
    ensures |r| <= |s| && r == s[..|r|]
    ensures r == [] || !IsWhitespace(r[|r| - 1])
    ensures forall i | |r| <= i < |s| :: IsWhitespace(s[i])
  {
    if s != [] && IsWhitespace(s[|s| - 1]) then TrimEnd(s[..|s| - 1]) else s
  }

  /** Number of leading characters equal to `c`. */
  function LeadingCount(s: string, c: char): (n: nat)
    ensures n <= |s|
    ensures forall i | 0 <= i < n :: s[i] == c
    ensures n < |s| ==> s[n] != c
  {
    if s == [] || s[0] != c then 0 else 1 + LeadingCount(s[1..], c)
  }

  /** Trimming ignores one more trailing space. */
  lemma TrimEndSpace(s: string)
    ensures TrimEnd(s + " ") == TrimEnd(s)
  {
    assert (s + " ")[..|s|] == s;
  }

  /** The text before the first `sep`, or all of `s` when there is none. */
  function BeforeFirst(s: string, sep: char): (r: string)
    ensures |r| <= |s| && r == s[..|r|]
    ensures sep !in r
    ensures |r| < |s| ==> s[|r|] == sep
  {
    if s == [] || s[0] == sep then [] else [s[0]] + BeforeFirst(s[1..], sep)
  }

  /** The first piece of `split` is the text before the first separator. */
  lemma {:induction false} SplitFirst(s: string, sep: char)
    ensures Split(s, sep)[0] == BeforeFirst(s, sep)
  {
    if s != [] && s[0] != sep {
      SplitFirst(s[1..], sep);
    }
  }

  /** The separator's first occurrence ends the first piece. */
  lemma {:induction false} BeforeFirstAt(a: string, sep: char, b: string)
    requires sep !in a
    ensures BeforeFirst(a + [sep] + b, sep) == a
  {
    if a != [] {
      assert (a + [sep] + b)[1..] == a[1..] + [sep] + b;
      BeforeFirstAt(a[1..], sep, b);
    }
  }

  /** A string that starts with `prefix` agrees with it character by character. */
  lemma StartsWithAt(s: string, prefix: string, i: nat)
    requires StartsWith(s, prefix) && i < |prefix|
    ensures i < |s| && s[i] == prefix[i]
  {
    assert s[..|prefix|][i] == s[i];
  }

  /** The first piece ends at the first separator. */
  lemma BeforeFirstIs(s: string, sep: char, k: nat)
    requires k <= |s| && (k < |s| ==> s[k] == sep)
    requires sep !in s[..k]
    ensures BeforeFirst(s, sep) == s[..k]
  {
  }

  /** `split` cuts at a separator with none before it. */
  lemma SplitAt(s: string, sep: char, k: nat)
    requires k < |s| && s[k] == sep && sep !in s[..k]
    ensures Split(s, sep) == [s[..k]] + Split(s[k + 1..], sep)
  {
    assert s == s[..k] + [sep] + s[k + 1..];
    SplitAtSep(s[..k], sep, s[k + 1..]);
    SplitNoSep(s[..k], sep);
  }

  /** The leading run of `c` is pinned down by where it stops. */
  lemma LeadingCountIs(s: string, c: char, n: nat)
    requires n <= |s| && (n < |s| ==> s[n] != c)
    requires forall i | 0 <= i < n :: s[i] == c
    ensures LeadingCount(s, c) == n
  {
  }

  /** Text after a character other than `c` does not change the count. */
  lemma {:induction false} LeadingCountAppend(a: string, b: string, c: char)
    requires LeadingCount(a, c) < |a|
    ensures LeadingCount(a + b, c) == LeadingCount(a, c)
  {
    if a[0] == c {
      assert (a + b)[1..] == a[1..] + b;
      LeadingCountAppend(a[1..], b, c);
    }
  }
}
