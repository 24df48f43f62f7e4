/** The heading purifier: a raw `#` line becomes a heading with a title, a
    level and an optional custom id, or is given back as failed text. */
module LinePurifier {
  import opened RustStr
  import LegacyLineReader

  newtype u8 = x: int | 0 <= x < 256

  datatype PurifiedMdLine =
    | Head(title: string, level: u8, id: string)
    | FailedText(text: string)

  /** A custom-id piece: `{#` ... `}`. */
  predicate IsIdPiece(piece: string) {
    StartsWith(piece, "{#") && EndsWith(piece, "}")
  }

  /** The `{#` and the `}` of an id piece do not overlap. */
  lemma IdPieceLength(piece: string)
    requires IsIdPiece(piece)
    ensures |piece| >= 3
  {
    StartsWithAt(piece, "{#", 1);
    assert piece[|piece| - 1..][0] == '}';
  }

  /** A piece that does not start with `{` is not an id piece. */
  lemma NotIdByStart(piece: string)
    requires |piece| > 0 && piece[0] != '{'
    ensures !IsIdPiece(piece)
  {
    if IsIdPiece(piece) {
      StartsWithAt(piece, "{#", 0);
    }
  }

  /** A piece that does not end with `}` is not an id piece. */
  lemma NotIdByEnd(piece: string)
    requires |piece| > 0 && piece[|piece| - 1] != '}'
    ensures !IsIdPiece(piece)
  {
  }

  /** The id an id piece carries. */
  function IdOf(piece: string): (id: string)
    requires IsIdPiece(piece)
    ensures "{#" + id + "}" == piece
  {
    IdPieceLength(piece);
    assert piece == piece[..2] + piece[2..|piece| - 1] + piece[|piece| - 1..];
    piece[2..|piece| - 1]
  }

  /** The first id piece at or after `from`, or `|pieces|` if there is none. */
  function FirstIdPiece(pieces: seq<string>, from: nat): (k: nat)
    requires from <= |pieces|
    ensures from <= k <= |pieces|
    ensures forall i | from <= i < k :: !IsIdPiece(pieces[i])
    ensures k < |pieces| ==> IsIdPiece(pieces[k])
    decreases |pieces| - from
  {
    if from == |pieces| || IsIdPiece(pieces[from]) then from else FirstIdPiece(pieces, from + 1)
  }

  /** Each piece followed by one space: the title text before trimming. */
  function Spaced(pieces: seq<string>): string {
    if pieces == [] then [] else Spaced(pieces[..|pieces| - 1]) + pieces[|pieces| - 1] + " "
  }

  lemma SpacedSnoc(pieces: seq<string>, piece: string)
    ensures Spaced(pieces + [piece]) == Spaced(pieces) + piece + " "
  {
    assert (pieces + [piece])[..|pieces|] == pieces;
  }

  /** The pieces after the first space. */
  function TitlePieces(data: string): seq<string> {
    Split(data, ' ')[1..]
  }

  /** What `purify_head` gives `data`: junk before the first space fails;
      otherwise the level is the number of leading `#`, the title is the
      pieces before the first id piece, and the id is that piece's. */
  function HeadOf(data: string): PurifiedMdLine
    requires LeadingCount(data, '#') < 256
  {
    var n := LeadingCount(data, '#');
    if n < |data| && data[n] != ' ' then FailedText(data)
    else
      var pieces := TitlePieces(data);
      var k := FirstIdPiece(pieces, 0);
      Head(TrimEnd(Spaced(pieces[..k])), n as u8, if k < |pieces| then IdOf(pieces[k]) else [])
  }

  /** `HeadOf` in terms of what the piece loop of `purify_head` collects:
      the title text up to piece `stop` and the id piece found there. */
  lemma HeadOfParts(data: string, stop: nat, headText: string, idPart: string)
    requires LeadingCount(data, '#') < 256
    requires var n := LeadingCount(data, '#'); n == |data| || data[n] == ' '
    requires 1 <= stop <= |Split(data, ' ')|
    requires headText == Spaced(Split(data, ' ')[1..stop])
    requires forall m | 1 <= m < stop :: !IsIdPiece(Split(data, ' ')[m])
    requires stop < |Split(data, ' ')| ==> IsIdPiece(idPart) && idPart == Split(data, ' ')[stop]
    requires stop == |Split(data, ' ')| ==> idPart == []
    ensures HeadOf(data) ==
            Head(TrimEnd(headText), LeadingCount(data, '#') as u8, if idPart != [] then IdOf(idPart) else [])
  {
    var pieces := Split(data, ' ');
    var ps := TitlePieces(data);
    var k := FirstIdPiece(ps, 0);
    assert k == stop - 1;
    assert ps[..k] == pieces[1..stop];
    if stop < |pieces| {
      IdPieceLength(idPart);
      assert ps[k] == idPart;
    }
  }

  /** The first loop of `purify_head`: count `#` up to the first space or
      the end; any other character stops the count as junk. */
  method CountHashes(data: string) returns (hashCount: u8, junk: bool)
    requires LeadingCount(data, '#') <= 255
    ensures hashCount as int == LeadingCount(data, '#')
    ensures junk <==> hashCount as int < |data| && data[hashCount] != ' '
  {
    hashCount := 0;
    for i := 0 to |data|
      invariant hashCount as int == i
      invariant forall j | 0 <= j < i :: data[j] == '#'
    {
      if data[i] == '#' {
        hashCount := hashCount + 1;
      } else if data[i] == ' ' {
        break;
      } else {
        return hashCount, true;
      }
    }
    junk := false;
  }

  /** The second loop of `purify_head`: each piece after the first space
      goes into the title text with a space after it, until an id piece,
      which is kept and ends the loop. */
  method CollectTitle(pieces: seq<string>) returns (headText: string, idPart: string)
    requires |pieces| >= 1
    ensures var k := FirstIdPiece(pieces, 1);
            && headText == Spaced(pieces[1..k])
            && idPart == if k < |pieces| then pieces[k] else []
  {
    headText, idPart := [], [];
    for j := 1 to |pieces|
      invariant j <= FirstIdPiece(pieces, 1)
      invariant headText == Spaced(pieces[1..j])
    {
      var text := pieces[j];
      if IsIdPiece(text) {
        idPart := text;
        return;
      }
      assert pieces[1..j + 1] == pieces[1..j] + [text];
      SpacedSnoc(pieces[1..j], text);
      headText := headText + text + " ";
    }
  }

  /** `purify_head`: count the hashes up to the first space, then collect the
      title pieces up to a custom id. A `u8` counter caps the hash count. */
  method PurifyHead(data: string) returns (r: PurifiedMdLine)
    requires LeadingCount(data, '#') <= 255
    ensures r == HeadOf(data)
  {
    var hashCount, junk := CountHashes(data);
    if junk {
      return FailedText(data);
    }
    if hashCount > 6 && hashCount < 1 {
      assert false;
    }

    var pieces := Split(data, ' ');
    var headText, customIdPart := CollectTitle(pieces);
    var customId: string := [];
    if customIdPart != [] {
      IdPieceLength(customIdPart);
      customId := customIdPart[2..|customIdPart| - 1];
    }
    HeadOfParts(data, FirstIdPiece(pieces, 1), headText, customIdPart);
    r := Head(TrimEnd(headText), hashCount, customId);
  }

  /** `purify`: only the heading arm is implemented. */
  method Purify(line: LegacyLineReader.MdRawLine) returns (r: PurifiedMdLine)
    requires line.Head? && LeadingCount(line.line, '#') <= 255
    ensures r == HeadOf(line.line)
  {
    match line
    case Head(s) =>
      r := PurifyHead(s);
  }

  /** A line fails exactly when a character other than `#` or space comes
      before the first space, and the failure carries the line unchanged;
      otherwise the level is the number of leading `#`. */
  lemma LevelAndFailure(data: string)
    requires LeadingCount(data, '#') < 256
    ensures HeadOf(data).FailedText? <==>
            exists i | 0 <= i < |data| :: data[i] != '#' && data[i] != ' ' && forall j | 0 <= j < i :: data[j] == '#'
    ensures HeadOf(data).FailedText? ==> HeadOf(data).text == data
    ensures HeadOf(data).Head? ==> HeadOf(data).level as int == LeadingCount(data, '#')
  {
    var n := LeadingCount(data, '#');
    if exists i | 0 <= i < |data| :: data[i] != '#' && data[i] != ' ' && forall j | 0 <= j < i :: data[j] == '#' {
      var i :| 0 <= i < |data| && data[i] != '#' && data[i] != ' ' && forall j | 0 <= j < i :: data[j] == '#';
      LeadingCountIs(data, '#', i);
    }
  }

  /** `n` hashes and a space.  */
  function Hashes(n: nat): (s: string)
    ensures |s| == n && forall i | 0 <= i < n :: s[i] == '#'
  {
    seq(n, _ => '#')
  }

  /** The level range check never fires: any number of hashes the counter
      holds, seven and more included, gives a heading of that level. */
  lemma AnyLevelIsHead(n: nat, rest: string)
    requires n <= 255
    ensures LeadingCount(Hashes(n) + " " + rest, '#') == n
    ensures HeadOf(Hashes(n) + " " + rest).Head?
    ensures HeadOf(Hashes(n) + " " + rest).level as int == n
  {
    var data := Hashes(n) + " " + rest;
    LeadingCountIs(data, '#', n);
  }

  lemma {:induction false} JoinSnoc(pieces: seq<string>, piece: string)
    requires pieces != []
    ensures Join(pieces + [piece], ' ') == Join(pieces, ' ') + " " + piece
  {
    if |pieces| == 1 {
      assert (pieces + [piece])[1..] == [piece];
    } else {
      assert (pieces + [piece])[1..] == pieces[1..] + [piece];
      JoinSnoc(pieces[1..], piece);
    }
  }

  /** The title text is the pieces joined with single spaces, plus a space. */
  lemma {:induction false} SpacedIsJoin(pieces: seq<string>)
    ensures Spaced(pieces) == if pieces == [] then [] else Join(pieces, ' ') + " "
  {
    if pieces != [] {
      var init := pieces[..|pieces| - 1];
      SpacedIsJoin(init);
      if init != [] {
        JoinSnoc(init, pieces[|pieces| - 1]);
        assert init + [pieces[|pieces| - 1]] == pieces;
      }
    }
  }

  /** The title is the pieces after the first space, up to the first id
      piece, re-joined with single spaces and trimmed; the id is that piece
      without `{#` and `}`, or empty when there is no id piece. */
  lemma TitleAndId(data: string)
    requires LeadingCount(data, '#') < 256
    requires HeadOf(data).Head?
    ensures var pieces := TitlePieces(data);
            var k := FirstIdPiece(pieces, 0);
            && HeadOf(data).title == TrimEnd(Join(pieces[..k], ' '))
            && (k < |pieces| ==> "{#" + HeadOf(data).id + "}" == pieces[k])
            && (k == |pieces| ==> HeadOf(data).id == [])
  {
    var pieces := TitlePieces(data);
    var k := FirstIdPiece(pieces, 0);
    SpacedIsJoin(pieces[..k]);
    TrimEndSpace(Join(pieces[..k], ' '));
  }

  lemma FirstIdPieceAppend(a: seq<string>, b: seq<string>)
    requires FirstIdPiece(a, 0) < |a|
    ensures FirstIdPiece(a + b, 0) == FirstIdPiece(a, 0)
  {
    var k, k' := FirstIdPiece(a, 0), FirstIdPiece(a + b, 0);
    assert (a + b)[k] == a[k];
  }

  lemma TitlePiecesAppend(data: string, rest: string)
    ensures TitlePieces(data + " " + rest) == TitlePieces(data) + Split(rest, ' ')
  {
    assert data + " " + rest == data + [' '] + rest;
    SplitAtSep(data, ' ', rest);
  }

  /** An id piece ends the title: whatever follows it is dropped. */
  lemma RestAfterIdIgnored(data: string, rest: string)
    requires LeadingCount(data, '#') < 256
    requires HeadOf(data).Head?
    requires FirstIdPiece(TitlePieces(data), 0) < |TitlePieces(data)|
    ensures LeadingCount(data + " " + rest, '#') == LeadingCount(data, '#')
    ensures HeadOf(data + " " + rest) == HeadOf(data)
  {
    var n := LeadingCount(data, '#');
    if n == |data| {
      SplitNoSep(data, ' ');
    }
    LeadingCountAppend(data, " " + rest, '#');
    var ps, ps' := TitlePieces(data), TitlePieces(data + " " + rest);
    TitlePiecesAppend(data, rest);
    FirstIdPieceAppend(ps, Split(rest, ' '));
    var k := FirstIdPiece(ps, 0);
    assert ps'[..k] == ps[..k];
    assert ps'[k] == ps[k];
    assert (data + " " + rest)[n] == data[n] == ' ';
    assert FirstIdPiece(ps', 0) == k;
    assert HeadOf(data) == Head(TrimEnd(Spaced(ps[..k])), n as u8, IdOf(ps[k]));
  }
}
