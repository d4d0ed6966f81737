/** Splitting the text of a runbook section into chunks of bounded size. */
module RagChunking {
  import opened Basics

  // ---- Text ---------------------------------------------------------------------------------

  predicate LineBreak(c: char) { c in {'\n', '\r', '\U{000b}', '\U{000c}', '\U{001c}', '\U{001d}', '\U{001e}',
          '\U{0085}', '\U{2028}', '\U{2029}'} }

  predicate Space(c: char) { LineBreak(c) || c in {' ', '\t', '\U{001f}', '\U{00a0}', '\U{1680}', '\U{202f}',
          '\U{205f}', '\U{3000}'} || '\U{2000}' <= c <= '\U{200a}' }

  predicate Blank(s: string) { forall c | c in s :: Space(c) }

  /** The text without its white space: what splitting has to preserve. */
  function Squeeze(s: string): string { Filter(s, (c: char) => !Space(c)) }

  function StripLeft(s: string): string {
    if s != "" && Space(s[0]) then StripLeft(s[1..]) else s
  }

  function StripRight(s: string): string {
    if s != "" && Space(s[|s| - 1]) then StripRight(s[..|s| - 1]) else s
  }

  function Strip(s: string): string { StripRight(StripLeft(s)) }

  predicate Stripped(s: string) { s != "" && !Space(s[0]) && !Space(s[|s| - 1]) }

  lemma {:induction false} StripLeftKeeps(s: string)
    ensures Squeeze(StripLeft(s)) == Squeeze(s) && |StripLeft(s)| <= |s|
    ensures StripLeft(s) == "" || !Space(StripLeft(s)[0])
    ensures Blank(s) ==> StripLeft(s) == ""
  {
    if s != "" && Space(s[0]) {
      StripLeftKeeps(s[1..]);
    }
  }

  lemma {:induction false} StripRightKeeps(s: string)
    ensures Squeeze(StripRight(s)) == Squeeze(s) && |StripRight(s)| <= |s|
    ensures StripRight(s) == "" || !Space(StripRight(s)[|StripRight(s)| - 1])
    ensures s != "" && !Space(s[0]) ==> StripRight(s) != "" && StripRight(s)[0] == s[0]
  {
    if s != "" && Space(s[|s| - 1]) {
      var front, last := s[..|s| - 1], s[|s| - 1];
      StripRightKeeps(front);
      assert s == front + [last];
      FilterAppend(front, [last], (c: char) => !Space(c));
      FilterNone([last], (c: char) => !Space(c));
    }
  }

  lemma StripKeeps(s: string)
    ensures Squeeze(Strip(s)) == Squeeze(s) && |Strip(s)| <= |s|
    ensures Strip(s) == "" || Stripped(Strip(s))
    ensures s != "" && !Space(s[0]) ==> Strip(s) != ""
  {
    StripLeftKeeps(s);
    StripRightKeeps(StripLeft(s));
  }

  lemma SqueezeAppend(a: string, b: string)
    ensures Squeeze(a + b) == Squeeze(a) + Squeeze(b)
  {
    FilterAppend(a, b, (c: char) => !Space(c));
  }

  lemma SqueezeBlank(s: string)
    requires Blank(s)
    ensures Squeeze(s) == ""
  {
    FilterNone(s, (c: char) => !Space(c));
  }

  /** The pieces of a text, one after the other, without white space. */
  function SqueezeAll(pieces: seq<string>): string {
    if pieces == [] then "" else Squeeze(pieces[0]) + SqueezeAll(pieces[1..])
  }

  lemma {:induction false} SqueezeAllAppend(xs: seq<string>, ys: seq<string>)
    ensures SqueezeAll(xs + ys) == SqueezeAll(xs) + SqueezeAll(ys)
  {
    hide Squeeze;
    if xs == [] {
      assert xs + ys == ys;
    } else {
      SqueezeAllAppend(xs[1..], ys);
      assert (xs + ys)[0] == xs[0] && (xs + ys)[1..] == xs[1..] + ys;
      Associative(Squeeze(xs[0]), SqueezeAll(xs[1..]), SqueezeAll(ys));
    }
  }

  lemma EmptySqueeze()
    ensures Squeeze("") == "" && SqueezeAll([]) == ""
  {
  }

  lemma OneChunk(chunk: string)
    ensures SqueezeAll([chunk]) == Squeeze(chunk)
  {
    assert SqueezeAll([chunk]) == Squeeze(chunk) + SqueezeAll([chunk][1..]) == Squeeze(chunk) + "";
  }

  // ---- Lines and paragraphs --------------------------------------------------------------------

  /** The stripped nonblank lines; splitting a line end of two characters only adds a
      blank line. */
  function Lines(s: string, line: string): seq<string> {
    if s == "" then NonBlank(line)
    else if LineBreak(s[0]) then NonBlank(line) + Lines(s[1..], "")
    else Lines(s[1..], line + [s[0]])
  }

  function NonBlank(s: string): seq<string> { if Strip(s) == "" then [] else [Strip(s)] }

  lemma NonBlankKeeps(s: string)
    ensures SqueezeAll(NonBlank(s)) == Squeeze(s)
    ensures forall i | 0 <= i < |NonBlank(s)| :: Stripped(NonBlank(s)[i])
  {
    StripKeeps(s);
    if Strip(s) == "" { assert Squeeze("") == ""; }
  }

  lemma {:induction false} LinesKeep(s: string, line: string)
    ensures SqueezeAll(Lines(s, line)) == Squeeze(line) + Squeeze(s)
    ensures forall i | 0 <= i < |Lines(s, line)| :: Stripped(Lines(s, line)[i])
    decreases |s|
  {
    hide Squeeze, NonBlank, LineBreak, Stripped;
    NonBlankKeeps(line);
    if s == "" {
      EmptySqueeze();
    } else {
      assert s == [s[0]] + s[1..];
      SqueezeAppend([s[0]], s[1..]);
      if LineBreak(s[0]) {
        LinesKeep(s[1..], "");
        SqueezeAllAppend(NonBlank(line), Lines(s[1..], ""));
        SqueezeBlank([s[0]]);
        EmptySqueeze();
      } else {
        LinesKeep(s[1..], line + [s[0]]);
        SqueezeAppend(line, [s[0]]);
        Associative(Squeeze(line), Squeeze([s[0]]), Squeeze(s[1..]));
      }
    }
  }

  /** How many characters from the start of `s` a paragraph break takes: a newline, white
      space as far as it goes, and its last newline; zero when there is none. */
  function BreakLength(s: string): (n: nat)
    ensures n <= |s| && Blank(s[..n])
  {
    if s == "" || s[0] != '\n' then 0 else
    var n := LastNewline(s[1..], 0, 0);
    if n == 0 then 0 else
      assert s[..n + 1] == [s[0]] + s[1..][..n];
      n + 1
  }

  /** The end of the last newline in the white space at the start of `s`, from `i` on. */
  function LastNewline(s: string, i: nat, found: nat): (n: nat)
    requires found <= i <= |s| && Blank(s[..i])
    ensures n <= |s| && Blank(s[..n])
    decreases |s| - i
  {
    if i == |s| || !Space(s[i]) then
      assert s[..found] == s[..i][..found];
      found
    else
      assert s[..i + 1] == s[..i] + [s[i]];
      LastNewline(s, i + 1, if s[i] == '\n' then i + 1 else found)
  }

  /** The stripped nonblank paragraphs, as split at every break; `text` is what is left
      to read and `paragraph` what was read since the last break. */
  function Paragraphs(text: string, paragraph: string): seq<string>
    decreases |text|
  {
    if text == "" then NonBlank(paragraph)
    else if BreakLength(text) > 0 then NonBlank(paragraph) + Paragraphs(text[BreakLength(text)..], "")
    else Paragraphs(text[1..], paragraph + [text[0]])
  }

  lemma {:induction false} ParagraphsKeep(text: string, paragraph: string)
    ensures SqueezeAll(Paragraphs(text, paragraph)) == Squeeze(paragraph) + Squeeze(text)
    ensures forall i | 0 <= i < |Paragraphs(text, paragraph)| :: Stripped(Paragraphs(text, paragraph)[i])
    decreases |text|
  {
    hide Squeeze, NonBlank, Stripped, BreakLength, Blank;
    NonBlankKeeps(paragraph);
    if text == "" {
      EmptySqueeze();
    } else {
      var n := if BreakLength(text) > 0 then BreakLength(text) else 1;
      assert text == text[..n] + text[n..];
      SqueezeAppend(text[..n], text[n..]);
      if BreakLength(text) > 0 {
        ParagraphsKeep(text[n..], "");
        SqueezeAllAppend(NonBlank(paragraph), Paragraphs(text[n..], ""));
        SqueezeBlank(text[..n]);
        EmptySqueeze();
      } else {
        ParagraphsKeep(text[1..], paragraph + [text[0]]);
        SqueezeAppend(paragraph, [text[0]]);
        assert text[..1] == [text[0]];
        Associative(Squeeze(paragraph), Squeeze([text[0]]), Squeeze(text[1..]));
      }
    }
  }

  // ---- Oversized paragraphs ----------------------------------------------------------------------

  /** The last place before `end` where `s` has a space, or a full stop and a space. */
  function LastSpace(s: string, end: nat): (i: int)
    requires end <= |s|
    ensures -1 <= i < end && (i >= 0 ==> s[i] == ' ')
    ensures forall j | i < j < end :: s[j] != ' '
  {
    if end == 0 then -1 else if s[end - 1] == ' ' then end - 1 else LastSpace(s, end - 1)
  }

  function LastStop(s: string, end: nat): (i: int)
    requires end <= |s|
    ensures -1 <= i && (i >= 0 ==> i + 1 < end && s[i] == '.' && s[i + 1] == ' ')
  {
    if end < 2 then -1 else if s[end - 2] == '.' && s[end - 1] == ' ' then end - 2 else LastStop(s, end - 1)
  }

  /** Where an oversized rest is cut. */
  function Boundary(s: string, limit: nat): (b: nat)
    requires 0 < limit < |s|
    ensures 0 < b <= limit
  {
    var stop, space := LastStop(s, limit), LastSpace(s, limit);
    var last := if stop > space then stop else space;
    if last >= limit / 2 then last + 1 else limit
  }

  function CutUp(remaining: string, limit: nat): (pieces: seq<string>)
    requires limit > 0
    decreases |remaining|
  {
    if |remaining| > limit then
      var b := Boundary(remaining, limit);
      StripKeeps(remaining[b..]);
      [Strip(remaining[..b])] + CutUp(Strip(remaining[b..]), limit)
    else if remaining != "" then [remaining] else []
  }

  function SplitOversized(paragraph: string, limit: nat): seq<string>
    requires limit > 0
  {
    if |paragraph| <= limit then [paragraph]
    else
      var lines := Lines(paragraph, "");
      if |lines| > 1 && forall i | 0 <= i < |lines| :: |lines[i]| <= limit then lines else CutUp(paragraph, limit)
  }

  /** Pieces a chunk can take: stripped, and within the limit. */
  predicate Pieces(pieces: seq<string>, limit: nat) {
    forall i | 0 <= i < |pieces| :: Stripped(pieces[i]) && |pieces[i]| <= limit
  }

  lemma CutUpNext(remaining: string, limit: nat)
    requires limit > 0
    ensures CutUp(remaining, limit) ==
      if |remaining| > limit then [Strip(remaining[..Boundary(remaining, limit)])]
        + CutUp(Strip(remaining[Boundary(remaining, limit)..]), limit)
      else if remaining != "" then [remaining] else []
  {
  }

  lemma {:induction false} CutUpKeeps(remaining: string, limit: nat)
    requires limit > 0 && (remaining == "" || Stripped(remaining))
    ensures Pieces(CutUp(remaining, limit), limit) && SqueezeAll(CutUp(remaining, limit)) == Squeeze(remaining)
    decreases |remaining|
  {
    hide CutUp, Strip, Squeeze, Boundary;
    CutUpNext(remaining, limit);
    if |remaining| > limit {
      var b := Boundary(remaining, limit);
      StripKeeps(remaining[..b]);
      StripKeeps(remaining[b..]);
      CutUpKeeps(Strip(remaining[b..]), limit);
      assert remaining == remaining[..b] + remaining[b..];
      SqueezeAppend(remaining[..b], remaining[b..]);
      SqueezeAllAppend([Strip(remaining[..b])], CutUp(Strip(remaining[b..]), limit));
      OneChunk(Strip(remaining[..b]));
    } else if remaining == "" {
      EmptySqueeze();
    } else {
      OneChunk(remaining);
    }
  }

  /** However a paragraph is split, its pieces fit and hold all of its text. */
  lemma SplitKeeps(paragraph: string, limit: nat)
    requires limit > 0 && Stripped(paragraph)
    ensures Pieces(SplitOversized(paragraph, limit), limit)
    ensures SqueezeAll(SplitOversized(paragraph, limit)) == Squeeze(paragraph)
  {
    hide Lines, CutUp, Squeeze, SqueezeAll, Stripped;
    LinesKeep(paragraph, "");
    EmptySqueeze();
    CutUpKeeps(paragraph, limit);
    OneChunk(paragraph);
  }

  method SplitOversizedParagraph(paragraph: string, limit: nat) returns (pieces: seq<string>)
    requires limit > 0
    ensures pieces == SplitOversized(paragraph, limit)
  {
    if |paragraph| <= limit { return [paragraph]; }
    var lines := Lines(paragraph, "");
    if |lines| > 1 && forall i | 0 <= i < |lines| :: |lines[i]| <= limit { return lines; }
    hide CutUp, Strip, Boundary, Lines;
    pieces := [];
    var remaining := paragraph;
    while |remaining| > limit
      invariant pieces + CutUp(remaining, limit) == CutUp(paragraph, limit)
      decreases |remaining|
    {
      var boundary := Boundary(remaining, limit);
      CutUpNext(remaining, limit);
      StripKeeps(remaining[boundary..]);
      Associative(pieces, [Strip(remaining[..boundary])], CutUp(Strip(remaining[boundary..]), limit));
      pieces := pieces + [Strip(remaining[..boundary])];
      remaining := Strip(remaining[boundary..]);
    }
    CutUpNext(remaining, limit);
    if remaining != "" { pieces := pieces + [remaining]; }
  }

  // ---- Packing ---------------------------------------------------------------------------------------

  const SEPARATOR := "\n\n"

  function Join(pieces: seq<string>): string {
    if pieces == [] then "" else if |pieces| == 1 then pieces[0]
    else Join(pieces[..|pieces| - 1]) + SEPARATOR + pieces[|pieces| - 1]
  }

  lemma JoinNext(pieces: seq<string>, piece: string)
    requires pieces != []
    ensures Join(pieces + [piece]) == Join(pieces) + SEPARATOR + piece
  {
    assert (pieces + [piece])[..|pieces|] == pieces;
  }

  lemma {:induction false} JoinKeeps(pieces: seq<string>)
    ensures Squeeze(Join(pieces)) == SqueezeAll(pieces)
  {
    if |pieces| == 0 {
      assert Squeeze("") == "";
    } else if |pieces| == 1 {
      assert SqueezeAll(pieces) == Squeeze(pieces[0]) + SqueezeAll(pieces[1..]) == Squeeze(pieces[0]) + "";
    } else {
      var n := |pieces| - 1;
      JoinKeeps(pieces[..n]);
      SqueezeAppend(Join(pieces[..n]) + SEPARATOR, pieces[n]);
      SqueezeAppend(Join(pieces[..n]), SEPARATOR);
      SqueezeBlank(SEPARATOR);
      SqueezeAllAppend(pieces[..n], [pieces[n]]);
      assert pieces == pieces[..n] + [pieces[n]];
      assert SqueezeAll([pieces[n]]) == Squeeze(pieces[n]) + "";
    }
  }

  /** Greedy packing: the group under construction, and the pieces still to place. */
  function Pack(current: seq<string>, pieces: seq<string>, limit: nat): seq<seq<string>>
    decreases |pieces|
  {
    if pieces == [] then if current == [] then [] else [current]
    else if current != [] && |Join(current)| + |pieces[0]| + 2 > limit then
      [current] + Pack([pieces[0]], pieces[1..], limit)
    else Pack(current + [pieces[0]], pieces[1..], limit)
  }

  /** A division of the pieces, in order, into groups whose joined text fits. */
  ghost predicate Packing(groups: seq<seq<string>>, pieces: seq<string>, limit: nat) {
    && Flatten(groups) == pieces
    && forall i | 0 <= i < |groups| :: groups[i] != [] && |Join(groups[i])| <= limit
  }

  lemma OneMoreGroup(current: seq<string>, groups: seq<seq<string>>, pieces: seq<string>, limit: nat)
    requires current != [] && |Join(current)| <= limit && Packing(groups, pieces, limit)
    ensures Packing([current] + groups, current + pieces, limit)
  {
    hide Join;
    assert ([current] + groups)[1..] == groups;
  }

  lemma LastGroup(current: seq<string>, limit: nat)
    requires |Join(current)| <= limit
    ensures Packing(if current == [] then [] else [current], current, limit)
  {
    hide Join;
    var none: seq<seq<string>> := [];
    assert Flatten(none) == [];
    if current != [] { assert [current][1..] == none; }
  }

  lemma {:induction false} PackIsPacking(current: seq<string>, pieces: seq<string>, limit: nat)
    requires Pieces(pieces, limit) && |Join(current)| <= limit
    ensures Packing(Pack(current, pieces, limit), current + pieces, limit)
    decreases |pieces|
  {
    hide Packing, Join, Stripped;
    if pieces == [] {
      assert current + pieces == current;
      LastGroup(current, limit);
    } else {
      var piece, rest := pieces[0], pieces[1..];
      assert pieces == [piece] + rest;
      if current != [] && |Join(current)| + |piece| + 2 > limit {
        assert |Join([piece])| == |piece| by { JoinGrows([], piece); assert [] + [piece] == [piece]; }
        PackIsPacking([piece], rest, limit);
        OneMoreGroup(current, Pack([piece], rest, limit), pieces, limit);
      } else {
        JoinGrows(current, piece);
        PackIsPacking(current + [piece], rest, limit);
        assert (current + [piece]) + rest == current + pieces;
      }
    }
  }

  // ---- No other packing has fewer groups ---------------------------------------------------------------

  lemma {:induction false} JoinLength(xs: seq<string>, ys: seq<string>)
    requires xs != [] && ys != []
    ensures |Join(xs + ys)| == |Join(xs)| + 2 + |Join(ys)|
    decreases |ys|
  {
    var n := |ys| - 1;
    if n == 0 {
      JoinNext(xs, ys[0]);
      assert xs + ys == xs + [ys[0]];
    } else {
      JoinLength(xs, ys[..n]);
      JoinNext(xs + ys[..n], ys[n]);
      assert xs + ys == (xs + ys[..n]) + [ys[n]];
    }
  }

  /** A run of pieces inside a group is no longer than the group. */
  lemma InnerFits(pieces: seq<string>, a: nat, s: nat, i: nat, b: nat)
    requires a <= s < i <= b <= |pieces|
    ensures |Join(pieces[s..i])| <= |Join(pieces[a..b])|
  {
    if a < s {
      assert pieces[a..i] == pieces[a..s] + pieces[s..i];
      JoinLength(pieces[a..s], pieces[s..i]);
    }
    if i < b {
      assert pieces[a..b] == pieces[a..i] + pieces[i..b];
      JoinLength(pieces[a..i], pieces[i..b]);
    }
  }

  lemma FirstGroup(groups: seq<seq<string>>, pieces: seq<string>, a: nat, limit: nat) returns (b: nat)
    requires a < |pieces| && Packing(groups, pieces[a..], limit)
    ensures groups != [] && a < b <= |pieces| && groups[0] == pieces[a..b] && |Join(pieces[a..b])| <= limit
    ensures Packing(groups[1..], pieces[b..], limit)
  {
    var none: seq<seq<string>> := [];
    assert Flatten(none) == [];
    b := a + |groups[0]|;
    assert pieces[a..] == groups[0] + Flatten(groups[1..]);
    assert pieces[a..][..|groups[0]|] == groups[0] && pieces[a..][|groups[0]|..] == Flatten(groups[1..]);
    assert pieces[a..][..|groups[0]|] == pieces[a..b] && pieces[a..][|groups[0]|..] == pieces[b..];
  }

  /** A group that begins no later than the current one ends before a piece that the
      current one has no room for. */
  lemma EndsBefore(pieces: seq<string>, a: nat, s: nat, i: nat, b: nat, limit: nat)
    requires a <= s < i < |pieces| && a < b <= |pieces|
    requires |Join(pieces[s..i])| + |pieces[i]| + 2 > limit >= |Join(pieces[a..b])|
    ensures b <= i
  {
    hide Join;
    JoinNext(pieces[s..i], pieces[i]);
    assert pieces[s..i] + [pieces[i]] == pieces[s..i + 1];
    if b > i {
      InnerFits(pieces, a, s, i + 1, b);
    }
  }

  /** Greedy packing from any point on needs no more groups than any packing that still
      has at least those pieces to place. */
  lemma {:induction false} GreedyStaysAhead(pieces: seq<string>, s: nat, i: nat, a: nat, groups: seq<seq<string>>,
          limit: nat)
    requires a <= s <= i <= |pieces| && Packing(groups, pieces[a..], limit)
    ensures |Pack(pieces[s..i], pieces[i..], limit)| <= |groups|
    decreases |pieces| - i
  {
    hide Join, Packing;
    var current, rest := pieces[s..i], pieces[i..];
    if i == |pieces| {
      if s < i {
        var b := FirstGroup(groups, pieces, a, limit);
      }
    } else {
      assert rest[0] == pieces[i] && rest[1..] == pieces[i + 1..];
      if current != [] && |Join(current)| + |rest[0]| + 2 > limit {
        var b := FirstGroup(groups, pieces, a, limit);
        EndsBefore(pieces, a, s, i, b, limit);
        assert [rest[0]] == pieces[i..i + 1];
        GreedyStaysAhead(pieces, i, i + 1, b, groups[1..], limit);
      } else {
        assert current + [rest[0]] == pieces[s..i + 1];
        GreedyStaysAhead(pieces, s, i + 1, a, groups, limit);
      }
    }
  }

  /** The greedy packing uses the fewest chunks of any division of the same pieces. */
  lemma GreedyIsMinimal(pieces: seq<string>, groups: seq<seq<string>>, limit: nat)
    requires Packing(groups, pieces, limit)
    ensures |Pack([], pieces, limit)| <= |groups|
  {
    assert pieces[0..] == pieces && pieces[0..0] == [];
    GreedyStaysAhead(pieces, 0, 0, 0, groups, limit);
  }

  // ---- Section chunks ---------------------------------------------------------------------------------------

  /** All pieces of the paragraphs, in order. */
  function AllPieces(paragraphs: seq<string>, limit: nat): seq<string>
    requires limit > 0
  {
    if paragraphs == [] then [] else SplitOversized(paragraphs[0], limit) + AllPieces(paragraphs[1..], limit)
  }

  lemma {:induction false} AllPiecesKeep(paragraphs: seq<string>, limit: nat)
    requires limit > 0 && forall i | 0 <= i < |paragraphs| :: Stripped(paragraphs[i])
    ensures Pieces(AllPieces(paragraphs, limit), limit)
    ensures SqueezeAll(AllPieces(paragraphs, limit)) == SqueezeAll(paragraphs)
  {
    if paragraphs != [] {
      SplitKeeps(paragraphs[0], limit);
      AllPiecesKeep(paragraphs[1..], limit);
      SqueezeAllAppend(SplitOversized(paragraphs[0], limit), AllPieces(paragraphs[1..], limit));
    }
  }

  function BodyLimit(maxChars: nat): nat { maxChars - (if maxChars / 3 < 300 then maxChars / 3 else 300) }

  function Joined(groups: seq<seq<string>>): seq<string> { Map(groups, Join) }

  function SectionPieces(text: string, maxChars: nat): seq<string>
    requires maxChars >= 400
  {
    AllPieces(Paragraphs(text, ""), BodyLimit(maxChars))
  }

  function Chunks(text: string, maxChars: nat): seq<string>
    requires maxChars >= 400
  {
    var result := Joined(Pack([], SectionPieces(text, maxChars), BodyLimit(maxChars)));
    if result == [] then [Take(text, BodyLimit(maxChars))] else result
  }

  lemma {:induction false} JoinedKeeps(groups: seq<seq<string>>)
    ensures SqueezeAll(Joined(groups)) == SqueezeAll(Flatten(groups))
  {
    if groups != [] {
      JoinedKeeps(groups[1..]);
      JoinKeeps(groups[0]);
      SqueezeAllAppend(groups[0], Flatten(groups[1..]));
      assert Joined(groups)[1..] == Joined(groups[1..]);
    }
  }

  lemma SqueezeOfEmpty(text: string)
    requires Squeeze(text) == ""
    ensures forall n: nat | n <= |text| :: Squeeze(text[..n]) == ""
  {
    forall n: nat | n <= |text| ensures Squeeze(text[..n]) == "" {
      assert text == text[..n] + text[n..];
      SqueezeAppend(text[..n], text[n..]);
    }
  }

  /** Every chunk body fits, and together the chunks hold the text of the section up to
      white space. */
  lemma ChunksKeepText(text: string, maxChars: nat)
    requires maxChars >= 400
    ensures forall i | 0 <= i < |Chunks(text, maxChars)| :: |Chunks(text, maxChars)[i]| <= BodyLimit(maxChars)
    ensures SqueezeAll(Chunks(text, maxChars)) == Squeeze(text)
    ensures Chunks(text, maxChars) != []
  {
    hide Squeeze, SqueezeAll, AllPieces, Pack, Paragraphs, Join;
    var limit, pieces := BodyLimit(maxChars), SectionPieces(text, maxChars);
    ParagraphsKeep(text, "");
    AllPiecesKeep(Paragraphs(text, ""), limit);
    assert |Join([])| == 0 by { EmptyJoin(); }
    PackIsPacking([], pieces, limit);
    assert [] + pieces == pieces;
    var groups := Pack([], pieces, limit);
    JoinedKeeps(groups);
    EmptySqueeze();
    if Joined(groups) == [] {
      assert groups == [] && pieces == [] by { var none: seq<seq<string>> := []; assert Flatten(none) == []; }
      SqueezeOfEmpty(text);
      OneChunk(Take(text, limit));
    }
  }

  lemma EmptyJoin()
    ensures Join([]) == ""
  {
  }

  /** A section with text becomes the fewest chunks that any division of its pieces, in
      order, can have. */
  lemma ChunksAreFewest(text: string, maxChars: nat, groups: seq<seq<string>>)
    requires maxChars >= 400 && SectionPieces(text, maxChars) != []
    requires Packing(groups, SectionPieces(text, maxChars), BodyLimit(maxChars))
    ensures |Chunks(text, maxChars)| <= |groups|
  {
    hide AllPieces, Pack, Paragraphs, Join, Packing;
    GreedyIsMinimal(SectionPieces(text, maxChars), groups, BodyLimit(maxChars));
    assert groups != [] by { Nonempty(groups, SectionPieces(text, maxChars), BodyLimit(maxChars)); }
  }

  lemma Nonempty(groups: seq<seq<string>>, pieces: seq<string>, limit: nat)
    requires Packing(groups, pieces, limit) && pieces != []
    ensures groups != []
  {
  }

  /** The chunks emitted so far and those still to come are the greedy packing of all. */
  ghost predicate OnCourse(result: seq<string>, current: seq<string>, rest: seq<string>, all: seq<string>, limit: nat) {
    result + Joined(Pack(current, rest, limit)) == Joined(Pack([], all, limit))
  }

  lemma Emits(result: seq<string>, current: seq<string>, pieces: seq<string>, j: nat, later: seq<string>,
          all: seq<string>, limit: nat)
    requires j < |pieces| && OnCourse(result, current, pieces[j..] + later, all, limit)
    ensures if current != [] && |Join(current)| + |pieces[j]| + 2 > limit
      then OnCourse(result + [Join(current)], [pieces[j]], pieces[j + 1..] + later, all, limit)
      else OnCourse(result, current + [pieces[j]], pieces[j + 1..] + later, all, limit)
  {
    hide Join, Joined, Pack;
    PackNext(current, pieces, j, later, limit);
    Associative(result, [Join(current)], Joined(Pack([pieces[j]], pieces[j + 1..] + later, limit)));
  }

  lemma NextParagraph(paragraphs: seq<string>, i: nat, limit: nat)
    requires limit > 0 && i < |paragraphs|
    ensures AllPieces(paragraphs[i..], limit)
      == SplitOversized(paragraphs[i], limit) + AllPieces(paragraphs[i + 1..], limit)
  {
    assert paragraphs[i..][0] == paragraphs[i] && paragraphs[i..][1..] == paragraphs[i + 1..];
  }

  lemma Finished(result: seq<string>, current: seq<string>, all: seq<string>, limit: nat)
    requires OnCourse(result, current, [], all, limit)
    ensures Joined(Pack([], all, limit)) == if current == [] then result else result + [Join(current)]
  {
    hide Join;
    assert Pack(current, [], limit) == if current == [] then [] else [current];
    if current == [] { assert result + [] == result; }
  }

  method SectionChunks(text: string, maxChars: nat) returns (result: seq<string>)
    requires maxChars >= 400
    ensures result == Chunks(text, maxChars)
  {
    hide SplitOversized, Paragraphs, Join, Joined, Pack, OnCourse, AllPieces;
    var limit := BodyLimit(maxChars);
    var paragraphs := Paragraphs(text, "");
    ghost var all := AllPieces(paragraphs, limit);
    result := [];
    var current: seq<string>, currentSize := [], 0;
    EmptyJoin();
    assert paragraphs[0..] == paragraphs;
    assert OnCourse([], [], all, all, limit) by { Starts(all, limit); }
    for i := 0 to |paragraphs|
      invariant currentSize == |Join(current)|
      invariant OnCourse(result, current, AllPieces(paragraphs[i..], limit), all, limit)
    {
      NextParagraph(paragraphs, i, limit);
      ghost var later := AllPieces(paragraphs[i + 1..], limit);
      var pieces := SplitOversizedParagraph(paragraphs[i], limit);
      assert pieces[0..] == pieces;
      for j := 0 to |pieces|
        invariant currentSize == |Join(current)|
        invariant OnCourse(result, current, pieces[j..] + later, all, limit)
      {
        var piece := pieces[j];
        Emits(result, current, pieces, j, later, all, limit);
        if current != [] && currentSize + |piece| + 2 > limit {
          result := result + [Join(current)];
          current, currentSize := [], 0;
          assert [] + [piece] == [piece];
        }
        JoinGrows(current, piece);
        currentSize := currentSize + |piece| + (if current != [] then 2 else 0);
        current := current + [piece];
      }
      assert pieces[|pieces|..] + later == later;
    }
    assert AllPieces(paragraphs[|paragraphs|..], limit) == [] by {
      NoParagraphs(limit);
      assert paragraphs[|paragraphs|..] == [];
    }
    Finished(result, current, all, limit);
    if current != [] { result := result + [Join(current)]; }
    if result == [] { return [Take(text, limit)]; }
  }

  lemma Starts(all: seq<string>, limit: nat)
    ensures OnCourse([], [], all, all, limit)
  {
    hide Join, Pack;
    assert [] + Joined(Pack([], all, limit)) == Joined(Pack([], all, limit));
  }

  lemma NoParagraphs(limit: nat)
    requires limit > 0
    ensures AllPieces([], limit) == []
  {
  }

  lemma JoinGrows(current: seq<string>, piece: string)
    ensures |Join(current + [piece])| == |Join(current)| + |piece| + (if current != [] then 2 else 0)
    ensures Join([]) == ""
  {
    if current == [] { assert current + [piece] == [piece]; } else { JoinNext(current, piece); }
  }

  lemma PackNext(current: seq<string>, pieces: seq<string>, j: nat, later: seq<string>, limit: nat)
    requires j < |pieces|
    ensures Joined(Pack(current, pieces[j..] + later, limit)) ==
      if current != [] && |Join(current)| + |pieces[j]| + 2 > limit
      then [Join(current)] + Joined(Pack([pieces[j]], pieces[j + 1..] + later, limit))
      else Joined(Pack(current + [pieces[j]], pieces[j + 1..] + later, limit))
  {
    hide Join;
    assert (pieces[j..] + later)[0] == pieces[j] && (pieces[j..] + later)[1..] == pieces[j + 1..] + later;
  }
}
