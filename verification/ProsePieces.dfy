/** Where the prose splits cut: exactly where a run of delimiters ends, and, at the
    coarse levels, around the whitespace at the ends of what they cut out. */
module ProsePieces {
  import opened Sequences
  import opened ProseSegments
  import opened ProseDiff

  /** A delimiter followed by something else. */
  predicate Ends(a: char, b: char, level: nat) {
    Delimiter(a, level) && !Delimiter(b, level)
  }

  /** No chunk holds the end of a run of delimiters, and each ends with one where the
      next begins. */
  ghost predicate CutAtEnds(chunks: seq<string>, level: nat) {
    && (forall i :: 0 <= i < |chunks| ==> chunks[i] != "")
    && (forall i :: 0 < i < |chunks| ==> Ends(Last(chunks[i - 1]), chunks[i][0], level))
    && (forall i, k :: 0 <= i < |chunks| && 0 < k < |chunks[i]| ==> !Ends(chunks[i][k - 1], chunks[i][k], level))
  }

  lemma DelimitersAre(c: char)
    ensures Delimiter(c, PARAGRAPH) <==> c == '\n'
    ensures Delimiter(c, SENTENCE) <==> c in "\n,!;?."
    ensures Delimiter(c, WORD) <==> c in "\t\n\U{000C}\r "
  {
  }

  /** The text up to and with each run of delimiters. */
  function Chunks(s: string, level: nat): (chunks: seq<string>)
    decreases |s|
  {
    var i := Span(s, level, false);
    if i == |s| then Keep(s)
    else
      var j := Span(s[i..], level, true);
      SpanStops(s, level, false);
      [s[..i + j]] + Chunks(s[i + j..], level)
  }

  lemma {:induction false} SpanOnly(s: string, level: nat, d: bool)
    ensures forall k :: 0 <= k < Span(s, level, d) ==> Delimiter(s[k], level) == d
  {
    if s != "" && Delimiter(s[0], level) == d {
      SpanOnly(s[1..], level, d);
      forall k | 0 <= k < Span(s, level, d) ensures Delimiter(s[k], level) == d {
        assert k > 0 ==> s[k] == s[1..][k - 1];
      }
    }
  }

  /** The first chunk, cut at the end of the first run of delimiters. */
  lemma FirstChunk(s: string, level: nat, i: nat, j: nat)
    requires i == Span(s, level, false) < |s| && j == Span(s[i..], level, true)
    ensures 0 < i + j <= |s| && Delimiter(s[i + j - 1], level) && (i + j < |s| ==> !Delimiter(s[i + j], level))
    ensures forall k :: 0 < k < i + j ==> !Ends(s[k - 1], s[k], level)
  {
    SpanStops(s, level, false);
    SpanOnly(s, level, false);
    SpanOnly(s[i..], level, true);
    SpanStops(s[i..], level, true);
    assert forall k :: i <= k < |s| ==> s[k] == s[i..][k - i];
  }

  lemma CutCons(c: string, rest: seq<string>, level: nat)
    requires c != "" && CutAtEnds(rest, level) && (rest != [] ==> Ends(Last(c), rest[0][0], level))
    requires forall k :: 0 < k < |c| ==> !Ends(c[k - 1], c[k], level)
    ensures CutAtEnds([c] + rest, level)
  {
  }

  lemma {:induction false} ChunksAreCut(s: string, level: nat)
    ensures Join(Chunks(s, level)) == s && CutAtEnds(Chunks(s, level), level)
    ensures Chunks(s, level) != [] ==> s != "" && Chunks(s, level)[0][0] == s[0]
    decreases |s|
  {
    var i := Span(s, level, false);
    if i == |s| {
      SpanOnly(s, level, false);
      JoinKeep(s);
    } else {
      var j := Span(s[i..], level, true);
      FirstChunk(s, level, i, j);
      var c, rest := s[..i + j], s[i + j..];
      ChunksAreCut(rest, level);
      CutCons(c, Chunks(rest, level), level);
      JoinCons(c, Chunks(rest, level));
      assert c + rest == s;
    }
  }

  /** Whitespace in front, a body without any at its ends, whitespace behind; what is
      empty is left out. */
  ghost predicate TrimmedAs(ps: seq<string>, input: string, lead: string, body: string, trail: string) {
    && input == lead + (body + trail) && ps == Keep(lead) + (Keep(body) + Keep(trail))
    && AllWhite(lead) && AllWhite(trail) && (body == "" ==> trail == "")
    && (body != "" ==> !Whitespace(body[0]) && !Whitespace(Last(body)))
  }

  ghost predicate Trimmed(ps: seq<string>, input: string) {
    exists lead, body, trail :: TrimmedAs(ps, input, lead, body, trail)
  }

  predicate AllWhite(s: string) {
    forall k :: 0 <= k < |s| ==> Whitespace(s[k])
  }

  /** Whitespace from `a` to `b`. */
  predicate White(s: string, a: nat, b: nat)
    requires b <= |s|
  {
    forall k :: a <= k < b ==> Whitespace(s[k])
  }

  lemma {:induction false} LeadingWhite(s: string)
    ensures White(s, 0, LeadingSpace(s))
    ensures LeadingSpace(s) < |s| ==> !Whitespace(s[LeadingSpace(s)])
  {
    if s != "" && Whitespace(s[0]) {
      LeadingWhite(s[1..]);
      forall k | 0 <= k < LeadingSpace(s) ensures Whitespace(s[k]) {
        assert k > 0 ==> s[k] == s[1..][k - 1];
      }
    }
  }

  lemma {:induction false} TrailingWhite(s: string)
    ensures White(s, |s| - TrailingSpace(s), |s|)
    ensures TrailingSpace(s) < |s| ==> !Whitespace(s[|s| - 1 - TrailingSpace(s)])
    decreases |s|
  {
    if s != "" && Whitespace(Last(s)) {
      TrailingWhite(Init(s));
      forall k | |s| - TrailingSpace(s) <= k < |s| ensures Whitespace(s[k]) {
        assert k < |s| - 1 ==> s[k] == Init(s)[k];
      }
    }
  }

  lemma PeelTrims(input: string, i: nat, j: nat)
    requires i + j <= |input| && White(input, 0, i) && White(input, |input| - j, |input|) && (i + j == |input| ==> j == 0)
    requires i + j < |input| ==> !Whitespace(input[i]) && !Whitespace(input[|input| - 1 - j])
    ensures TrimmedAs(Peel(input, i, j), input, input[..i], input[i..|input| - j], input[|input| - j..])
  {
    ThreeSlices(input, i, j);
    if i + j < |input| {
      SliceEnds(input, i, j);
    }
  }

  /** What is known of the text behind its leading whitespace, said of the whole. */
  lemma WhiteBehind(input: string, i: nat, rest: string, j: nat)
    requires i <= |input| && rest == input[i..] && j <= |rest| && White(rest, |rest| - j, |rest|)
    requires j < |rest| ==> !Whitespace(rest[|rest| - 1 - j])
    requires rest != "" ==> !Whitespace(rest[0])
    ensures White(input, |input| - j, |input|) && (i + j == |input| ==> j == 0)
    ensures i + j < |input| ==> !Whitespace(input[i]) && !Whitespace(input[|input| - 1 - j])
  {
    forall k | |input| - j <= k < |input| ensures Whitespace(input[k]) {
      assert input[k] == rest[k - i];
    }
  }

  lemma TrimsAt(input: string, i: nat, rest: string, j: nat)
    requires i <= |input| && rest == input[i..] && j <= |rest|
    requires White(input, 0, i) && (i < |input| ==> !Whitespace(input[i]))
    requires White(rest, |rest| - j, |rest|) && (j < |rest| ==> !Whitespace(rest[|rest| - 1 - j]))
    ensures Trimmed(Peel(input, i, j), input)
  {
    WhiteBehind(input, i, rest, j);
    PeelTrims(input, i, j);
  }

  lemma TrimApartTrims(input: string)
    ensures Trimmed(TrimApart(input), input)
  {
    var rest := input[LeadingSpace(input)..];
    LeadingWhite(input);
    TrailingWhite(rest);
    TrimsAt(input, LeadingSpace(input), rest, TrailingSpace(rest));
  }

  /** The pieces of all chunks, one after the other. */
  function PiecesOf(chunks: seq<string>, level: nat): (ps: seq<string>) {
    if chunks == [] then [] else Piece(chunks[0], level) + PiecesOf(chunks[1..], level)
  }

  lemma PiecesOfOne(s: string, level: nat)
    ensures PiecesOf(Keep(s), level) == Piece(s, level)
  {
    if s == "" {
      assert Piece(s, level) == [];
    } else {
      assert [s][1..] == [] && Piece(s, level) + [] == Piece(s, level);
    }
  }

  lemma StitchedCons(p: string, d: string, parts: seq<string>, delims: seq<string>, chunks: seq<string>, level: nat)
    requires Stitch(parts, delims, level) == PiecesOf(chunks, level)
    ensures Stitch([p] + parts, [d] + delims, level) == PiecesOf([p + d] + chunks, level)
  {
    StitchCons(p, parts, d, delims, level);
    assert ([p + d] + chunks)[1..] == chunks;
  }

  /** How the three recursions go on behind the first delimiters. */
  lemma {:induction false} BetweenFirst(s: string, level: nat, i: nat, j: nat)
    requires i == Span(s, level, false) < |s| && j == Span(s[i..], level, true)
    ensures 0 < i + j <= |s| && Between(s, level) == [s[..i]] + Between(s[i + j..], level)
  {
    SpanStops(s, level, false);
  }

  lemma {:induction false} DelimitersFirst(s: string, level: nat, i: nat, j: nat)
    requires i == Span(s, level, false) < |s| && j == Span(s[i..], level, true)
    ensures 0 < i + j <= |s| && Delimiters(s, level) == [s[i..i + j]] + Delimiters(s[i + j..], level)
  {
    SpanStops(s, level, false);
  }

  lemma {:induction false} ChunksFirst(s: string, level: nat, i: nat, j: nat)
    requires i == Span(s, level, false) < |s| && j == Span(s[i..], level, true)
    ensures 0 < i + j <= |s| && Chunks(s, level) == [s[..i] + s[i..i + j]] + Chunks(s[i + j..], level)
  {
    SpanStops(s, level, false);
    assert s[..i + j] == s[..i] + s[i..i + j];
  }

  lemma {:induction false} StitchIsChunks(s: string, level: nat)
    ensures Stitch(Between(s, level), Delimiters(s, level), level) == PiecesOf(Chunks(s, level), level)
    decreases |s|
  {
    var i := Span(s, level, false);
    if i == |s| {
      StitchOne(s, level);
      PiecesOfOne(s, level);
    } else {
      StitchIsChunksFrom(s, level, i);
    }
  }

  lemma {:induction false} StitchIsChunksFrom(s: string, level: nat, i: nat)
    requires i == Span(s, level, false) < |s|
    ensures Stitch(Between(s, level), Delimiters(s, level), level) == PiecesOf(Chunks(s, level), level)
    decreases |s|, 0
  {
    var j := Span(s[i..], level, true);
    BetweenFirst(s, level, i, j);
    DelimitersFirst(s, level, i, j);
    ChunksFirst(s, level, i, j);
    var rest := s[i + j..];
    StitchIsChunks(rest, level);
    StitchedCons(s[..i], s[i..i + j], Between(rest, level), Delimiters(rest, level), Chunks(rest, level), level);
  }

  lemma {:induction false} WordPieces(chunks: seq<string>)
    requires forall i :: 0 <= i < |chunks| ==> chunks[i] != ""
    ensures PiecesOf(chunks, WORD) == chunks
  {
    if chunks == [] {
    } else {
      WordPieces(chunks[1..]);
      assert chunks == [chunks[0]] + chunks[1..];
    }
  }

  /** Words end exactly where a run of whitespace does. */
  lemma WordsAreCut(s: string)
    ensures Join(SplitCorpus(s, WORD)) == s && CutAtEnds(SplitCorpus(s, WORD), WORD)
  {
    ChunksAreCut(s, WORD);
    StitchIsChunks(s, WORD);
    WordPieces(Chunks(s, WORD));
  }

  /** Paragraphs and sentences are cut where a run of their delimiters ends, and the
      whitespace around each is a piece of its own. */
  lemma CoarseAreCut(s: string, level: nat) returns (chunks: seq<string>)
    requires level == PARAGRAPH || level == SENTENCE
    ensures Join(chunks) == s && CutAtEnds(chunks, level)
    ensures SplitCorpus(s, level) == PiecesOf(chunks, level)
    ensures forall i :: 0 <= i < |chunks| ==> Trimmed(Piece(chunks[i], level), chunks[i])
  {
    chunks := Chunks(s, level);
    ChunksAreCut(s, level);
    StitchIsChunks(s, level);
    forall i | 0 <= i < |chunks| ensures Trimmed(Piece(chunks[i], level), chunks[i]) {
      TrimApartTrims(chunks[i]);
    }
  }

  /** The finest pieces are single characters. */
  lemma {:induction false} CharactersAreSingle(s: string)
    ensures |SplitCorpus(s, CHARACTER)| == |s|
    ensures forall i :: 0 <= i < |s| ==> SplitCorpus(s, CHARACTER)[i] == [s[i]]
    decreases |s|
  {
    if s == "" {
    } else {
      CharactersAreSingle(s[1..]);
      forall i | 0 <= i < |s| ensures SplitCorpus(s, CHARACTER)[i] == [s[i]] {
        if i > 0 {
          assert SplitCorpus(s, CHARACTER)[i] == SplitCorpus(s[1..], CHARACTER)[i - 1];
        }
      }
    }
  }
}
