/** Lossless splitting of prose at four granularities, and the alignment of the
    pieces. */
module ProseDiff {
  import opened Sequences
  import opened ProseSegments
  import opened PieceMatching

  const PARAGRAPH: nat := 0
  const SENTENCE: nat := 1
  const WORD: nat := 2
  const CHARACTER: nat := 3

  /** Pieces that carry text. */
  ghost predicate Pieces(ps: seq<string>) {
    forall i :: 0 <= i < |ps| ==> ps[i] != ""
  }

  /** The text the pieces stand for. */
  function Join(ps: seq<string>): (s: string) {
    if ps == [] then "" else ps[0] + Join(ps[1..])
  }

  lemma JoinCons(p: string, ps: seq<string>)
    ensures Join([p] + ps) == p + Join(ps)
  {
    assert ([p] + ps)[1..] == ps;
  }

  lemma {:induction false} JoinConcat(a: seq<string>, b: seq<string>)
    ensures Join(a + b) == Join(a) + Join(b)
  {
    if a == [] {
      assert a + b == b;
    } else {
      JoinConcat(a[1..], b);
      HeadOfConcat(a, b);
      JoinCons(a[0], a[1..] + b);
      ConcatAssociates(a[0], Join(a[1..]), Join(b));
    }
  }

  lemma JoinOne(p: string)
    ensures Join([p]) == p
  {
    assert [p][1..] == [] && p + "" == p;
  }

  // ---------------------------------------------------------------------
  // Splitting
  // ---------------------------------------------------------------------

  /** The delimiter characters of each pattern. */
  predicate Delimiter(c: char, level: nat) {
    if level == PARAGRAPH then c == '\n'
    else if level == SENTENCE then c in {'\n', ',', '!', ';', '?', '.'}
    else c in {'\t', '\n', '\U{000C}', '\r', ' '}
  }

  /** The longest prefix of `s` whose characters all have `Delimiter == d`. */
  function Span(s: string, level: nat, d: bool): (i: nat)
    ensures i <= |s|
    ensures s != "" && Delimiter(s[0], level) == d ==> i > 0
  {
    if s != "" && Delimiter(s[0], level) == d then Span(s[1..], level, d) + 1 else 0
  }

  /** What `Split` returns: the text between the delimiter runs. */
  function Between(s: string, level: nat): (parts: seq<string>)
    ensures parts != []
    decreases |s|
  {
    var i := Span(s, level, false);
    if i == |s| then [s]
    else
      var j := Span(s[i..], level, true);
      SpanStops(s, level, false);
      [s[..i]] + Between(s[i + j..], level)
  }

  /** What `FindAllString` returns: the delimiter runs. */
  function Delimiters(s: string, level: nat): (delims: seq<string>)
    decreases |s|
  {
    var i := Span(s, level, false);
    if i == |s| then []
    else
      var j := Span(s[i..], level, true);
      SpanStops(s, level, false);
      [s[i..i + j]] + Delimiters(s[i + j..], level)
  }

  lemma {:induction false} SpanStops(s: string, level: nat, d: bool)
    ensures var i := Span(s, level, d); i < |s| ==> Delimiter(s[i], level) != d && Span(s[i..], level, !d) > 0
  {
    if s != "" && Delimiter(s[0], level) == d {
      SpanStops(s[1..], level, d);
      var i := Span(s, level, d);
      assert s[i..] == s[1..][i - 1..];
    } else if s != "" {
      assert s[0..] == s;
    }
  }

  function Whitespace(c: char): bool {
    c == ' ' || c == '\t' || c == '\n' || c == '\r'
  }

  function LeadingSpace(s: string): (i: nat)
    ensures i <= |s|
  {
    if s != "" && Whitespace(s[0]) then LeadingSpace(s[1..]) + 1 else 0
  }

  function TrailingSpace(s: string): (i: nat)
    ensures i <= |s|
    decreases |s|
  {
    if s != "" && Whitespace(Last(s)) then TrailingSpace(Init(s)) + 1 else 0
  }

  function Keep(s: string): (ps: seq<string>) {
    if s == "" then [] else [s]
  }

  /** Everything before, inside and after the body, the empty ones omitted. */
  function Peel(input: string, i: nat, j: nat): (ps: seq<string>)
    requires i + j <= |input|
  {
    Keep(input[..i]) + (Keep(input[i..|input| - j]) + Keep(input[|input| - j..]))
  }

  /** Leading whitespace, body and trailing whitespace. */
  function TrimApart(input: string): (ps: seq<string>) {
    var i := LeadingSpace(input);
    Peel(input, i, TrailingSpace(input[i..]))
  }

  lemma JoinKeep(s: string)
    ensures Join(Keep(s)) == s && Pieces(Keep(s))
  {
    JoinOne(s);
  }

  lemma JoinThree(a: string, b: string, c: string)
    ensures var ps := Keep(a) + (Keep(b) + Keep(c)); Join(ps) == a + (b + c) && Pieces(ps)
  {
    JoinKeep(a);
    JoinKeep(b);
    JoinKeep(c);
    JoinConcat(Keep(b), Keep(c));
    JoinConcat(Keep(a), Keep(b) + Keep(c));
  }

  lemma PeelLossless(input: string, i: nat, j: nat)
    requires i + j <= |input|
    ensures Join(Peel(input, i, j)) == input && Pieces(Peel(input, i, j))
  {
    JoinThree(input[..i], input[i..|input| - j], input[|input| - j..]);
    ThreeSlices(input, i, j);
  }

  lemma TrimApartLossless(input: string)
    ensures Join(TrimApart(input)) == input && Pieces(TrimApart(input))
  {
    var i := LeadingSpace(input);
    PeelLossless(input, i, TrailingSpace(input[i..]));
  }

  /** One part with the delimiter that followed it, peeled at coarse levels. */
  function Piece(part: string, level: nat): (ps: seq<string>) {
    if level < WORD then TrimApart(part) else Keep(part)
  }

  lemma PieceLossless(part: string, level: nat)
    ensures Join(Piece(part, level)) == part && Pieces(Piece(part, level))
  {
    TrimApartLossless(part);
    JoinKeep(part);
  }

  function Stitch(parts: seq<string>, delims: seq<string>, level: nat): (ps: seq<string>) {
    if parts == [] then []
    else if delims == [] then Piece(parts[0], level) + Stitch(parts[1..], [], level)
    else Piece(parts[0] + delims[0], level) + Stitch(parts[1..], delims[1..], level)
  }

  lemma {:induction false} StitchNonEmpty(parts: seq<string>, delims: seq<string>, level: nat)
    ensures Pieces(Stitch(parts, delims, level))
    decreases |parts|
  {
    if parts == [] {
    } else if delims == [] {
      PieceLossless(parts[0], level);
      StitchNonEmpty(parts[1..], [], level);
    } else {
      PieceLossless(parts[0] + delims[0], level);
      StitchNonEmpty(parts[1..], delims[1..], level);
    }
  }

  lemma StitchOne(s: string, level: nat)
    ensures Stitch([s], [], level) == Piece(s, level)
  {
    assert [s][1..] == [];
    assert Piece(s, level) + [] == Piece(s, level);
  }

  lemma StitchCons(p: string, parts: seq<string>, d: string, delims: seq<string>, level: nat)
    ensures Stitch([p] + parts, [d] + delims, level) == Piece(p + d, level) + Stitch(parts, delims, level)
  {
    assert ([p] + parts)[1..] == parts && ([d] + delims)[1..] == delims;
  }

  lemma CutAcross(s: string, i: nat, j: nat)
    requires i + j <= |s|
    ensures (s[..i] + s[i..i + j]) + s[i + j..] == s
  {
  }

  lemma {:induction false} StitchLossless(s: string, level: nat)
    ensures Join(Stitch(Between(s, level), Delimiters(s, level), level)) == s
    decreases |s|
  {
    var i := Span(s, level, false);
    if i == |s| {
      StitchOne(s, level);
      PieceLossless(s, level);
    } else {
      var j := Span(s[i..], level, true);
      SpanStops(s, level, false);
      var rest := s[i + j..];
      StitchLossless(rest, level);
      StitchCons(s[..i], Between(rest, level), s[i..i + j], Delimiters(rest, level), level);
      PieceLossless(s[..i] + s[i..i + j], level);
      JoinConcat(Piece(s[..i] + s[i..i + j], level), Stitch(Between(rest, level), Delimiters(rest, level), level));
      CutAcross(s, i, j);
    }
  }

  function Characters(s: string): (ps: seq<string>) {
    if s == "" then [] else [s[..1]] + Characters(s[1..])
  }

  lemma {:induction false} CharactersLossless(s: string)
    ensures Join(Characters(s)) == s && Pieces(Characters(s))
  {
    if s == "" {
    } else {
      CharactersLossless(s[1..]);
      JoinCons(s[..1], Characters(s[1..]));
      assert s[..1] + s[1..] == s;
    }
  }

  function SplitCorpus(s: string, level: nat): (ps: seq<string>) {
    if level < CHARACTER then Stitch(Between(s, level), Delimiters(s, level), level) else Characters(s)
  }

  /** Every split is lossless and produces no empty piece. */
  lemma SplitLossless(s: string, level: nat)
    ensures Join(SplitCorpus(s, level)) == s && Pieces(SplitCorpus(s, level))
  {
    if level < CHARACTER {
      StitchLossless(s, level);
      StitchNonEmpty(Between(s, level), Delimiters(s, level), level);
    } else {
      CharactersLossless(s);
    }
  }

  lemma {:induction false} DelimitersCount(s: string, level: nat)
    ensures |Between(s, level)| == |Delimiters(s, level)| + 1
    decreases |s|
  {
    var i := Span(s, level, false);
    if i < |s| {
      SpanStops(s, level, false);
      var j := Span(s[i..], level, true);
      DelimitersCount(s[i + j..], level);
      assert Between(s, level) == [s[..i]] + Between(s[i + j..], level);
      assert Delimiters(s, level) == [s[i..i + j]] + Delimiters(s[i + j..], level);
    }
  }

  lemma {:induction false} DelimitersNonEmpty(s: string, level: nat)
    ensures Pieces(Delimiters(s, level))
    decreases |s|
  {
    var i := Span(s, level, false);
    if i < |s| {
      SpanStops(s, level, false);
      var j := Span(s[i..], level, true);
      DelimitersNonEmpty(s[i + j..], level);
      assert |s[i..i + j]| == j;
      PiecesCons(s[i..i + j], Delimiters(s[i + j..], level));
    }
  }

  lemma PiecesCons(p: string, ps: seq<string>)
    requires p != "" && Pieces(ps)
    ensures Pieces([p] + ps)
  {
  }

  /** `results` is what the first `i` delimiters contribute. */
  ghost predicate Stitched(parts: seq<string>, delims: seq<string>, level: nat, i: nat, results: seq<string>)
    requires i <= |delims| < |parts|
  {
    Stitch(parts, delims, level) == results + Stitch(parts[i..], delims[i..], level)
  }

  lemma StitchStarts(parts: seq<string>, delims: seq<string>, level: nat)
    requires |delims| < |parts|
    ensures Stitched(parts, delims, level, 0, [])
  {
    assert parts[0..] == parts && delims[0..] == delims;
  }

  lemma StitchStep(parts: seq<string>, delims: seq<string>, level: nat, i: nat, results: seq<string>)
    requires i < |delims| < |parts| && Stitched(parts, delims, level, i, results)
    ensures Stitched(parts, delims, level, i + 1, results + Piece(parts[i] + delims[i], level))
  {
    StitchAt(parts, delims, i, level);
    ConcatAssociates(results, Piece(parts[i] + delims[i], level), Stitch(parts[i + 1..], delims[i + 1..], level));
  }

  lemma StitchEnds(parts: seq<string>, delims: seq<string>, level: nat, results: seq<string>)
    requires |parts| == |delims| + 1 && Stitched(parts, delims, level, |delims|, results)
    ensures Stitch(parts, delims, level) == results + Piece(parts[|delims|], level)
  {
    assert parts[|delims|..] == [parts[|delims|]] && delims[|delims|..] == [];
    StitchOne(parts[|delims|], level);
  }

  /** The stitching loop, with the trailing empty piece it drops. */
  method StitchPieces(parts: seq<string>, delims: seq<string>, level: nat) returns (results: seq<string>)
    requires |parts| == |delims| + 1 && Pieces(delims)
    ensures results == Stitch(parts, delims, level)
  {
    results := [];
    StitchStarts(parts, delims, level);
    var i := 0;
    while i < |delims|
      invariant i <= |delims|
      invariant Stitched(parts, delims, level, i, results)
      invariant Pieces(results)
    {
      StitchStep(parts, delims, level, i, results);
      results := AddPiece(results, parts[i] + delims[i], level);
      i := i + 1;
    }
    StitchEnds(parts, delims, level, results);
    results := AddLastPiece(results, parts[i], level);
  }

  method AddPiece(results: seq<string>, piece: string, level: nat) returns (r: seq<string>)
    requires piece != "" && Pieces(results)
    ensures r == results + Piece(piece, level) && Pieces(r)
  {
    PieceLossless(piece, level);
    if level < WORD {
      r := results + TrimApart(piece);
    } else {
      r := results + [piece];
    }
  }

  method AddLastPiece(results: seq<string>, piece: string, level: nat) returns (r: seq<string>)
    requires Pieces(results)
    ensures r == results + Piece(piece, level)
  {
    PieceLossless(piece, level);
    if level < WORD {
      r := results + TrimApart(piece);
    } else {
      r := results + [piece];
    }
    if |r| > 0 && r[|r| - 1] == "" {
      r := r[..|r| - 1];
    }
  }

  lemma StitchAt(parts: seq<string>, delims: seq<string>, i: nat, level: nat)
    requires i < |delims| && i < |parts|
    ensures Stitch(parts[i..], delims[i..], level)
            == Piece(parts[i] + delims[i], level) + Stitch(parts[i + 1..], delims[i + 1..], level)
  {
    assert parts[i..][1..] == parts[i + 1..] && delims[i..][1..] == delims[i + 1..];
  }

  method SplitChars(text: string) returns (result: seq<string>)
    ensures result == Characters(text)
  {
    result := [];
    var s := text;
    while s != ""
      invariant Characters(text) == result + Characters(s)
      decreases |s|
    {
      AppendAssociates(result, s[..1], Characters(s[1..]));
      result := result + [s[..1]];
      s := s[1..];
    }
  }

  method Split(s: string, level: nat) returns (ps: seq<string>)
    ensures ps == SplitCorpus(s, level)
  {
    if level < CHARACTER {
      DelimitersCount(s, level);
      DelimitersNonEmpty(s, level);
      ps := StitchPieces(Between(s, level), Delimiters(s, level), level);
    } else {
      ps := SplitChars(s);
    }
  }

  // ---------------------------------------------------------------------
  // hashDiff
  // ---------------------------------------------------------------------

  function AllOf(kind: Kind, ps: seq<string>): (parts: seq<Part>) {
    if ps == [] then [] else [Part(kind, ps[0])] + AllOf(kind, ps[1..])
  }

  /** Greedy forward alignment: each old piece takes the first equal new piece
      after the last one taken. */
  function Align(u: seq<string>, v: seq<string>, from: nat): (parts: seq<Part>)
    requires from <= |v|
    decreases |u|
  {
    if u == [] then AllOf(Added, v[from..])
    else
      var i := FirstFrom(v, u[0], from);
      if i < 0 then [Part(Removed, u[0])] + Align(u[1..], v, from)
      else AllOf(Added, v[from..i]) + ([Part(Equal, u[0])] + Align(u[1..], v, i + 1))
  }

  lemma {:induction false} AllOfText(kind: Kind, ps: seq<string>, side: Kind)
    requires kind != Equal
    ensures Text(AllOf(kind, ps), side) == if kind == side then Join(ps) else ""
  {
    if ps == [] {
    } else {
      AllOfText(kind, ps[1..], side);
      TextCons(Part(kind, ps[0]), AllOf(kind, ps[1..]), side);
      assert "" + "" == "";
    }
  }

  lemma DropSlice(v: seq<string>, i: nat, j: nat)
    requires i <= j < |v|
    ensures v[i..] == v[i..j] + ([v[j]] + v[j + 1..])
  {
  }

  lemma MatchedText(gap: seq<string>, p: string, rest: seq<Part>, side: Kind)
    requires side != Equal
    ensures Text(AllOf(Added, gap) + ([Part(Equal, p)] + rest), side)
            == (if side == Added then Join(gap) else "") + (p + Text(rest, side))
  {
    TextCons(Part(Equal, p), rest, side);
    AllOfText(Added, gap, side);
    TextConcat(AllOf(Added, gap), [Part(Equal, p)] + rest, side);
  }

  lemma {:induction false} AlignOld(u: seq<string>, v: seq<string>, from: nat)
    requires from <= |v|
    ensures Text(Align(u, v, from), Removed) == Join(u)
    decreases |u|
  {
    if u == [] {
      AllOfText(Added, v[from..], Removed);
    } else {
      var i := FirstFrom(v, u[0], from);
      if i < 0 {
        AlignOld(u[1..], v, from);
        TextCons(Part(Removed, u[0]), Align(u[1..], v, from), Removed);
      } else {
        AlignOld(u[1..], v, i + 1);
        MatchedText(v[from..i], u[0], Align(u[1..], v, i + 1), Removed);
        EmptyEnds(Join(u));
      }
    }
  }

  lemma {:induction false} AlignNew(u: seq<string>, v: seq<string>, from: nat)
    requires from <= |v|
    ensures Text(Align(u, v, from), Added) == Join(v[from..])
    decreases |u|
  {
    if u == [] {
      AllOfText(Added, v[from..], Added);
    } else {
      var i := FirstFrom(v, u[0], from);
      if i < 0 {
        AlignNew(u[1..], v, from);
        TextCons(Part(Removed, u[0]), Align(u[1..], v, from), Added);
        EmptyEnds(Join(v[from..]));
      } else {
        AlignNew(u[1..], v, i + 1);
        MatchedText(v[from..i], u[0], Align(u[1..], v, i + 1), Added);
        DropSlice(v, from, i);
        JoinCons(v[i], v[i + 1..]);
        JoinConcat(v[from..i], [v[i]] + v[i + 1..]);
      }
    }
  }

  lemma {:induction false} AllOfNoEquals(ps: seq<string>)
    ensures EqualsNonEmpty(AllOf(Added, ps))
  {
    if ps == [] {
    } else {
      AllOfNoEquals(ps[1..]);
    }
  }

  lemma EqualsAround(a: seq<Part>, p: Part, b: seq<Part>)
    requires EqualsNonEmpty(a) && p.text != "" && EqualsNonEmpty(b)
    ensures EqualsNonEmpty(a + ([p] + b))
  {
  }

  lemma {:induction false} AlignEqualsNonEmpty(u: seq<string>, v: seq<string>, from: nat)
    requires from <= |v| && Pieces(u)
    ensures EqualsNonEmpty(Align(u, v, from))
    decreases |u|
  {
    if u == [] {
      AllOfNoEquals(v[from..]);
    } else {
      var i := FirstFrom(v, u[0], from);
      if i < 0 {
        AlignEqualsNonEmpty(u[1..], v, from);
      } else {
        AlignEqualsNonEmpty(u[1..], v, i + 1);
        AllOfNoEquals(v[from..i]);
        EqualsAround(AllOf(Added, v[from..i]), Part(Equal, u[0]), Align(u[1..], v, i + 1));
      }
    }
  }

  lemma {:induction false} AllOfAppend(kind: Kind, ps: seq<string>, p: string)
    ensures AllOf(kind, ps + [p]) == AllOf(kind, ps) + [Part(kind, p)]
  {
    if ps == [] {
      assert ps + [p] == [p] && [p][1..] == [];
    } else {
      AllOfAppend(kind, ps[1..], p);
      assert (ps + [p])[1..] == ps[1..] + [p];
    }
  }

  /** The unmatched new pieces from `vi` up to `to`. */
  method EmitGap(v: seq<string>, vUsed: seq<bool>, from: nat, to: nat, parts: seq<Part>) returns (r: seq<Part>)
    requires from <= to <= |v| == |vUsed|
    requires forall k :: from <= k < to ==> !vUsed[k]
    ensures r == parts + AllOf(Added, v[from..to])
  {
    r := parts;
    var vi := from;
    while vi < to
      invariant from <= vi <= to
      invariant r == parts + AllOf(Added, v[from..vi])
    {
      AllOfAppend(Added, v[from..vi], v[vi]);
      assert v[from..vi] + [v[vi]] == v[from..vi + 1];
      ConcatAssociates(parts, AllOf(Added, v[from..vi]), [Part(Added, v[vi])]);
      if !vUsed[vi] {
        r := r + [Part(Added, v[vi])];
      }
      vi := vi + 1;
    }
  }

  /** The index map and the taken marks compute the greedy alignment. */
  method HashDiff(u: seq<string>, v: seq<string>) returns (parts: seq<Part>)
    ensures parts == Align(u, v, 0)
  {
    var matches, vUsed, cursors := MatchPieces(u, v);
    parts := [];
    var vi := 0;
    assert u[0..] == u;
    for ui := 0 to |u|
      invariant vi == cursors[ui] <= |v|
      invariant Align(u, v, 0) == parts + Align(u[ui..], v, vi)
    {
      var mi := matches[ui];
      AlignStep(u, v, ui, vi);
      if mi < 0 {
        AppendAssociates(parts, Part(Removed, u[ui]), Align(u[ui + 1..], v, vi));
        parts := parts + [Part(Removed, u[ui])];
      } else {
        ghost var was, rest := parts, Align(u[ui + 1..], v, mi + 1);
        parts := EmitGap(v, vUsed, vi, mi, parts);
        ConcatAssociates(was, AllOf(Added, v[vi..mi]), [Part(Equal, u[ui])] + rest);
        AppendAssociates(parts, Part(Equal, u[ui]), rest);
        parts := parts + [Part(Equal, u[ui])];
        vi := mi + 1;
      }
    }
    assert u[|u|..] == [] && v[vi..|v|] == v[vi..];
    parts := EmitGap(v, vUsed, vi, |v|, parts);
  }

  lemma AlignStep(u: seq<string>, v: seq<string>, ui: nat, vi: nat)
    requires ui < |u| && vi <= |v|
    ensures var i := FirstFrom(v, u[ui], vi);
            Align(u[ui..], v, vi)
            == if i < 0 then [Part(Removed, u[ui])] + Align(u[ui + 1..], v, vi)
               else AllOf(Added, v[vi..i]) + ([Part(Equal, u[ui])] + Align(u[ui + 1..], v, i + 1))
  {
    assert u[ui..][0] == u[ui] && u[ui..][1..] == u[ui + 1..];
  }
}
