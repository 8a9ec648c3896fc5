/** What the prose diff keeps: at every level, whatever the alignment of a changed
    block keeps is unchanged in the final segments. */
module ProseDescent {
  import opened Options
  import opened Sequences
  import opened PieceMatching
  import opened ProseSegments
  import opened ProseLinks
  import opened ProseKept
  import opened ProseEdit
  import opened ProseDiff
  import opened ProseBuild

  // ---------------------------------------------------------------------
  // Changed blocks
  // ---------------------------------------------------------------------

  /** The segments from `p` to `q` are a whole run of changes. */
  ghost predicate RunAt(diff: seq<Part>, p: nat, q: nat) {
    && p <= q <= |diff|
    && (forall k :: p <= k < q ==> diff[k].kind != Equal)
    && (p > 0 ==> diff[p - 1].kind == Equal)
    && (q < |diff| ==> diff[q].kind == Equal)
  }

  /** Two texts, and where they stand in the two texts around them. */
  datatype Spot = Spot(o: string, n: string, a: nat, b: nat)

  ghost function SpotOf(diff: seq<Part>, p: nat, q: nat): (spot: Spot)
    requires p <= q <= |diff|
  {
    Spot(Text(diff[p..q], Removed), Text(diff[p..q], Added), |Text(diff[..p], Removed)|, |Text(diff[..p], Added)|)
  }

  lemma {:induction false} ExpandKeeps(diff: seq<Part>, o: string, n: string, refine: (string, string) -> seq<Part>,
                                       i: int, j: int)
    requires Lossless(refine) && Linked(diff, i, j)
    ensures Linked(Expand(diff, o, n, refine), |o| + i, |n| + j)
    decreases |diff|
  {
    var p, rest := diff[0], diff[1..];
    match p.kind
    case Removed => ExpandKeeps(rest, o + p.text, n, refine, i - |p.text|, j);
    case Added => ExpandKeeps(rest, o, n + p.text, refine, i, j - |p.text|);
    case Equal =>
      if Linked(rest, i - |p.text|, j - |p.text|) {
        ExpandKeeps(rest, "", "", refine, i - |p.text|, j - |p.text|);
      }
      assert diff == [p] + rest && Rebuilds(refine(o, n), o, n);
      EqualKeeps(p, rest, Expand(rest, "", "", refine), i, j);
      LinkedBehind(refine(o, n), [p] + Expand(rest, "", "", refine), o, n, i, j);
  }

  lemma BehindEqual(refine: (string, string) -> seq<Part>, p: Part, after: seq<Part>, o: string, n: string, i: int, j: int)
    requires Lossless(refine) && p.kind == Equal && Linked(after, i, j)
    ensures Linked(refine(o, n) + ([p] + after), |o| + |p.text| + i, |n| + |p.text| + j)
  {
    assert Rebuilds(refine(o, n), o, n);
    LinkedCons(p, after, |p.text| + i, |p.text| + j);
    LinkedBehind(refine(o, n), [p] + after, o, n, |p.text| + i, |p.text| + j);
  }

  /** What follows an unchanged segment is expanded on its own. */
  lemma {:induction false} ExpandAfter(pre: seq<Part>, rest: seq<Part>, o: string, n: string,
                                       refine: (string, string) -> seq<Part>, i: int, j: int)
    requires Lossless(refine) && (pre != [] ==> Last(pre).kind == Equal) && Linked(Expand(rest, "", "", refine), i, j)
    requires pre == [] ==> o == "" && n == ""
    ensures Linked(Expand(pre + rest, o, n, refine), |o| + |Text(pre, Removed)| + i, |n| + |Text(pre, Added)| + j)
    decreases |pre|
  {
    if pre == [] {
      assert pre + rest == rest;
    } else {
      var p, tail := pre[0], pre[1..];
      assert (pre + rest)[0] == p && (pre + rest)[1..] == tail + rest;
      match p.kind
      case Removed => ExpandAfter(tail, rest, o + p.text, n, refine, i, j);
      case Added => ExpandAfter(tail, rest, o, n + p.text, refine, i, j);
      case Equal =>
        ExpandAfter(tail, rest, "", "", refine, i, j);
        BehindEqual(refine, p, Expand(tail + rest, "", "", refine), o, n,
                    |Text(tail, Removed)| + i, |Text(tail, Added)| + j);
    }
  }

  /** A run of changes is expanded to its refinement; `o` and `n` are the block with
      the run. */
  lemma {:induction false} ExpandRun(run: seq<Part>, post: seq<Part>, before: string, after: string, o: string, n: string,
                                     refine: (string, string) -> seq<Part>, i: int, j: int)
    requires (forall k :: 0 <= k < |run| ==> run[k].kind != Equal) && (post != [] ==> post[0].kind == Equal)
    requires o == before + Text(run, Removed) && n == after + Text(run, Added) && Linked(refine(o, n), i, j)
    ensures Linked(Expand(run + post, before, after, refine), i, j)
    decreases |run|
  {
    if run == [] {
      assert run + post == post && before == o && after == n;
      if post != [] {
        LinkedConcat(refine(o, n), [post[0]] + Expand(post[1..], "", "", refine), i, j);
      }
    } else {
      var p, tail := run[0], run[1..];
      assert (run + post)[0] == p && (run + post)[1..] == tail + post;
      if p.kind == Removed {
        ConcatAssociates(before, p.text, Text(tail, Removed));
        EmptyEnds(Text(tail, Added));
        ExpandRun(tail, post, before + p.text, after, o, n, refine, i, j);
      } else {
        ConcatAssociates(after, p.text, Text(tail, Added));
        EmptyEnds(Text(tail, Removed));
        ExpandRun(tail, post, before, after + p.text, o, n, refine, i, j);
      }
    }
  }

  lemma ExpandHere(rest: seq<Part>, len: nat, o: string, n: string, refine: (string, string) -> seq<Part>, i: int, j: int)
    requires len <= |rest| && (forall k :: 0 <= k < len ==> rest[k].kind != Equal)
    requires len < |rest| ==> rest[len].kind == Equal
    requires o == Text(rest[..len], Removed) && n == Text(rest[..len], Added) && Linked(refine(o, n), i, j)
    ensures Linked(Expand(rest, "", "", refine), i, j)
  {
    EmptyEnds(o);
    EmptyEnds(n);
    assert rest == rest[..len] + rest[len..];
    ExpandRun(rest[..len], rest[len..], "", "", o, n, refine, i, j);
  }

  lemma ExpandThere(pre: seq<Part>, rest: seq<Part>, diff: seq<Part>, a: nat, b: nat,
                    refine: (string, string) -> seq<Part>, i: int, j: int)
    requires Lossless(refine) && diff == pre + rest && (pre != [] ==> Last(pre).kind == Equal)
    requires a == |Text(pre, Removed)| && b == |Text(pre, Added)| && Linked(Expand(rest, "", "", refine), i, j)
    ensures Linked(Expand(diff, "", "", refine), a + i, b + j)
  {
    ExpandAfter(pre, rest, "", "", refine, i, j);
  }

  lemma RunFollows(diff: seq<Part>, p: nat, q: nat)
    requires RunAt(diff, p, q)
    ensures diff[p..][..q - p] == diff[p..q] && diff == diff[..p] + diff[p..]
    ensures forall k :: 0 <= k < q - p ==> diff[p..][k].kind != Equal
    ensures q - p < |diff[p..]| ==> diff[p..][q - p].kind == Equal
    ensures diff[..p] != [] ==> Last(diff[..p]).kind == Equal
  {
  }

  lemma ExpandWithin(pre: seq<Part>, rest: seq<Part>, len: nat, diff: seq<Part>, spot: Spot,
                     refine: (string, string) -> seq<Part>, i: int, j: int)
    requires Lossless(refine) && diff == pre + rest && (pre != [] ==> Last(pre).kind == Equal)
    requires len <= |rest| && (forall k :: 0 <= k < len ==> rest[k].kind != Equal)
    requires len < |rest| ==> rest[len].kind == Equal
    requires spot == Spot(Text(rest[..len], Removed), Text(rest[..len], Added), |Text(pre, Removed)|, |Text(pre, Added)|)
    requires Linked(refine(spot.o, spot.n), i, j)
    ensures Linked(Expand(diff, "", "", refine), spot.a + i, spot.b + j)
  {
    ExpandHere(rest, len, spot.o, spot.n, refine, i, j);
    ExpandThere(pre, rest, diff, spot.a, spot.b, refine, i, j);
  }

  lemma {:induction false} ExpandSpot(diff: seq<Part>, p: nat, q: nat, spot: Spot,
                                      refine: (string, string) -> seq<Part>, i: int, j: int)
    requires Lossless(refine) && RunAt(diff, p, q) && spot == SpotOf(diff, p, q) && Linked(refine(spot.o, spot.n), i, j)
    ensures Linked(Expand(diff, "", "", refine), spot.a + i, spot.b + j)
  {
    RunFollows(diff, p, q);
    ExpandWithin(diff[..p], diff[p..], q - p, diff, spot, refine, i, j);
  }

  // ---------------------------------------------------------------------
  // Descending, for any alignment
  // ---------------------------------------------------------------------

  /** The normalised alignment of two texts at a level; None if it gave up. */
  type Aligner = (string, string, nat) -> Option<seq<Part>>

  /** A changed block of the alignment, with text on both sides. */
  ghost predicate Changed(align: Aligner, u: string, v: string, level: nat, p: nat, q: nat) {
    && align(u, v, level).Some? && RunAt(align(u, v, level).value, p, q)
    && SpotOf(align(u, v, level).value, p, q).o != "" && SpotOf(align(u, v, level).value, p, q).n != ""
  }

  /** From block to changed block, one level finer each time. */
  ghost predicate Descends(align: Aligner, u: string, v: string, level: nat, path: seq<(nat, nat)>)
    decreases |path|
  {
    path == [] ||
    (&& level < CHARACTER && Changed(align, u, v, level, path[0].0, path[0].1)
     && var spot := SpotOf(align(u, v, level).value, path[0].0, path[0].1);
     Descends(align, spot.o, spot.n, level + 1, path[1..]))
  }

  /** The block a path leads to, placed in the whole texts. */
  ghost function Reached(align: Aligner, u: string, v: string, level: nat, path: seq<(nat, nat)>): (spot: Spot)
    requires Descends(align, u, v, level, path)
    decreases |path|
  {
    if path == [] then Spot(u, v, 0, 0)
    else
      var outer := SpotOf(align(u, v, level).value, path[0].0, path[0].1);
      var inner := Reached(align, outer.o, outer.n, level + 1, path[1..]);
      inner.(a := outer.a + inner.a, b := outer.b + inner.b)
  }

  lemma {:induction false} DescendsWithin(align: Aligner, u: string, v: string, level: nat, path: seq<(nat, nat)>)
    requires level <= CHARACTER && Descends(align, u, v, level, path)
    ensures level + |path| <= CHARACTER
    decreases |path|
  {
    if path == [] {
    } else {
      var spot := SpotOf(align(u, v, level).value, path[0].0, path[0].1);
      DescendsWithin(align, spot.o, spot.n, level + 1, path[1..]);
    }
  }

  /** `outer` keeps what `inner`, placed at `a` and `b`, keeps. */
  ghost predicate Carries(outer: seq<Part>, inner: seq<Part>, a: int, b: int) {
    forall i, j :: Linked(inner, i, j) ==> Linked(outer, a + i, b + j)
  }

  /** The level keeps what its alignment keeps. */
  ghost predicate KeepsAligned(align: Aligner, build: (string, string, nat) -> seq<Part>, u: string, v: string, level: nat) {
    align(u, v, level).Some? ==> Carries(build(u, v, level), align(u, v, level).value, 0, 0)
  }

  /** The level keeps what the next one keeps of a changed block. */
  ghost predicate KeepsRefined(align: Aligner, build: (string, string, nat) -> seq<Part>, u: string, v: string, level: nat,
                               p: nat, q: nat)
  {
    Changed(align, u, v, level, p, q) ==>
      var spot := SpotOf(align(u, v, level).value, p, q);
      Carries(build(u, v, level), build(spot.o, spot.n, level + 1), spot.a, spot.b)
  }

  ghost predicate Faithful(align: Aligner, build: (string, string, nat) -> seq<Part>) {
    && (forall u, v, level: nat :: level <= CHARACTER ==> KeepsAligned(align, build, u, v, level))
    && (forall u, v, level: nat, p, q :: level < CHARACTER ==> KeepsRefined(align, build, u, v, level, p, q))
  }

  lemma {:induction false} Reaches(align: Aligner, build: (string, string, nat) -> seq<Part>, u: string, v: string,
                                   level: nat, path: seq<(nat, nat)>, i: int, j: int)
    requires Faithful(align, build) && level <= CHARACTER && Descends(align, u, v, level, path)
    requires var spot := Reached(align, u, v, level, path);
             align(spot.o, spot.n, level + |path|).Some? && Linked(align(spot.o, spot.n, level + |path|).value, i, j)
    ensures var spot := Reached(align, u, v, level, path); Linked(build(u, v, level), spot.a + i, spot.b + j)
    decreases |path|
  {
    if path == [] {
      assert KeepsAligned(align, build, u, v, level);
    } else {
      var outer := SpotOf(align(u, v, level).value, path[0].0, path[0].1);
      var inner := Reached(align, outer.o, outer.n, level + 1, path[1..]);
      Reaches(align, build, outer.o, outer.n, level + 1, path[1..], i, j);
      assert KeepsRefined(align, build, u, v, level, path[0].0, path[0].1);
      assert Linked(build(outer.o, outer.n, level + 1), inner.a + i, inner.b + j);
    }
  }

  lemma ReachesOnce(align: Aligner, build: (string, string, nat) -> seq<Part>, u: string, v: string,
                    path: seq<(nat, nat)>, spot: Spot, inner: seq<Part>, outer: seq<Part>, i: int, j: int)
    requires Faithful(align, build) && Descends(align, u, v, PARAGRAPH, path)
    requires spot == Reached(align, u, v, PARAGRAPH, path) && align(spot.o, spot.n, |path|) == Some(inner)
    requires outer == build(u, v, PARAGRAPH) && Linked(inner, i, j)
    ensures Linked(Reorder(outer), spot.a + i, spot.b + j)
  {
    Reaches(align, build, u, v, PARAGRAPH, path, i, j);
    ReorderKeeps(outer, spot.a + i, spot.b + j);
  }

  // ---------------------------------------------------------------------
  // Descending in the prose diff
  // ---------------------------------------------------------------------

  /** Paragraphs are always aligned, finer pieces up to 128 on a side. */
  ghost function Alignment(u: string, v: string, level: nat): (r: Option<seq<Part>>) {
    if level == PARAGRAPH || (|SplitCorpus(u, level)| <= 128 && |SplitCorpus(v, level)| <= 128)
    then Some(Reorder(AlignLevel(u, v, level))) else None
  }

  ghost function Built(u: string, v: string, level: nat): (parts: seq<Part>) {
    if level <= CHARACTER then Build(u, v, level) else []
  }

  /** A list with its changed blocks refined keeps what it kept, and what the
      refinements keep. */
  lemma RefinedKeeps(diff: seq<Part>, refine: (string, string) -> seq<Part>)
    requires Lossless(refine)
    ensures Carries(Reorder(Expand(diff, "", "", refine)), diff, 0, 0)
  {
    forall i, j | Linked(diff, i, j) ensures Linked(Reorder(Expand(diff, "", "", refine)), 0 + i, 0 + j) {
      ExpandKeeps(diff, "", "", refine, i, j);
      ReorderKeeps(Expand(diff, "", "", refine), i, j);
    }
  }

  lemma RefinedCarries(diff: seq<Part>, p: nat, q: nat, spot: Spot, refine: (string, string) -> seq<Part>)
    requires Lossless(refine) && RunAt(diff, p, q) && spot == SpotOf(diff, p, q)
    ensures Carries(Reorder(Expand(diff, "", "", refine)), refine(spot.o, spot.n), spot.a, spot.b)
  {
    forall i, j | Linked(refine(spot.o, spot.n), i, j)
      ensures Linked(Reorder(Expand(diff, "", "", refine)), spot.a + i, spot.b + j)
    {
      ExpandSpot(diff, p, q, spot, refine, i, j);
      ReorderKeeps(Expand(diff, "", "", refine), spot.a + i, spot.b + j);
    }
  }

  lemma BuildRefines(u: string, v: string, level: nat, diff: seq<Part>)
    requires level < CHARACTER && diff == Reorder(AlignLevel(u, v, level))
    ensures Build(u, v, level) == Reorder(Expand(diff, "", "", Refiner(level, GaveUp(u, v, level))))
  {
  }

  lemma BuildKeepsAligned(u: string, v: string, level: nat)
    requires level <= CHARACTER
    ensures KeepsAligned(Alignment, Built, u, v, level)
  {
    if Alignment(u, v, level).Some? {
      var diff := Alignment(u, v, level).value;
      if level < CHARACTER {
        RefinerLossless(level, GaveUp(u, v, level));
        RefinedKeeps(diff, Refiner(level, GaveUp(u, v, level)));
        BuildRefines(u, v, level, diff);
      }
    }
  }

  lemma RefinerDescends(o: string, n: string, level: nat)
    requires level < CHARACTER && o != "" && n != ""
    ensures Refiner(level, false)(o, n) == Build(o, n, level + 1)
  {
  }

  lemma BuildCarries(u: string, v: string, level: nat, diff: seq<Part>, p: nat, q: nat, spot: Spot)
    requires level < CHARACTER && !GaveUp(u, v, level) && diff == Reorder(AlignLevel(u, v, level))
    requires RunAt(diff, p, q) && spot == SpotOf(diff, p, q) && spot.o != "" && spot.n != ""
    ensures Carries(Build(u, v, level), Build(spot.o, spot.n, level + 1), spot.a, spot.b)
  {
    RefinerLossless(level, false);
    RefinedCarries(diff, p, q, spot, Refiner(level, false));
    RefinerDescends(spot.o, spot.n, level);
    BuildRefines(u, v, level, diff);
  }

  lemma BuildKeepsRefined(u: string, v: string, level: nat, p: nat, q: nat)
    requires level < CHARACTER
    ensures KeepsRefined(Alignment, Built, u, v, level, p, q)
  {
    if Changed(Alignment, u, v, level, p, q) {
      var diff := Alignment(u, v, level).value;
      BuildCarries(u, v, level, diff, p, q, SpotOf(diff, p, q));
    }
  }

  lemma BuildIsFaithful()
    ensures Faithful(Alignment, Built)
  {
    forall u, v, level: nat | level <= CHARACTER ensures KeepsAligned(Alignment, Built, u, v, level) {
      BuildKeepsAligned(u, v, level);
    }
    forall u, v, level: nat, p, q | level < CHARACTER ensures KeepsRefined(Alignment, Built, u, v, level, p, q) {
      BuildKeepsRefined(u, v, level, p, q);
    }
  }

  /** Whatever the alignment of a block keeps, at whatever depth, the diff keeps. */
  lemma DiffReaches(u: string, v: string, path: seq<(nat, nat)>, spot: Spot, inner: seq<Part>, i: int, j: int)
    requires Descends(Alignment, u, v, PARAGRAPH, path) && spot == Reached(Alignment, u, v, PARAGRAPH, path)
    requires Alignment(spot.o, spot.n, |path|) == Some(inner) && Linked(inner, i, j)
    ensures Linked(Diff(u, v), spot.a + i, spot.b + j)
  {
    BuildIsFaithful();
    ReachesOnce(Alignment, Built, u, v, path, spot, inner, Build(u, v, PARAGRAPH), i, j);
  }

  // ---------------------------------------------------------------------
  // What the prose diff keeps
  // ---------------------------------------------------------------------

  lemma CarriesPiece(outer: seq<Part>, inner: seq<Part>, us: seq<string>, vs: seq<string>, ui: nat, vi: nat, a: int, b: int)
    requires Carries(outer, inner, a, b) && KeepsPiece(inner, us, vs, ui, vi, 0, 0)
    ensures KeepsPiece(outer, us, vs, ui, vi, a, b)
  {
    var i, j, len := |Join(us[..ui])|, |Join(vs[..vi])|, |us[ui]|;
    forall x, y | a + i <= x < a + i + len && y - x == (b + j) - (a + i) ensures Linked(outer, x, y) {
      assert Linked(inner, x - a, y - b);
    }
  }

  lemma DiffCarries(u: string, v: string, path: seq<(nat, nat)>, spot: Spot, aligned: seq<Part>)
    requires Descends(Alignment, u, v, PARAGRAPH, path) && spot == Reached(Alignment, u, v, PARAGRAPH, path)
    requires Alignment(spot.o, spot.n, |path|) == Some(Reorder(aligned))
    ensures Carries(Diff(u, v), aligned, spot.a, spot.b)
  {
    forall i, j | Linked(aligned, i, j) ensures Linked(Diff(u, v), spot.a + i, spot.b + j) {
      ReorderKeeps(aligned, i, j);
      DiffReaches(u, v, path, spot, Reorder(aligned), i, j);
    }
  }

  /** The segments keep what some cheapest edit string of the pieces keeps. */
  ghost predicate KeepsCheapest(parts: seq<Part>, us: seq<string>, vs: seq<string>, smooth: bool, a: int, b: int) {
    exists ops :: Cheapest(ops, us, vs) && KeepsScript(parts, us, vs, ops, smooth, a, b)
  }

  lemma CarriesScript(outer: seq<Part>, inner: seq<Part>, us: seq<string>, vs: seq<string>, ops: seq<Edit>, smooth: bool,
                      a: int, b: int)
    requires Carries(outer, inner, a, b) && KeepsScript(inner, us, vs, ops, smooth, 0, 0)
    ensures KeepsScript(outer, us, vs, ops, smooth, a, b)
  {
    forall k | 0 <= k < |ops| && ops[k] == Same && !(smooth && Isolated(ops, k))
      ensures KeepsPiece(outer, us, vs, UsedOld(ops[..k]), UsedNew(ops[..k]), a, b)
    {
      CarriesPiece(outer, inner, us, vs, UsedOld(ops[..k]), UsedNew(ops[..k]), a, b);
    }
  }

  /** A block that is reached below the paragraphs, and small enough to be aligned. */
  ghost predicate Aligned(u: string, v: string, path: seq<(nat, nat)>, spot: Spot) {
    && path != [] && Descends(Alignment, u, v, PARAGRAPH, path) && spot == Reached(Alignment, u, v, PARAGRAPH, path)
    && |SplitCorpus(spot.o, |path|)| <= 128 && |SplitCorpus(spot.n, |path|)| <= 128
  }

  lemma EditKept(u: string, v: string, path: seq<(nat, nat)>, spot: Spot, us: seq<string>, vs: seq<string>)
    requires Descends(Alignment, u, v, PARAGRAPH, path) && spot == Reached(Alignment, u, v, PARAGRAPH, path)
    requires |us| <= 128 && |vs| <= 128 && Alignment(spot.o, spot.n, |path|) == Some(Reorder(EditLevel(us, vs, |path|)))
    ensures KeepsCheapest(Diff(u, v), us, vs, |path| > SENTENCE, spot.a, spot.b)
  {
    var ops := EditLevelKeeps(us, vs, |path|);
    var aligned := EditLevel(us, vs, |path|);
    DiffCarries(u, v, path, spot, aligned);
    CarriesScript(Diff(u, v), aligned, us, vs, ops, |path| > SENTENCE, spot.a, spot.b);
  }

  lemma AlignmentBelow(o: string, n: string, level: nat)
    requires level != PARAGRAPH && |SplitCorpus(o, level)| <= 128 && |SplitCorpus(n, level)| <= 128
    ensures Alignment(o, n, level) == Some(Reorder(EditLevel(SplitCorpus(o, level), SplitCorpus(n, level), level)))
  {
  }

  lemma ScriptKept(u: string, v: string, path: seq<(nat, nat)>, spot: Spot)
    requires Aligned(u, v, path, spot)
    ensures KeepsCheapest(Diff(u, v), SplitCorpus(spot.o, |path|), SplitCorpus(spot.n, |path|), |path| > SENTENCE,
                          spot.a, spot.b)
  {
    AlignmentBelow(spot.o, spot.n, |path|);
    EditKept(u, v, path, spot, SplitCorpus(spot.o, |path|), SplitCorpus(spot.n, |path|));
  }

  lemma {:induction false} ForwardExists(us: seq<string>, vs: seq<string>, n: nat) returns (matches: seq<int>, cursors: seq<nat>)
    requires n <= |us|
    ensures |matches| == n && Forward(matches, cursors, us, vs)
    decreases n
  {
    if n == 0 {
      matches, cursors := [], [0];
    } else {
      matches, cursors := ForwardExists(us, vs, n - 1);
      var mi := FirstFrom(vs, us[n - 1], cursors[n - 1]);
      ForwardGrows(matches, cursors, us, vs, mi);
      matches, cursors := matches + [mi], cursors + [Advance(cursors[n - 1], mi)];
    }
  }

  /** The segments keep every paragraph that finds an equal one ahead. */
  ghost predicate KeepsParagraphs(parts: seq<Part>, us: seq<string>, vs: seq<string>) {
    exists matches, cursors :: |matches| == |us| && Forward(matches, cursors, us, vs) && KeepsMatches(parts, us, vs, matches)
  }

  lemma ParagraphsKept(u: string, v: string)
    ensures KeepsParagraphs(Diff(u, v), SplitCorpus(u, PARAGRAPH), SplitCorpus(v, PARAGRAPH))
  {
    var us, vs := SplitCorpus(u, PARAGRAPH), SplitCorpus(v, PARAGRAPH);
    var matches, cursors := ForwardExists(us, vs, |us|);
    var aligned := Align(us, vs, 0);
    AlignKeeps(us, vs, matches, cursors);
    DiffCarries(u, v, [], Spot(u, v, 0, 0), aligned);
    forall ui | 0 <= ui < |matches| && matches[ui] >= 0
      ensures KeepsPiece(Diff(u, v), us, vs, ui, matches[ui], 0, 0)
    {
      CarriesPiece(Diff(u, v), aligned, us, vs, ui, matches[ui], 0, 0);
    }
  }

  /** Equal paragraphs are kept, and inside every changed block, at whatever depth it
      is found, the pieces that a cheapest edit string keeps. */
  ghost predicate Thorough(parts: seq<Part>, u: string, v: string) {
    && KeepsParagraphs(parts, SplitCorpus(u, PARAGRAPH), SplitCorpus(v, PARAGRAPH))
    && forall path, spot :: Aligned(u, v, path, spot) ==>
         KeepsCheapest(parts, SplitCorpus(spot.o, |path|), SplitCorpus(spot.n, |path|), |path| > SENTENCE, spot.a, spot.b)
  }

  lemma DiffIsThorough(u: string, v: string)
    ensures Thorough(Diff(u, v), u, v)
  {
    ParagraphsKept(u, v);
    forall path, spot | Aligned(u, v, path, spot)
      ensures KeepsCheapest(Diff(u, v), SplitCorpus(spot.o, |path|), SplitCorpus(spot.n, |path|), |path| > SENTENCE,
                            spot.a, spot.b)
    {
      ScriptKept(u, v, path, spot);
    }
  }

  // ---------------------------------------------------------------------
  // One sentence
  // ---------------------------------------------------------------------

  /** A text of one sentence, without whitespace at its ends. */
  predicate Plain(s: string) {
    s != "" && !Whitespace(s[0]) && !Whitespace(Last(s)) && forall c :: c in s ==> !Delimiter(c, SENTENCE)
  }

  lemma {:induction false} SpanAll(s: string, level: nat)
    requires forall c :: c in s ==> !Delimiter(c, level)
    ensures Span(s, level, false) == |s|
  {
    if s == "" {
    } else {
      assert forall c :: c in s[1..] ==> c in s;
      SpanAll(s[1..], level);
    }
  }

  lemma PlainIsOnePiece(s: string, level: nat)
    requires Plain(s) && (level == PARAGRAPH || level == SENTENCE)
    ensures SplitCorpus(s, level) == [s]
  {
    SpanAll(s, level);
    assert LeadingSpace(s) == 0 && s[0..] == s && TrailingSpace(s) == 0;
    assert s[..0] == "" && s[0..|s| - 0] == s && s[|s| - 0..] == "";
    assert [] + ([s] + []) == [s];
    StitchOne(s, level);
  }

  /** Two texts, one removed and one added. */
  function Replaced(o: string, n: string): (parts: seq<Part>) {
    [Part(Removed, o), Part(Added, n)]
  }

  lemma CombineReplaced(o: string, n: string)
    requires o != "" && n != "" && Clean(o, n)
    ensures Combine(o, n) == Replaced(o, n)
  {
    LiftNothing(o, n);
    assert Render(Change("", o, n, "")) == [] + ([Part(Removed, o)] + ([Part(Added, n)] + []));
  }

  lemma MergeReplaced(o: string, n: string)
    ensures Merge(Replaced(o, n)) == Replaced(o, n)
  {
    assert Replaced(o, n)[1..] == [Part(Added, n)];
    assert Merge([Part(Added, n)]) == [Part(Added, n)];
    assert [Part(Removed, o)] + [Part(Added, n)] == Replaced(o, n);
  }

  lemma ReplacedStays(o: string, n: string)
    requires o != "" && n != "" && Clean(o, n)
    ensures Reorder(Replaced(o, n)) == Replaced(o, n)
  {
    RunsOfPair(Replaced(o, n), o, n);
    CombineReplaced(o, n);
    MergeReplaced(o, n);
  }

  lemma AlignPair(o: string, n: string)
    requires o != n
    ensures Align([o], [n], 0) == Replaced(o, n)
  {
    assert [o][1..] == [] && [n][0..] == [n] && [n][1..] == [];
    assert AllOf(Added, [n]) == [Part(Added, n)];
  }

  lemma EditPair(o: string, n: string)
    requires o != n
    ensures EditLevel([o], [n], SENTENCE) == Replaced(o, n)
  {
    assert Init([o]) == [] && Init([n]) == [];
    assert Distance([o], [n]) == 1 && Backtrack([o], [n]) == [] + [Swap];
    ScriptApplies([o], [n], false);
    assert Init([Swap]) == [];
  }

  lemma SpotOfPair(o: string, n: string)
    requires o != "" && n != ""
    ensures RunAt(Replaced(o, n), 0, 2) && SpotOf(Replaced(o, n), 0, 2) == Spot(o, n, 0, 0)
  {
    assert Replaced(o, n)[0..2] == Replaced(o, n) && Replaced(o, n)[..0] == [];
    assert [] + Replaced(o, n) == Replaced(o, n);
    TextAppendPair([], o, n, Removed);
    TextAppendPair([], o, n, Added);
  }

  lemma PlainAlignment(u: string, v: string, level: nat)
    requires Plain(u) && Plain(v) && u != v && Clean(u, v) && (level == PARAGRAPH || level == SENTENCE)
    ensures Alignment(u, v, level) == Some(Replaced(u, v))
  {
    PlainIsOnePiece(u, level);
    PlainIsOnePiece(v, level);
    ReplacedStays(u, v);
    if level == PARAGRAPH {
      AlignPair(u, v);
    } else {
      EditPair(u, v);
    }
  }

  lemma PairDescends(align: Aligner, u: string, v: string, path: seq<(nat, nat)>)
    requires u != "" && v != "" && path == [(0, 2), (0, 2)]
    requires align(u, v, PARAGRAPH) == align(u, v, SENTENCE) == Some(Replaced(u, v))
    ensures Descends(align, u, v, PARAGRAPH, path) && Reached(align, u, v, PARAGRAPH, path) == Spot(u, v, 0, 0)
  {
    SpotOfPair(u, v);
    assert path[1..][1..] == [];
    assert Descends(align, u, v, SENTENCE, path[1..]) && Reached(align, u, v, SENTENCE, path[1..]) == Spot(u, v, 0, 0);
  }

  /** Two sentences of at most 128 words that share no layout at their ends: what a
      cheapest edit string of their words keeps, but for single words between two
      changes, is unchanged in the diff. */
  lemma SentenceKeepsWords(u: string, v: string)
    requires Plain(u) && Plain(v) && u != v && Clean(u, v)
    requires |SplitCorpus(u, WORD)| <= 128 && |SplitCorpus(v, WORD)| <= 128
    ensures KeepsCheapest(Diff(u, v), SplitCorpus(u, WORD), SplitCorpus(v, WORD), true, 0, 0)
  {
    PlainAlignment(u, v, PARAGRAPH);
    PlainAlignment(u, v, SENTENCE);
    PairDescends(Alignment, u, v, [(0, 2), (0, 2)]);
    ScriptKept(u, v, [(0, 2), (0, 2)], Spot(u, v, 0, 0));
  }

  // ---------------------------------------------------------------------
  // Generate
  // ---------------------------------------------------------------------

  method Generate(u: string, v: string) returns (parts: seq<Part>)
    ensures parts == Diff(u, v)
    ensures Rebuilds(parts, u, v) && Normal(parts) && NoEmpty(parts)
    ensures Thorough(parts, u, v)
  {
    DiffCorrect(u, v);
    DiffIsThorough(u, v);
    parts := BuildProse(u, v, PARAGRAPH);
    parts := ReorderParts(parts);
  }
}
