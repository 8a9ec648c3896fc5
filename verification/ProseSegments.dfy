/** Segment lists and their normalisation: `combineRuns` and `reorderParts`. */
module ProseSegments {
  import opened Numbers
  import opened Sequences

  datatype Kind = Equal | Removed | Added

  datatype Part = Part(kind: Kind, text: string)

  /** The text of one side: the unchanged segments together with those of kind
      `side`.  `Removed` gives the old text and `Added` the new one. */
  function Text(parts: seq<Part>, side: Kind): (s: string) {
    if parts == [] then ""
    else (if parts[0].kind == Equal || parts[0].kind == side then parts[0].text else "") + Text(parts[1..], side)
  }

  /** The list rebuilds both texts. */
  ghost predicate Rebuilds(parts: seq<Part>, o: string, n: string) {
    Text(parts, Removed) == o && Text(parts, Added) == n
  }

  lemma TextCons(p: Part, parts: seq<Part>, side: Kind)
    ensures Text([p] + parts, side)
            == (if p.kind == Equal || p.kind == side then p.text else "") + Text(parts, side)
  {
    assert ([p] + parts)[1..] == parts;
  }

  lemma TextOne(p: Part, side: Kind)
    ensures Text([p], side) == if p.kind == Equal || p.kind == side then p.text else ""
  {
    assert [p] + [] == [p];
    TextCons(p, [], side);
  }

  lemma ConcatAssociates<T>(a: seq<T>, b: seq<T>, c: seq<T>)
    ensures (a + b) + c == a + (b + c)
  {
  }

  lemma {:induction false} TextConcat(a: seq<Part>, b: seq<Part>, side: Kind)
    ensures Text(a + b, side) == Text(a, side) + Text(b, side)
  {
    if a == [] {
      assert a + b == b;
    } else {
      TextConcat(a[1..], b, side);
      HeadOfConcat(a, b);
      TextCons(a[0], a[1..] + b, side);
      var head := if a[0].kind == Equal || a[0].kind == side then a[0].text else "";
      ConcatAssociates(head, Text(a[1..], side), Text(b, side));
    }
  }

  /** Neighbours differ in kind, and no insertion is directly followed by a
      deletion. */
  ghost predicate Normal(parts: seq<Part>) {
    forall i :: 0 < i < |parts| ==> parts[i - 1].kind != parts[i].kind && Follows(parts[i - 1], parts[i])
  }

  predicate Follows(p: Part, q: Part) {
    !(p.kind == Added && q.kind == Removed)
  }

  ghost predicate Ordered(parts: seq<Part>) {
    forall i :: 0 < i < |parts| ==> Follows(parts[i - 1], parts[i])
  }

  // ---------------------------------------------------------------------
  // combineRuns
  // ---------------------------------------------------------------------

  predicate Layout(c: char) {
    c in {' ', '\n', '.', '!', ',', '?', ']', '[', '(', ')', '<', '>'}
  }

  function LayoutPrefix(o: string, n: string, k: nat): (p: nat)
    requires k <= Min(|o|, |n|)
    ensures k <= p <= Min(|o|, |n|)
    decreases |o| - k
  {
    if k < Min(|o|, |n|) && o[k] == n[k] && Layout(o[k]) then LayoutPrefix(o, n, k + 1) else k
  }

  function LayoutSuffix(o: string, n: string, p: nat, k: nat): (s: nat)
    requires p + k <= Min(|o|, |n|)
    ensures k <= s <= Min(|o|, |n|) - p
    decreases |o| - k
  {
    if k < Min(|o|, |n|) - p && o[|o| - 1 - k] == n[|n| - 1 - k] && Layout(o[|o| - 1 - k]) then
      LayoutSuffix(o, n, p, k + 1)
    else k
  }

  lemma {:induction false} LayoutPrefixShared(o: string, n: string, k: nat)
    requires k <= Min(|o|, |n|) && o[..k] == n[..k]
    ensures var p := LayoutPrefix(o, n, k);
            o[..p] == n[..p] && (p < Min(|o|, |n|) ==> !(o[p] == n[p] && Layout(o[p])))
    decreases |o| - k
  {
    if k < Min(|o|, |n|) && o[k] == n[k] && Layout(o[k]) {
      assert o[..k + 1] == o[..k] + [o[k]] && n[..k + 1] == n[..k] + [n[k]];
      LayoutPrefixShared(o, n, k + 1);
    }
  }

  lemma {:induction false} LayoutSuffixShared(o: string, n: string, p: nat, k: nat)
    requires p + k <= Min(|o|, |n|) && SameBack(o, n, k)
    ensures var s := LayoutSuffix(o, n, p, k);
            && SameBack(o, n, s)
            && (p + s < Min(|o|, |n|) ==> !(o[|o| - 1 - s] == n[|n| - 1 - s] && Layout(o[|o| - 1 - s])))
    decreases |o| - k
  {
    if k < Min(|o|, |n|) - p && o[|o| - 1 - k] == n[|n| - 1 - k] && Layout(o[|o| - 1 - k]) {
      LayoutSuffixShared(o, n, p, k + 1);
    }
  }

  function When(b: bool, p: Part): (parts: seq<Part>) {
    if b then [p] else []
  }

  /** Two changed texts between the unchanged texts lifted out around them. */
  datatype Change = Change(front: string, o: string, n: string, back: string)

  function Render(c: Change): (parts: seq<Part>) {
    When(c.front != "", Part(Equal, c.front))
    + (When(c.o != "" || c.back != "", Part(Removed, c.o))
       + (When(c.n != "" || c.back != "", Part(Added, c.n))
          + When(c.back != "", Part(Equal, c.back))))
  }

  /** The two runs, cut around the layout they share; what remains of them is
      clean. */
  function Lift(o: string, n: string): (c: Change)
    ensures o == c.front + (c.o + c.back) && n == c.front + (c.n + c.back)
    ensures Clean(c.o, c.n)
  {
    var p := LayoutPrefix(o, n, 0);
    var s := LayoutSuffix(o, n, p, 0);
    EdgesShape(o, n, p, s);
    Cut(o, n, p, s)
  }

  function Cut(o: string, n: string, p: nat, s: nat): (c: Change)
    requires p + s <= |o| && p + s <= |n|
    ensures p < |o| <==> c.o != "" || c.back != ""
    ensures p < |n| <==> c.n != "" || c.back != ""
  {
    Change(o[..p], o[p..|o| - s], n[p..|n| - s], o[|o| - s..])
  }

  /** A deletion run and an insertion run, with the shared layout lifted out. */
  function Combine(o: string, n: string): (parts: seq<Part>) {
    Render(Lift(o, n))
  }

  method LayoutEdges(o: string, n: string) returns (prefixLen: nat, suffixLen: nat)
    ensures prefixLen == LayoutPrefix(o, n, 0) && suffixLen == LayoutSuffix(o, n, prefixLen, 0)
  {
    var oldLen, newLen := |o|, |n|;
    var minLen := if oldLen <= newLen then oldLen else newLen;
    prefixLen := 0;
    while prefixLen < minLen && o[prefixLen] == n[prefixLen] && Layout(o[prefixLen])
      invariant prefixLen <= minLen
      invariant LayoutPrefix(o, n, prefixLen) == LayoutPrefix(o, n, 0)
    {
      prefixLen := prefixLen + 1;
    }
    suffixLen := 0;
    while suffixLen < minLen - prefixLen && o[oldLen - 1 - suffixLen] == n[newLen - 1 - suffixLen]
          && Layout(o[oldLen - 1 - suffixLen])
      invariant prefixLen + suffixLen <= minLen
      invariant LayoutSuffix(o, n, prefixLen, suffixLen) == LayoutSuffix(o, n, prefixLen, 0)
    {
      suffixLen := suffixLen + 1;
    }
  }

  method CombineRuns(o: string, n: string) returns (result: seq<Part>)
    ensures result == Combine(o, n)
  {
    var prefixLen, suffixLen := LayoutEdges(o, n);
    var c := Cut(o, n, prefixLen, suffixLen);
    result := Assemble(c.front, prefixLen < |o|, c.o, prefixLen < |n|, c.n, c.back);
  }

  method Assemble(front: string, hasOld: bool, o: string, hasNew: bool, n: string, back: string)
    returns (result: seq<Part>)
    requires hasOld <==> o != "" || back != ""
    requires hasNew <==> n != "" || back != ""
    ensures result == Render(Change(front, o, n, back))
  {
    result := [];
    if |front| > 0 {
      result := result + [Part(Equal, front)];
    }
    if hasOld {
      result := result + [Part(Removed, o)];
    }
    if hasNew {
      result := result + [Part(Added, n)];
    }
    if |back| > 0 {
      result := result + [Part(Equal, back)];
    }
  }

  lemma TextWhen(b: bool, p: Part, side: Kind)
    ensures Text(When(b, p), side) == if b && (p.kind == Equal || p.kind == side) then p.text else ""
  {
    TextOne(p, side);
  }

  lemma TextOfFour(a: seq<Part>, b: seq<Part>, c: seq<Part>, d: seq<Part>, side: Kind)
    ensures Text(a + (b + (c + d)), side) == Text(a, side) + (Text(b, side) + (Text(c, side) + Text(d, side)))
  {
    TextConcat(a, b + (c + d), side);
    TextConcat(b, c + d, side);
    TextConcat(c, d, side);
  }

  lemma EmptyMiddle(x: string, y: string)
    ensures x + ("" + y) == x + y && "" + (x + y) == x + y
  {
  }

  lemma RenderText(c: Change, side: Kind)
    requires side != Equal
    ensures Text(Render(c), side) == c.front + ((if side == Removed then c.o else c.n) + c.back)
  {
    var e, r, a, f := Part(Equal, c.front), Part(Removed, c.o), Part(Added, c.n), Part(Equal, c.back);
    var hasO, hasN := c.o != "" || c.back != "", c.n != "" || c.back != "";
    TextOfFour(When(c.front != "", e), When(hasO, r), When(hasN, a), When(c.back != "", f), side);
    TextWhen(c.front != "", e, side);
    TextWhen(hasO, r, side);
    TextWhen(hasN, a, side);
    TextWhen(c.back != "", f, side);
    EmptyMiddle(c.o, c.back);
    EmptyMiddle(c.n, c.back);
  }

  lemma ThreeSlices(t: string, p: nat, s: nat)
    requires p + s <= |t|
    ensures t[..p] + (t[p..|t| - s] + t[|t| - s..]) == t
  {
  }

  lemma SliceEnds(t: string, p: nat, s: nat)
    requires p + s < |t|
    ensures var r := t[p..|t| - s]; r != "" && r[0] == t[p] && Last(r) == t[|t| - 1 - s]
  {
  }

  /** Nothing is left to lift out of this pair of runs. */
  ghost predicate Clean(o: string, n: string) {
    o != "" && n != "" ==>
      !(o[0] == n[0] && Layout(o[0])) && !(Last(o) == Last(n) && Layout(Last(o)))
  }

  lemma ResiduesClean(o: string, n: string, p: nat, s: nat)
    requires p + s <= |o| && p + s <= |n|
    requires p < |o| && p < |n| ==> !(o[p] == n[p] && Layout(o[p]))
    requires p + s < |o| && p + s < |n| ==> !(o[|o| - 1 - s] == n[|n| - 1 - s] && Layout(o[|o| - 1 - s]))
    ensures Clean(Cut(o, n, p, s).o, Cut(o, n, p, s).n)
  {
    if p + s < |o| && p + s < |n| {
      SliceEnds(o, p, s);
      SliceEnds(n, p, s);
    }
  }

  lemma SlicesAround(o: string, n: string, p: nat, s: nat)
    requires p + s <= |o| && p + s <= |n| && o[..p] == n[..p] && o[|o| - s..] == n[|n| - s..]
    ensures o == Cut(o, n, p, s).front + (Cut(o, n, p, s).o + Cut(o, n, p, s).back)
    ensures n == Cut(o, n, p, s).front + (Cut(o, n, p, s).n + Cut(o, n, p, s).back)
  {
    ThreeSlices(o, p, s);
    ThreeSlices(n, p, s);
  }

  lemma EdgesShared(o: string, n: string, p: nat, s: nat)
    requires p == LayoutPrefix(o, n, 0) && s == LayoutSuffix(o, n, p, 0)
    ensures o[..p] == n[..p] && o[|o| - s..] == n[|n| - s..]
  {
    LayoutPrefixShared(o, n, 0);
    LayoutSuffixShared(o, n, p, 0);
    BackIsSlice(o, n, s);
  }

  lemma EdgesMaximal(o: string, n: string, p: nat, s: nat)
    requires p == LayoutPrefix(o, n, 0) && s == LayoutSuffix(o, n, p, 0)
    ensures p < |o| && p < |n| ==> !(o[p] == n[p] && Layout(o[p]))
    ensures p + s < |o| && p + s < |n| ==> !(o[|o| - 1 - s] == n[|n| - 1 - s] && Layout(o[|o| - 1 - s]))
  {
    LayoutPrefixShared(o, n, 0);
    LayoutSuffixShared(o, n, p, 0);
  }

  lemma EdgesShape(o: string, n: string, p: nat, s: nat)
    requires p == LayoutPrefix(o, n, 0) && s == LayoutSuffix(o, n, p, 0)
    ensures o == Cut(o, n, p, s).front + (Cut(o, n, p, s).o + Cut(o, n, p, s).back)
    ensures n == Cut(o, n, p, s).front + (Cut(o, n, p, s).n + Cut(o, n, p, s).back)
    ensures Clean(Cut(o, n, p, s).o, Cut(o, n, p, s).n)
  {
    EdgesShared(o, n, p, s);
    SlicesAround(o, n, p, s);
    EdgesMaximal(o, n, p, s);
    ResiduesClean(o, n, p, s);
  }

  /** Lifting layout out of a change loses nothing on either side. */
  lemma CombineRebuilds(o: string, n: string)
    ensures Rebuilds(Combine(o, n), o, n)
  {
    RenderText(Lift(o, n), Removed);
    RenderText(Lift(o, n), Added);
  }

  lemma CombineOrdered(o: string, n: string)
    ensures Ordered(Combine(o, n))
  {
    RenderOrdered(Lift(o, n));
  }

  lemma RenderOrdered(x: Change)
    ensures Ordered(Render(x))
  {
    var a, b := When(x.front != "", Part(Equal, x.front)), When(x.o != "" || x.back != "", Part(Removed, x.o));
    var c, d := When(x.n != "" || x.back != "", Part(Added, x.n)), When(x.back != "", Part(Equal, x.back));
    OrderedConcat(c, d);
    OrderedConcat(b, c + d);
    OrderedConcat(a, b + (c + d));
  }

  // ---------------------------------------------------------------------
  // reorderParts
  // ---------------------------------------------------------------------

  /** The runs of changes, each combined, in the order of the unchanged
      segments between them; `o` and `n` are the run being collected. */
  function Runs(parts: seq<Part>, o: string, n: string): (r: seq<Part>)
    decreases |parts|
  {
    if parts == [] then Combine(o, n)
    else match parts[0].kind
      case Removed => Runs(parts[1..], o + parts[0].text, n)
      case Added => Runs(parts[1..], o, n + parts[0].text)
      case Equal => Combine(o, n) + ([parts[0]] + Runs(parts[1..], "", ""))
  }

  /** Adjacent segments of one kind become one. */
  function Merge(parts: seq<Part>): (r: seq<Part>)
    decreases |parts|
  {
    if |parts| < 2 then parts
    else if parts[0].kind == parts[1].kind then
      Merge([Part(parts[0].kind, parts[0].text + parts[1].text)] + parts[2..])
    else [parts[0]] + Merge(parts[1..])
  }

  function Reorder(parts: seq<Part>): (r: seq<Part>) {
    Merge(Runs(parts, "", ""))
  }

  method MergeRunText(run: seq<string>) returns (s: string)
    ensures s == Concat(run)
  {
    s := "";
    for i := 0 to |run|
      invariant s == Concat(run[..i])
    {
      TakeInit(run, i + 1);
      s := s + run[i];
    }
    assert run[..|run|] == run;
  }

  function Concat(ss: seq<string>): (s: string)
    decreases |ss|
  {
    if ss == [] then "" else Concat(Init(ss)) + Last(ss)
  }

  lemma ConcatAppend(ss: seq<string>, s: string)
    ensures Concat(ss + [s]) == Concat(ss) + s
  {
    assert Init(ss + [s]) == ss;
  }

  method Flush(oldRun: seq<string>, newRun: seq<string>, result: seq<Part>) returns (r: seq<Part>)
    ensures r == result + Combine(Concat(oldRun), Concat(newRun))
  {
    if |oldRun| > 0 || |newRun| > 0 {
      var o := MergeRunText(oldRun);
      var n := MergeRunText(newRun);
      var combined := CombineRuns(o, n);
      return result + combined;
    }
    assert result + [] == result;
    return result;
  }

  method CollectRuns(parts: seq<Part>) returns (result: seq<Part>)
    ensures result == Runs(parts, "", "")
  {
    var oldRun: seq<string>, newRun: seq<string> := [], [];
    result := [];
    assert parts[0..] == parts;
    for i := 0 to |parts|
      invariant Runs(parts, "", "") == result + Runs(parts[i..], Concat(oldRun), Concat(newRun))
    {
      ghost var o, n, was := Concat(oldRun), Concat(newRun), result;
      var p := parts[i];
      assert parts[i..][0] == p && parts[i..][1..] == parts[i + 1..];
      match p.kind {
        case Removed =>
          ConcatAppend(oldRun, p.text);
          oldRun := oldRun + [p.text];
        case Added =>
          ConcatAppend(newRun, p.text);
          newRun := newRun + [p.text];
        case Equal =>
          result := Flush(oldRun, newRun, result);
          oldRun, newRun := [], [];
          ghost var rest := Runs(parts[i + 1..], "", "");
          ConcatAssociates(was, Combine(o, n), [p] + rest);
          AppendAssociates(result, p, rest);
          result := result + [p];
      }
    }
    result := Flush(oldRun, newRun, result);
  }

  method MergeAdjacent(parts: seq<Part>) returns (combined: seq<Part>)
    ensures combined == Merge(parts)
  {
    if parts == [] { return []; }
    combined := [parts[0]];
    assert [parts[0]] + parts[1..] == parts;
    for i := 1 to |parts|
      invariant combined != []
      invariant Merge(parts) == Init(combined) + Merge([Last(combined)] + parts[i..])
    {
      var p, q := Last(combined), parts[i];
      ghost var before := Init(combined);
      MergeStep(p, q, parts[i + 1..]);
      assert [p] + parts[i..] == [p, q] + parts[i + 1..];
      if p.kind == q.kind {
        combined := combined[..|combined| - 1] + [Part(p.kind, p.text + q.text)];
        assert Init(combined) == before;
      } else {
        InitLast(combined);
        AppendAssociates(before, p, Merge([q] + parts[i + 1..]));
        combined := combined + [q];
        assert Init(combined) == before + [p];
      }
    }
    assert [Last(combined)] + parts[|parts|..] == [Last(combined)];
    InitLast(combined);
  }

  lemma MergeStep(p: Part, q: Part, rest: seq<Part>)
    ensures Merge([p, q] + rest)
            == if p.kind == q.kind then Merge([Part(p.kind, p.text + q.text)] + rest) else [p] + Merge([q] + rest)
  {
    var all := [p, q] + rest;
    assert all[2..] == rest && all[1..] == [q] + rest;
  }

  method ReorderParts(parts: seq<Part>) returns (r: seq<Part>)
    ensures r == Reorder(parts)
  {
    var runs := CollectRuns(parts);
    r := MergeAdjacent(runs);
  }

  // ---------------------------------------------------------------------
  // What normalisation keeps and what it establishes
  // ---------------------------------------------------------------------

  lemma {:induction false} RunsText(parts: seq<Part>, o: string, n: string, side: Kind)
    requires side != Equal
    ensures Text(Runs(parts, o, n), side) == (if side == Removed then o else n) + Text(parts, side)
    decreases |parts|
  {
    var run := if side == Removed then o else n;
    if parts == [] {
      CombineRebuilds(o, n);
      EmptyEnds(run);
    } else {
      var p, rest := parts[0], parts[1..];
      EmptyEnds(run);
      match p.kind
      case Removed =>
        RunsText(rest, o + p.text, n, side);
        ConcatAssociates(run, if side == Removed then p.text else "", Text(rest, side));
      case Added =>
        RunsText(rest, o, n + p.text, side);
        ConcatAssociates(run, if side == Added then p.text else "", Text(rest, side));
      case Equal =>
        RunsText(rest, "", "", side);
        EmptyEnds(Text(rest, side));
        TextAcross(o, n, p, Runs(rest, "", ""), side);
    }
  }

  lemma TextAcross(o: string, n: string, p: Part, rest: seq<Part>, side: Kind)
    requires side != Equal && p.kind == Equal
    ensures Text(Combine(o, n) + ([p] + rest), side) == (if side == Removed then o else n) + (p.text + Text(rest, side))
  {
    CombineRebuilds(o, n);
    TextConcat(Combine(o, n), [p] + rest, side);
    TextCons(p, rest, side);
  }

  lemma {:induction false} MergeText(parts: seq<Part>, side: Kind)
    ensures Text(Merge(parts), side) == Text(parts, side)
    decreases |parts|
  {
    if |parts| >= 2 {
      var p, q, rest := parts[0], parts[1], parts[2..];
      assert parts == [p] + ([q] + rest);
      TextCons(p, [q] + rest, side);
      TextCons(q, rest, side);
      if p.kind == q.kind {
        var pq := Part(p.kind, p.text + q.text);
        MergeText([pq] + rest, side);
        TextCons(pq, rest, side);
        ConcatAssociates(p.text, q.text, Text(rest, side));
      } else {
        MergeText(parts[1..], side);
        assert parts[1..] == [q] + rest;
        TextCons(p, Merge(parts[1..]), side);
      }
    }
  }

  lemma {:induction false} OrderedConcat(a: seq<Part>, b: seq<Part>)
    requires Ordered(a) && Ordered(b)
    requires a != [] && b != [] ==> Follows(Last(a), b[0])
    ensures Ordered(a + b)
  {
    forall i | 0 < i < |a + b| ensures Follows((a + b)[i - 1], (a + b)[i]) {
      if i > |a| {
        assert (a + b)[i] == b[i - |a|] && (a + b)[i - 1] == b[i - |a| - 1];
      }
    }
  }

  lemma {:induction false} RunsOrdered(parts: seq<Part>, o: string, n: string)
    ensures Ordered(Runs(parts, o, n))
    decreases |parts|
  {
    if parts == [] {
      CombineOrdered(o, n);
    } else {
      match parts[0].kind
      case Removed => RunsOrdered(parts[1..], o + parts[0].text, n);
      case Added => RunsOrdered(parts[1..], o, n + parts[0].text);
      case Equal =>
        var rest := Runs(parts[1..], "", "");
        RunsOrdered(parts[1..], "", "");
        CombineOrdered(o, n);
        OrderedConcat([parts[0]], rest);
        OrderedConcat(Combine(o, n), [parts[0]] + rest);
    }
  }

  lemma {:induction false} MergeNormal(parts: seq<Part>)
    requires Ordered(parts)
    ensures Normal(Merge(parts))
    ensures parts != [] ==> Merge(parts) != [] && Merge(parts)[0].kind == parts[0].kind
    decreases |parts|
  {
    if |parts| >= 2 {
      var p, q := parts[0], parts[1];
      if p.kind == q.kind {
        var rest := [Part(p.kind, p.text + q.text)] + parts[2..];
        forall i | 0 < i < |rest| ensures Follows(rest[i - 1], rest[i]) {
          assert Follows(parts[i], parts[i + 1]);
        }
        MergeNormal(rest);
      } else {
        forall i | 0 < i < |parts[1..]| ensures Follows(parts[1..][i - 1], parts[1..][i]) {
          assert Follows(parts[i], parts[i + 1]);
        }
        MergeNormal(parts[1..]);
        assert Follows(parts[0], parts[1]);
      }
    }
  }

  lemma ReorderText(parts: seq<Part>, side: Kind)
    requires side != Equal
    ensures Text(Reorder(parts), side) == Text(parts, side)
  {
    RunsText(parts, "", "", side);
    MergeText(Runs(parts, "", ""), side);
    EmptyEnds(Text(parts, side));
  }

  /** `reorderParts` keeps both texts and produces a normal list. */
  lemma ReorderCorrect(parts: seq<Part>, o: string, n: string)
    requires Rebuilds(parts, o, n)
    ensures Rebuilds(Reorder(parts), o, n) && Normal(Reorder(parts))
  {
    ReorderText(parts, Removed);
    ReorderText(parts, Added);
    RunsOrdered(parts, "", "");
    MergeNormal(Runs(parts, "", ""));
  }

  // ---------------------------------------------------------------------
  // Empty segments
  // ---------------------------------------------------------------------

  /** Every run of changes is clean and every unchanged segment has text; `o`
      and `n` are the run being collected. */
  ghost predicate Settled(parts: seq<Part>, o: string, n: string)
    decreases |parts|
  {
    if parts == [] then Clean(o, n)
    else match parts[0].kind
      case Removed => Settled(parts[1..], o + parts[0].text, n)
      case Added => Settled(parts[1..], o, n + parts[0].text)
      case Equal => parts[0].text != "" && Clean(o, n) && Settled(parts[1..], "", "")
  }

  ghost predicate NoEmpty(parts: seq<Part>) {
    forall i :: 0 <= i < |parts| ==> parts[i].text != ""
  }

  ghost predicate EqualsNonEmpty(parts: seq<Part>) {
    forall i :: 0 <= i < |parts| && parts[i].kind == Equal ==> parts[i].text != ""
  }

  /** One pass of `reorderParts` can leave an empty segment behind. */
  lemma OnePassLeavesEmpty()
    ensures Reorder([Part(Removed, "."), Part(Added, "x.")])
            == [Part(Removed, ""), Part(Added, "x"), Part(Equal, ".")]
  {
    LiftLeavesEmpty();
    RunsOfPair([Part(Removed, "."), Part(Added, "x.")], ".", "x.");
    MergeDistinct(Part(Removed, ""), Part(Added, "x"), Part(Equal, "."));
  }

  lemma LiftLeavesEmpty()
    ensures Combine(".", "x.") == [Part(Removed, ""), Part(Added, "x"), Part(Equal, ".")]
  {
    var o, n := ".", "x.";
    assert LayoutPrefix(o, n, 0) == 0;
    assert LayoutSuffix(o, n, 0, 1) == 1;
    assert LayoutSuffix(o, n, 0, 0) == 1;
    assert o[..0] == "" && o[0..0] == "" && n[0..1] == "x" && o[0..] == ".";
    assert Lift(o, n) == Change("", "", "x", ".");
    assert Render(Change("", "", "x", ".")) == [] + ([Part(Removed, "")] + ([Part(Added, "x")] + [Part(Equal, ".")]));
  }

  lemma RunsOfPair(pair: seq<Part>, o: string, n: string)
    requires pair == [Part(Removed, o), Part(Added, n)]
    ensures Runs(pair, "", "") == Combine(o, n)
  {
    assert "" + o == o && "" + n == n;
    assert pair[1..] == [Part(Added, n)] && pair[1..][1..] == [];
    assert Runs(pair[1..], o, "") == Runs([], o, n);
  }

  lemma MergeDistinct(p: Part, q: Part, r: Part)
    requires p.kind != q.kind && q.kind != r.kind
    ensures Merge([p, q, r]) == [p, q, r]
  {
    assert [q, r][1..] == [r];
    assert Merge([q, r]) == [q] + [r];
    assert [p, q, r][1..] == [q, r];
  }

  lemma {:induction false} SettledText(parts: seq<Part>, o: string, n: string)
    requires Settled(parts, o, n)
    ensures NoEmpty(Runs(parts, o, n))
    decreases |parts|
  {
    if parts == [] {
      CleanCombine(o, n);
    } else {
      match parts[0].kind
      case Removed => SettledText(parts[1..], o + parts[0].text, n);
      case Added => SettledText(parts[1..], o, n + parts[0].text);
      case Equal =>
        CleanCombine(o, n);
        SettledText(parts[1..], "", "");
        NoEmptyAroundIff(Combine(o, n), parts[0], Runs(parts[1..], "", ""));
    }
  }

  lemma CleanCombine(o: string, n: string)
    requires Clean(o, n)
    ensures NoEmpty(Combine(o, n))
  {
    LiftNothing(o, n);
    RenderNoEmpty(o, n);
  }

  lemma LiftNothing(o: string, n: string)
    requires Clean(o, n)
    ensures Lift(o, n) == Change("", o, n, "")
  {
    assert LayoutPrefix(o, n, 0) == 0;
    assert LayoutSuffix(o, n, 0, 0) == 0;
  }

  lemma RenderNoEmpty(o: string, n: string)
    ensures NoEmpty(Render(Change("", o, n, "")))
  {
  }

  lemma SettledEqual(b: bool, t: string, rest: seq<Part>)
    requires (b ==> t != "") && Settled(rest, "", "")
    ensures Settled(When(b, Part(Equal, t)) + rest, "", "")
  {
    assert [] + rest == rest && ([Part(Equal, t)] + rest)[1..] == rest;
  }

  lemma SettledChange(b: bool, kind: Kind, t: string, rest: seq<Part>, o: string, n: string)
    requires kind != Equal && (!b ==> t == "")
    requires if kind == Removed then Settled(rest, o + t, n) else Settled(rest, o, n + t)
    ensures Settled(When(b, Part(kind, t)) + rest, o, n)
  {
    assert [] + rest == rest && ([Part(kind, t)] + rest)[1..] == rest;
    assert o + "" == o && n + "" == n;
  }

  lemma SettledBack(b: bool, t: string, o: string, n: string)
    requires (b ==> t != "") && Clean(o, n)
    ensures Settled(When(b, Part(Equal, t)), o, n)
  {
    assert [Part(Equal, t)][1..] == [];
  }

  lemma RenderSettles(c: Change)
    requires Clean(c.o, c.n)
    ensures Settled(Render(c), "", "")
  {
    var tail := When(c.back != "", Part(Equal, c.back));
    var mid := When(c.n != "" || c.back != "", Part(Added, c.n)) + tail;
    SettledBack(c.back != "", c.back, c.o, c.n);
    assert "" + c.o == c.o && "" + c.n == c.n;
    SettledChange(c.n != "" || c.back != "", Added, c.n, tail, c.o, "");
    SettledChange(c.o != "" || c.back != "", Removed, c.o, mid, "", "");
    SettledEqual(c.front != "", c.front, When(c.o != "" || c.back != "", Part(Removed, c.o)) + mid);
  }

  /** What `combineRuns` leaves of the two runs is clean. */
  lemma CombineSettles(o: string, n: string)
    ensures Settled(Combine(o, n), "", "")
  {
    RenderSettles(Lift(o, n));
  }

  lemma {:induction false} SettledAppend(a: seq<Part>, b: seq<Part>, o: string, n: string)
    requires Settled(a, o, n) && b != [] && b[0].kind == Equal && Settled(b, "", "")
    ensures Settled(a + b, o, n)
    decreases |a|
  {
    if a == [] {
      assert a + b == b;
    } else {
      HeadOfConcat(a, b);
      assert (a + b)[1..] == a[1..] + b;
      match a[0].kind
      case Removed => SettledAppend(a[1..], b, o + a[0].text, n);
      case Added => SettledAppend(a[1..], b, o, n + a[0].text);
      case Equal => SettledAppend(a[1..], b, "", "");
    }
  }

  lemma {:induction false} RunsSettle(parts: seq<Part>, o: string, n: string)
    requires EqualsNonEmpty(parts)
    ensures Settled(Runs(parts, o, n), "", "")
    decreases |parts|
  {
    if parts == [] {
      CombineSettles(o, n);
    } else {
      match parts[0].kind
      case Removed => RunsSettle(parts[1..], o + parts[0].text, n);
      case Added => RunsSettle(parts[1..], o, n + parts[0].text);
      case Equal =>
        var rest := [parts[0]] + Runs(parts[1..], "", "");
        RunsSettle(parts[1..], "", "");
        CombineSettles(o, n);
        assert rest[1..] == Runs(parts[1..], "", "");
        SettledAppend(Combine(o, n), rest, "", "");
    }
  }

  lemma {:induction false} MergeSettled(parts: seq<Part>, o: string, n: string)
    requires Settled(parts, o, n)
    ensures Settled(Merge(parts), o, n)
    decreases |parts|
  {
    if |parts| >= 2 {
      var p, q, rest := parts[0], parts[1], parts[2..];
      assert parts[1..][0] == q && parts[1..][1..] == rest;
      if p.kind == q.kind {
        var joined := [Part(p.kind, p.text + q.text)] + rest;
        assert joined[1..] == rest;
        ConcatAssociates(o, p.text, q.text);
        ConcatAssociates(n, p.text, q.text);
        MergeSettled(joined, o, n);
      } else {
        assert ([p] + Merge(parts[1..]))[1..] == Merge(parts[1..]);
        match p.kind
        case Removed => MergeSettled(parts[1..], o + p.text, n);
        case Added => MergeSettled(parts[1..], o, n + p.text);
        case Equal => MergeSettled(parts[1..], "", "");
      }
    }
  }

  lemma {:induction false} SettledEqualsNonEmpty(parts: seq<Part>, o: string, n: string)
    requires Settled(parts, o, n)
    ensures EqualsNonEmpty(parts)
    decreases |parts|
  {
    if parts == [] {
    } else {
      match parts[0].kind
      case Removed => SettledEqualsNonEmpty(parts[1..], o + parts[0].text, n);
      case Added => SettledEqualsNonEmpty(parts[1..], o, n + parts[0].text);
      case Equal => SettledEqualsNonEmpty(parts[1..], "", "");
    }
  }

  lemma {:induction false} MergeNoEmpty(parts: seq<Part>)
    requires NoEmpty(parts)
    ensures NoEmpty(Merge(parts))
    decreases |parts|
  {
    if |parts| >= 2 {
      if parts[0].kind == parts[1].kind {
        MergeNoEmpty([Part(parts[0].kind, parts[0].text + parts[1].text)] + parts[2..]);
      } else {
        MergeNoEmpty(parts[1..]);
      }
    }
  }

  /** One pass keeps the unchanged segments nonempty. */
  lemma ReorderSettles(parts: seq<Part>)
    requires EqualsNonEmpty(parts)
    ensures Settled(Reorder(parts), "", "") && EqualsNonEmpty(Reorder(parts))
  {
    RunsSettle(parts, "", "");
    MergeSettled(Runs(parts, "", ""), "", "");
    SettledEqualsNonEmpty(Reorder(parts), "", "");
  }

  /** A second pass removes every empty segment the first one left. */
  lemma TwoPassesNoEmpty(parts: seq<Part>)
    requires EqualsNonEmpty(parts)
    ensures NoEmpty(Reorder(Reorder(parts)))
  {
    ReorderSettles(parts);
    SettledText(Reorder(parts), "", "");
    MergeNoEmpty(Runs(Reorder(parts), "", ""));
  }

  // ---------------------------------------------------------------------
  // When one pass is enough
  // ---------------------------------------------------------------------

  /** Lifting the shared layout out of a run leaves text on both sides, unless
      there is none to lift out at the back. */
  ghost predicate Tidy(o: string, n: string) {
    var p := LayoutPrefix(o, n, 0);
    var s := LayoutSuffix(o, n, p, 0);
    s == 0 || (p + s < |o| && p + s < |n|)
  }

  /** Every run of changes is tidy; `o` and `n` are the run being collected. */
  ghost predicate TidyRuns(parts: seq<Part>, o: string, n: string)
    decreases |parts|
  {
    if parts == [] then Tidy(o, n)
    else match parts[0].kind
      case Removed => TidyRuns(parts[1..], o + parts[0].text, n)
      case Added => TidyRuns(parts[1..], o, n + parts[0].text)
      case Equal => Tidy(o, n) && TidyRuns(parts[1..], "", "")
  }

  /** Only unchanged segments stand next to their own kind. */
  ghost predicate Apart(parts: seq<Part>) {
    forall i :: 0 < i < |parts| && parts[i].kind != Equal ==> parts[i - 1].kind != parts[i].kind
  }

  lemma RenderApart(c: Change)
    ensures Apart(Render(c))
  {
  }

  lemma RenderHolds(c: Change)
    ensures c.back != "" ==> Part(Removed, c.o) in Render(c) && Part(Added, c.n) in Render(c)
    ensures forall p :: p in Render(c) && p.text == "" ==> c.back != "" && (c.o == "" || c.n == "")
  {
  }

  lemma RenderNoEmptyIff(c: Change)
    ensures NoEmpty(Render(c)) <==> c.back == "" || (c.o != "" && c.n != "")
  {
    RenderHolds(c);
    if c.back != "" && c.o == "" {
      var i :| 0 <= i < |Render(c)| && Render(c)[i] == Part(Removed, c.o);
    } else if c.back != "" && c.n == "" {
      var i :| 0 <= i < |Render(c)| && Render(c)[i] == Part(Added, c.n);
    } else {
      forall i | 0 <= i < |Render(c)| ensures Render(c)[i].text != "" {
        assert Render(c)[i] in Render(c);
      }
    }
  }

  lemma CombineNoEmptyIff(o: string, n: string)
    ensures NoEmpty(Combine(o, n)) <==> Tidy(o, n)
  {
    RenderNoEmptyIff(Lift(o, n));
  }

  lemma NoEmptyAroundIff(a: seq<Part>, p: Part, b: seq<Part>)
    ensures NoEmpty(a + ([p] + b)) <==> NoEmpty(a) && p.text != "" && NoEmpty(b)
  {
    var all := a + ([p] + b);
    if NoEmpty(all) {
      assert forall i :: 0 <= i < |a| ==> all[i] == a[i];
      assert all[|a|] == p;
      assert forall i :: 0 <= i < |b| ==> all[|a| + 1 + i] == b[i];
    }
  }

  lemma EqualsTail(parts: seq<Part>)
    requires parts != [] && EqualsNonEmpty(parts)
    ensures EqualsNonEmpty(parts[1..])
  {
  }

  lemma {:induction false} RunsNoEmptyIff(parts: seq<Part>, o: string, n: string)
    requires EqualsNonEmpty(parts)
    ensures NoEmpty(Runs(parts, o, n)) <==> TidyRuns(parts, o, n)
    decreases |parts|
  {
    if parts == [] {
      CombineNoEmptyIff(o, n);
    } else {
      EqualsTail(parts);
      match parts[0].kind
      case Removed => RunsNoEmptyIff(parts[1..], o + parts[0].text, n);
      case Added => RunsNoEmptyIff(parts[1..], o, n + parts[0].text);
      case Equal =>
        CombineNoEmptyIff(o, n);
        RunsNoEmptyIff(parts[1..], "", "");
        NoEmptyAroundIff(Combine(o, n), parts[0], Runs(parts[1..], "", ""));
    }
  }

  lemma ApartAround(a: seq<Part>, p: Part, b: seq<Part>)
    requires Apart(a) && Apart(b) && p.kind == Equal
    ensures Apart(a + ([p] + b))
  {
    var all := a + ([p] + b);
    forall i | 0 < i < |all| && all[i].kind != Equal ensures all[i - 1].kind != all[i].kind {
      if i > |a| + 1 {
        assert all[i] == b[i - |a| - 1] && all[i - 1] == b[i - |a| - 2];
      }
    }
  }

  lemma {:induction false} RunsApart(parts: seq<Part>, o: string, n: string)
    ensures Apart(Runs(parts, o, n))
    decreases |parts|
  {
    if parts == [] {
      RenderApart(Lift(o, n));
    } else {
      match parts[0].kind
      case Removed => RunsApart(parts[1..], o + parts[0].text, n);
      case Added => RunsApart(parts[1..], o, n + parts[0].text);
      case Equal =>
        RenderApart(Lift(o, n));
        RunsApart(parts[1..], "", "");
        ApartAround(Combine(o, n), parts[0], Runs(parts[1..], "", ""));
    }
  }

  /** A list whose unchanged segments have text and stand alone in their kind
      from all others. */
  ghost predicate Spaced(parts: seq<Part>) {
    Apart(parts) && EqualsNonEmpty(parts)
  }

  lemma SpacedCons(p: Part, rest: seq<Part>)
    ensures Spaced([p] + rest) <==>
              && (p.kind == Equal ==> p.text != "")
              && Spaced(rest)
              && (rest != [] && rest[0].kind != Equal ==> p.kind != rest[0].kind)
  {
    var all := [p] + rest;
    assert all[0] == p;
    assert forall i :: 0 <= i < |rest| ==> all[i + 1] == rest[i];
    if Spaced(all) {
      forall i | 0 < i < |rest| && rest[i].kind != Equal ensures rest[i - 1].kind != rest[i].kind {
        assert all[i + 1] == rest[i] && all[i] == rest[i - 1];
      }
    }
  }

  /** Two neighbours of one kind are unchanged segments with text. */
  lemma SpacedJoin(p: Part, q: Part, rest: seq<Part>)
    requires p.kind == q.kind && Spaced([p] + ([q] + rest))
    ensures var joined := [Part(p.kind, p.text + q.text)] + rest;
            Spaced(joined) && (NoEmpty(joined) <==> NoEmpty([p] + ([q] + rest)))
  {
    var pq := Part(p.kind, p.text + q.text);
    SpacedCons(p, [q] + rest);
    SpacedCons(q, rest);
    SpacedCons(pq, rest);
    NoEmptyCons(p, [q] + rest);
    NoEmptyCons(q, rest);
    NoEmptyCons(pq, rest);
  }

  lemma NoEmptyCons(p: Part, rest: seq<Part>)
    ensures NoEmpty([p] + rest) <==> p.text != "" && NoEmpty(rest)
  {
    NoEmptyAroundIff([], p, rest);
    EmptyEnds([p] + rest);
  }

  /** Merging hides no empty segment: none stands behind its own kind. */
  lemma {:induction false} MergeNoEmptyIff(parts: seq<Part>)
    requires Spaced(parts)
    ensures NoEmpty(Merge(parts)) <==> NoEmpty(parts)
    decreases |parts|
  {
    if |parts| >= 2 {
      var p, q, rest := parts[0], parts[1], parts[2..];
      if p.kind == q.kind {
        assert parts == [p] + ([q] + rest);
        SpacedJoin(p, q, rest);
        MergeNoEmptyIff([Part(p.kind, p.text + q.text)] + rest);
      } else {
        assert parts == [p] + parts[1..];
        SpacedCons(p, parts[1..]);
        MergeNoEmptyIff(parts[1..]);
        NoEmptyCons(p, parts[1..]);
        NoEmptyCons(p, Merge(parts[1..]));
      }
    }
  }

  /** One pass leaves no empty segment exactly when every run is tidy. */
  lemma OnePassNoEmptyIff(parts: seq<Part>)
    requires EqualsNonEmpty(parts)
    ensures NoEmpty(Reorder(parts)) <==> TidyRuns(parts, "", "")
  {
    RunsNoEmptyIff(parts, "", "");
    RunsApart(parts, "", "");
    RunsSettle(parts, "", "");
    SettledEqualsNonEmpty(Runs(parts, "", ""), "", "");
    MergeNoEmptyIff(Runs(parts, "", ""));
  }
}
