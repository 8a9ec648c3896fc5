/** Which characters of the two texts a segment list keeps: those that stand at the
    same place of one unchanged segment. */
module ProseLinks {
  import opened Sequences
  import opened ProseSegments

  /** Character `i` of the old text and character `j` of the new one are the same
      character of an unchanged segment. */
  ghost predicate Linked(parts: seq<Part>, i: int, j: int)
    decreases |parts|
  {
    && parts != []
    && var n, rest := |parts[0].text|, parts[1..];
    match parts[0].kind
    case Equal => (0 <= i < n && i == j) || Linked(rest, i - n, j - n)
    case Removed => Linked(rest, i - n, j)
    case Added => Linked(rest, i, j - n)
  }

  lemma LinkedCons(p: Part, rest: seq<Part>, i: int, j: int)
    ensures Linked([p] + rest, i, j)
            <==> match p.kind
                 case Equal => (0 <= i < |p.text| && i == j) || Linked(rest, i - |p.text|, j - |p.text|)
                 case Removed => Linked(rest, i - |p.text|, j)
                 case Added => Linked(rest, i, j - |p.text|)
  {
    assert ([p] + rest)[1..] == rest;
  }

  lemma {:induction false} LinkedConcat(a: seq<Part>, b: seq<Part>, i: int, j: int)
    ensures Linked(a + b, i, j)
            <==> Linked(a, i, j) || Linked(b, i - |Text(a, Removed)|, j - |Text(a, Added)|)
    decreases |a|
  {
    if a == [] {
      assert a + b == b;
    } else {
      var n := |a[0].text|;
      HeadOfConcat(a, b);
      LinkedCons(a[0], a[1..] + b, i, j);
      match a[0].kind
      case Equal => LinkedConcat(a[1..], b, i - n, j - n);
      case Removed => LinkedConcat(a[1..], b, i - n, j);
      case Added => LinkedConcat(a[1..], b, i, j - n);
    }
  }

  /** What is kept is the same in both texts. */
  lemma {:induction false} LinkedAgree(parts: seq<Part>, i: int, j: int)
    requires Linked(parts, i, j)
    ensures 0 <= i < |Text(parts, Removed)| && 0 <= j < |Text(parts, Added)|
    ensures Text(parts, Removed)[i] == Text(parts, Added)[j]
    decreases |parts|
  {
    var n, rest := |parts[0].text|, parts[1..];
    match parts[0].kind
    case Equal =>
      if Linked(rest, i - n, j - n) {
        LinkedAgree(rest, i - n, j - n);
      }
    case Removed => LinkedAgree(rest, i - n, j);
    case Added => LinkedAgree(rest, i, j - n);
  }

  lemma {:induction false} MergeKeeps(parts: seq<Part>, i: int, j: int)
    requires Linked(parts, i, j)
    ensures Linked(Merge(parts), i, j)
    decreases |parts|
  {
    if |parts| >= 2 {
      var p, q, rest := parts[0], parts[1], parts[2..];
      assert parts[1..] == [q] + rest && parts == [p] + ([q] + rest);
      LinkedCons(p, [q] + rest, i, j);
      if p.kind == q.kind {
        JoinedKeeps(p, q, rest, i, j);
        MergeKeeps([Part(p.kind, p.text + q.text)] + rest, i, j);
      } else {
        var n := |p.text|;
        LinkedCons(p, Merge(parts[1..]), i, j);
        match p.kind
        case Equal =>
          if Linked([q] + rest, i - n, j - n) {
            MergeKeeps(parts[1..], i - n, j - n);
          }
        case Removed => MergeKeeps(parts[1..], i - n, j);
        case Added => MergeKeeps(parts[1..], i, j - n);
      }
    }
  }

  lemma JoinedKeeps(p: Part, q: Part, rest: seq<Part>, i: int, j: int)
    requires p.kind == q.kind && Linked([p] + ([q] + rest), i, j)
    ensures Linked([Part(p.kind, p.text + q.text)] + rest, i, j)
  {
    var n := |p.text|;
    LinkedCons(p, [q] + rest, i, j);
    LinkedCons(Part(p.kind, p.text + q.text), rest, i, j);
    match p.kind
    case Equal => LinkedCons(q, rest, i - n, j - n);
    case Removed => LinkedCons(q, rest, i - n, j);
    case Added => LinkedCons(q, rest, i, j - n);
  }

  /** What stands behind segments that rebuild `o` and `n`. */
  lemma LinkedBehind(a: seq<Part>, b: seq<Part>, o: string, n: string, i: int, j: int)
    requires Rebuilds(a, o, n) && Linked(b, i, j)
    ensures Linked(a + b, |o| + i, |n| + j)
  {
    LinkedConcat(a, b, |o| + i, |n| + j);
  }

  /** An unchanged segment in front of a list that keeps as much as `rest`. */
  lemma EqualKeeps(p: Part, rest: seq<Part>, kept: seq<Part>, i: int, j: int)
    requires p.kind == Equal && Linked([p] + rest, i, j)
    requires Linked(rest, i - |p.text|, j - |p.text|) ==> Linked(kept, i - |p.text|, j - |p.text|)
    ensures Linked([p] + kept, i, j)
  {
    LinkedCons(p, rest, i, j);
    LinkedCons(p, kept, i, j);
  }

  lemma {:induction false} RunsKeep(parts: seq<Part>, o: string, n: string, i: int, j: int)
    requires Linked(parts, i, j)
    ensures Linked(Runs(parts, o, n), |o| + i, |n| + j)
    decreases |parts|
  {
    var p, rest := parts[0], parts[1..];
    match p.kind
    case Removed => RunsKeep(rest, o + p.text, n, i - |p.text|, j);
    case Added => RunsKeep(rest, o, n + p.text, i, j - |p.text|);
    case Equal =>
      if Linked(rest, i - |p.text|, j - |p.text|) {
        RunsKeep(rest, "", "", i - |p.text|, j - |p.text|);
      }
      assert parts == [p] + rest;
      EqualKeeps(p, rest, Runs(rest, "", ""), i, j);
      CombineRebuilds(o, n);
      LinkedBehind(Combine(o, n), [p] + Runs(rest, "", ""), o, n, i, j);
  }

  /** Normalisation keeps what was kept. */
  lemma ReorderKeeps(parts: seq<Part>, i: int, j: int)
    requires Linked(parts, i, j)
    ensures Linked(Reorder(parts), i, j)
  {
    RunsKeep(parts, "", "", i, j);
    MergeKeeps(Runs(parts, "", ""), i, j);
  }
}
