/** The edit-script engine of the unified diff: `lcs` and `boundedEdits`.

    `LcsLength` and `Backtrack` specify what the flat table and the backtracking
    loop compute.  The theorems about them are stated against `Subsequence`,
    which knows nothing about tables.
 */
module UnifiedLcs {
  import opened Sequences

  /** A line without its newline, and whether it had one. */
  datatype Line = Line(text: string, hasNewline: bool)

  datatype Op = Keep | Delete | Insert

  /** The largest table `lcs` is allowed to allocate. */
  const MAX_CELLS: nat := 4_000_000

  datatype Edits = TooLarge | Script(ops: seq<Op>)

  // ---------------------------------------------------------------------
  // Reference notions
  // ---------------------------------------------------------------------

  /** `s` is obtained from `a` by dropping elements. */
  ghost predicate Subsequence<T>(s: seq<T>, a: seq<T>)
    decreases |a|
  {
    s == [] ||
    (a != [] && ((Last(s) == Last(a) && Subsequence(Init(s), Init(a))) || Subsequence(s, Init(a))))
  }

  /** `ops` consumes exactly `a` and `b`, keeping only equal lines. */
  ghost predicate Aligns(ops: seq<Op>, a: seq<Line>, b: seq<Line>)
    decreases |ops|
  {
    if ops == [] then a == [] && b == []
    else match Last(ops)
      case Keep => a != [] && b != [] && Last(a) == Last(b) && Aligns(Init(ops), Init(a), Init(b))
      case Delete => a != [] && Aligns(Init(ops), Init(a), b)
      case Insert => b != [] && Aligns(Init(ops), a, Init(b))
  }

  ghost function Kept(ops: seq<Op>): (n: nat) {
    if ops == [] then 0 else Kept(Init(ops)) + (if Last(ops) == Keep then 1 else 0)
  }

  /** The lines a script keeps. */
  ghost function KeptLines(ops: seq<Op>, a: seq<Line>, b: seq<Line>): (s: seq<Line>)
    requires Aligns(ops, a, b)
    decreases |ops|
  {
    if ops == [] then []
    else match Last(ops)
      case Keep => KeptLines(Init(ops), Init(a), Init(b)) + [Last(a)]
      case Delete => KeptLines(Init(ops), Init(a), b)
      case Insert => KeptLines(Init(ops), a, Init(b))
  }

  /** What the script keeps is a longest common subsequence. */
  ghost predicate Optimal(ops: seq<Op>, a: seq<Line>, b: seq<Line>)
    requires Aligns(ops, a, b)
  {
    && Subsequence(KeptLines(ops, a, b), a) && Subsequence(KeptLines(ops, a, b), b)
    && |KeptLines(ops, a, b)| == Kept(ops)
    && forall s: seq<Line> :: Subsequence(s, a) && Subsequence(s, b) ==> |s| <= Kept(ops)
  }

  /** Between an insertion and a later deletion there is always a kept line:
      inside one run of changes every deletion precedes every insertion. */
  ghost predicate DeletesFirst(ops: seq<Op>) {
    forall i, j :: 0 <= i < j < |ops| && ops[i] == Insert && ops[j] == Delete ==>
      exists k :: i < k < j && ops[k] == Keep
  }

  // ---------------------------------------------------------------------
  // What the table and the backtracking compute
  // ---------------------------------------------------------------------

  function LcsLength(a: seq<Line>, b: seq<Line>): (n: nat)
    decreases |a| + |b|
  {
    if a == [] || b == [] then 0
    else if Last(a) == Last(b) then LcsLength(Init(a), Init(b)) + 1
    else if LcsLength(Init(a), b) >= LcsLength(a, Init(b)) then LcsLength(Init(a), b)
    else LcsLength(a, Init(b))
  }

  function Backtrack(a: seq<Line>, b: seq<Line>): (ops: seq<Op>)
    decreases |a| + |b|
  {
    if a == [] && b == [] then []
    else if a != [] && b != [] && Last(a) == Last(b) then Backtrack(Init(a), Init(b)) + [Keep]
    else if b != [] && (a == [] || LcsLength(a, Init(b)) >= LcsLength(Init(a), b)) then
      Backtrack(a, Init(b)) + [Insert]
    else Backtrack(Init(a), b) + [Delete]
  }

  // ---------------------------------------------------------------------
  // Optimality
  // ---------------------------------------------------------------------

  lemma {:induction false} SubsequenceInit<T>(s: seq<T>, a: seq<T>)
    requires s != [] && Subsequence(s, a)
    ensures a != [] && Subsequence(Init(s), Init(a))
    decreases |a|
  {
    if !(Last(s) == Last(a) && Subsequence(Init(s), Init(a))) {
      SubsequenceInit(s, Init(a));
      SubsequenceWiden(Init(s), Init(a));
    }
  }

  lemma {:induction false} SubsequenceWiden<T>(s: seq<T>, a: seq<T>)
    requires a != [] && Subsequence(s, Init(a))
    ensures Subsequence(s, a)
  {
  }

  /** The table never undercounts: every common subsequence fits in it. */
  lemma {:induction false} CommonSubsequenceBound(s: seq<Line>, a: seq<Line>, b: seq<Line>)
    requires Subsequence(s, a) && Subsequence(s, b)
    ensures |s| <= LcsLength(a, b)
    decreases |a| + |b|
  {
    if s == [] {
    } else if Last(a) == Last(b) {
      SubsequenceInit(s, a);
      SubsequenceInit(s, b);
      CommonSubsequenceBound(Init(s), Init(a), Init(b));
    } else if Last(s) != Last(a) {
      CommonSubsequenceBound(s, Init(a), b);
    } else {
      CommonSubsequenceBound(s, a, Init(b));
    }
  }

  lemma {:induction false} BacktrackAligns(a: seq<Line>, b: seq<Line>)
    ensures Aligns(Backtrack(a, b), a, b)
    ensures Kept(Backtrack(a, b)) == LcsLength(a, b)
    decreases |a| + |b|
  {
    var ops := Backtrack(a, b);
    if a == [] && b == [] {
    } else if a != [] && b != [] && Last(a) == Last(b) {
      BacktrackAligns(Init(a), Init(b));
      assert Init(ops) == Backtrack(Init(a), Init(b));
    } else if b != [] && (a == [] || LcsLength(a, Init(b)) >= LcsLength(Init(a), b)) {
      BacktrackAligns(a, Init(b));
      assert Init(ops) == Backtrack(a, Init(b));
    } else {
      BacktrackAligns(Init(a), b);
      assert Init(ops) == Backtrack(Init(a), b);
    }
  }

  /** Every script that aligns the inputs keeps a common subsequence of them. */
  lemma {:induction false} KeptLinesCommon(ops: seq<Op>, a: seq<Line>, b: seq<Line>)
    requires Aligns(ops, a, b)
    ensures Subsequence(KeptLines(ops, a, b), a) && Subsequence(KeptLines(ops, a, b), b)
    ensures |KeptLines(ops, a, b)| == Kept(ops)
    decreases |ops|
  {
    if ops == [] {
    } else {
      var s := KeptLines(ops, a, b);
      match Last(ops)
      case Keep =>
        KeptLinesCommon(Init(ops), Init(a), Init(b));
        assert Init(s) == KeptLines(Init(ops), Init(a), Init(b));
      case Delete =>
        KeptLinesCommon(Init(ops), Init(a), b);
        SubsequenceWiden(s, a);
      case Insert =>
        KeptLinesCommon(Init(ops), a, Init(b));
        SubsequenceWiden(s, b);
    }
  }

  /** Equal first lines always count. */
  lemma {:induction false} LcsCommonHead(x: Line, a: seq<Line>, b: seq<Line>)
    ensures LcsLength([x] + a, [x] + b) == LcsLength(a, b) + 1
    decreases |a| + |b|
  {
    var xa, xb := [x] + a, [x] + b;
    if a != [] { assert Init(xa) == [x] + Init(a); }
    if b != [] { assert Init(xb) == [x] + Init(b); }
    if a == [] && b == [] {
      assert Init(xa) == [];
    } else if a == [] {
      LcsCommonHead(x, a, Init(b));
      assert Init(xa) == [];
    } else if b == [] {
      LcsCommonHead(x, Init(a), b);
      assert Init(xb) == [];
    } else {
      LcsCommonHead(x, Init(a), Init(b));
      LcsCommonHead(x, Init(a), b);
      LcsCommonHead(x, a, Init(b));
    }
  }

  lemma {:induction false} LcsCommonPrefix(p: seq<Line>, a: seq<Line>, b: seq<Line>)
    ensures LcsLength(p + a, p + b) == |p| + LcsLength(a, b)
  {
    if p == [] {
      assert p + a == a && p + b == b;
    } else {
      LcsCommonPrefix(p[1..], a, b);
      LcsCommonHead(p[0], p[1..] + a, p[1..] + b);
      HeadOfConcat(p, a);
      HeadOfConcat(p, b);
    }
  }

  lemma {:induction false} LcsCommonSuffix(a: seq<Line>, b: seq<Line>, s: seq<Line>)
    ensures LcsLength(a + s, b + s) == LcsLength(a, b) + |s|
  {
    if s == [] {
      assert a + s == a && b + s == b;
    } else {
      LcsCommonSuffix(a, b, Init(s));
      assert Init(a + s) == a + Init(s) && Init(b + s) == b + Init(s);
    }
  }

  // ---------------------------------------------------------------------
  // Deletions before insertions
  // ---------------------------------------------------------------------

  lemma {:induction false} LcsMonotone(a: seq<Line>, b: seq<Line>)
    ensures a != [] ==> LcsLength(Init(a), b) <= LcsLength(a, b) <= LcsLength(Init(a), b) + 1
    ensures b != [] ==> LcsLength(a, Init(b)) <= LcsLength(a, b) <= LcsLength(a, Init(b)) + 1
    decreases |a| + |b|
  {
    if a != [] && b != [] {
      LcsMonotone(Init(a), Init(b));
      LcsMonotone(Init(a), b);
      LcsMonotone(a, Init(b));
    }
  }

  ghost predicate NoInsertThenDelete(ops: seq<Op>) {
    forall i :: 0 < i < |ops| ==> !(ops[i - 1] == Insert && ops[i] == Delete)
  }

  /** The tie rule: where the last step is a deletion, the step before it is
      not an insertion. */
  lemma {:induction false} BacktrackNoInsertThenDelete(a: seq<Line>, b: seq<Line>)
    ensures NoInsertThenDelete(Backtrack(a, b))
    decreases |a| + |b|
  {
    if a == [] && b == [] {
    } else if a != [] && b != [] && Last(a) == Last(b) {
      BacktrackNoInsertThenDelete(Init(a), Init(b));
    } else if b != [] && (a == [] || LcsLength(a, Init(b)) >= LcsLength(Init(a), b)) {
      BacktrackNoInsertThenDelete(a, Init(b));
    } else {
      BacktrackNoInsertThenDelete(Init(a), b);
      var before := Backtrack(Init(a), b);
      if before != [] && Last(before) == Insert {
        LcsMonotone(a, Init(b));
        assert false;
      }
    }
  }

  lemma {:induction false} NoInsertThenDeleteMeansDeletesFirst(ops: seq<Op>)
    requires NoInsertThenDelete(ops)
    ensures DeletesFirst(ops)
  {
    forall i, j | 0 <= i < j < |ops| && ops[i] == Insert && ops[j] == Delete
      ensures exists k :: i < k < j && ops[k] == Keep
    {
      var k := i + 1;
      while ops[k] == Insert
        invariant i < k <= j && ops[k - 1] == Insert
        decreases j - k
      {
        k := k + 1;
      }
      assert i < k < j && ops[k] == Keep;
    }
  }

  // ---------------------------------------------------------------------
  // The implementation
  // ---------------------------------------------------------------------

  function Cell(i: nat, j: nat, width: nat): (k: nat) {
    i * width + j
  }

  lemma CellOrdered(i: nat, j: nat, k: nat, l: nat, width: nat)
    requires i < k && j < width
    ensures Cell(i, j, width) < Cell(k, l, width)
  {
    assert k * width >= (i + 1) * width == i * width + width;
  }

  lemma CellBound(i: nat, j: nat, n: nat, width: nat)
    requires i <= n && j < width
    ensures Cell(i, j, width) < (n + 1) * width
  {
    assert i * width <= n * width;
    assert (n + 1) * width == n * width + width;
  }

  /** Every cell before (i, j) in row-major order holds its LCS length, and
      the border cells still hold the zero they were allocated with. */
  ghost predicate Filled(dp: array<nat>, a: seq<Line>, b: seq<Line>, i: nat, j: nat)
    requires dp.Length == (|a| + 1) * (|b| + 1)
    reads dp
  {
    forall r: nat, c: nat {:trigger Cell(r, c, |b| + 1)} ::
      r <= |a| && c <= |b| && (r < i || (r == i && c < j) || c == 0) ==>
        Cell(r, c, |b| + 1) < dp.Length &&
        dp[Cell(r, c, |b| + 1)] == LcsLength(a[..r], b[..c])
  }

  /** Fills the contiguous table row by row. */
  method FillTable(a: seq<Line>, b: seq<Line>) returns (dp: array<nat>)
    ensures fresh(dp) && dp.Length == (|a| + 1) * (|b| + 1)
    ensures Filled(dp, a, b, |a| + 1, 0)
  {
    var n, m := |a|, |b|;
    var width := m + 1;
    dp := new nat[(n + 1) * width](_ => 0);
    forall r: nat, c: nat {:trigger Cell(r, c, |b| + 1)} | r <= n && c <= m
      ensures Cell(r, c, |b| + 1) < dp.Length
    {
      CellBound(r, c, n, width);
    }
    for i := 1 to n + 1
      invariant dp.Length == (n + 1) * width
      invariant Filled(dp, a, b, i, 0)
    {
      for j := 1 to m + 1
        invariant dp.Length == (n + 1) * width
        invariant Filled(dp, a, b, i, j)
      {
        CellBound(i, j, n, width);
        FillCell(dp, a, b, i, j);
      }
    }
  }

  /** One inner iteration of the table loop. */
  method FillCell(dp: array<nat>, a: seq<Line>, b: seq<Line>, i: nat, j: nat)
    requires dp.Length == (|a| + 1) * (|b| + 1)
    requires 1 <= i <= |a| && 1 <= j <= |b|
    requires Filled(dp, a, b, i, j)
    modifies dp
    ensures Filled(dp, a, b, i, j + 1)
  {
    var width := |b| + 1;
    CellBound(i, j, |a|, width);
    TakeInit(a, i);
    TakeInit(b, j);
    assert Cell(i - 1, j - 1, width) < dp.Length && Cell(i - 1, j, width) < dp.Length
           && Cell(i, j - 1, width) < dp.Length;
    var v;
    if a[i - 1] == b[j - 1] {
      v := dp[Cell(i - 1, j - 1, width)] + 1;
    } else if dp[Cell(i - 1, j, width)] >= dp[Cell(i, j - 1, width)] {
      v := dp[Cell(i - 1, j, width)];
    } else {
      v := dp[Cell(i, j - 1, width)];
    }
    assert v == LcsLength(a[..i], b[..j]);
    dp[Cell(i, j, width)] := v;
    forall r: nat, c: nat {:trigger Cell(r, c, |b| + 1)}
      | r <= |a| && c <= |b| && (r < i || (r == i && c < j + 1) || c == 0)
      ensures Cell(r, c, |b| + 1) < dp.Length && dp[Cell(r, c, |b| + 1)] == LcsLength(a[..r], b[..c])
    {
      if r < i {
        CellOrdered(r, c, i, j, width);
      } else if i < r {
        CellOrdered(i, j, r, c, width);
      }
    }
  }

  /** Both one-sided cases of `lcs` skip the table. */
  method OneSided(op: Op, n: nat) returns (ops: seq<Op>)
    ensures ops == seq(n, _ => op)
  {
    ops := [];
    for i := 0 to n
      invariant ops == seq(i, _ => op)
    {
      ops := ops + [op];
    }
  }

  lemma {:induction false} BacktrackOneSided(a: seq<Line>)
    ensures Backtrack([], a) == seq(|a|, _ => Insert)
    ensures Backtrack(a, []) == seq(|a|, _ => Delete)
  {
    if a == [] {
    } else {
      BacktrackOneSided(Init(a));
    }
  }

  method Lcs(a: seq<Line>, b: seq<Line>) returns (ops: seq<Op>)
    ensures ops == Backtrack(a, b)
  {
    var n, m := |a|, |b|;
    if n == 0 {
      BacktrackOneSided(b);
      ops := OneSided(Insert, m);
      return;
    }
    if m == 0 {
      BacktrackOneSided(a);
      ops := OneSided(Delete, n);
      return;
    }
    var dp := FillTable(a, b);
    ops := WalkBack(a, b, dp);
    ops := Reverse(ops);
  }

  /** The backtracking loop: the script, last operation first. */
  method WalkBack(a: seq<Line>, b: seq<Line>, dp: array<nat>) returns (ops: seq<Op>)
    requires dp.Length == (|a| + 1) * (|b| + 1)
    requires Filled(dp, a, b, |a| + 1, 0)
    ensures Reversed(ops) == Backtrack(a, b)
  {
    var width := |b| + 1;
    ops := [];
    var i, j := |a|, |b|;
    assert a[..i] == a && b[..j] == b;
    while i > 0 || j > 0
      invariant 0 <= i <= |a| && 0 <= j <= |b|
      invariant Backtrack(a, b) == Backtrack(a[..i], b[..j]) + Reversed(ops)
      decreases i + j
    {
      ghost var rest := Backtrack(a[..i], b[..j]);
      ghost var was := ops;
      if i > 0 { TakeInit(a, i); }
      if j > 0 { TakeInit(b, j); }
      if i > 0 && j > 0 {
        assert Cell(i, j - 1, width) < dp.Length && Cell(i - 1, j, width) < dp.Length;
      }
      if i > 0 && j > 0 && a[i - 1] == b[j - 1] {
        ops := ops + [Keep];
        i, j := i - 1, j - 1;
      } else if j > 0 && (i == 0 || dp[Cell(i, j - 1, width)] >= dp[Cell(i - 1, j, width)]) {
        ops := ops + [Insert];
        j := j - 1;
      } else {
        ops := ops + [Delete];
        i := i - 1;
      }
      assert rest == Backtrack(a[..i], b[..j]) + [Last(ops)];
      assert Init(ops) == was;
      AppendAssociates(Backtrack(a[..i], b[..j]), Last(ops), Reversed(was));
    }
  }

  // ---------------------------------------------------------------------
  // boundedEdits
  // ---------------------------------------------------------------------

  /** How many lines the two sides share at the front, `k` of them known. */
  function CommonPrefix(a: seq<Line>, b: seq<Line>, k: nat): (p: nat)
    requires k <= |a| && k <= |b|
    ensures k <= p <= |a| && p <= |b|
    decreases |a| - k
  {
    if k < |a| && k < |b| && a[k] == b[k] then CommonPrefix(a, b, k + 1) else k
  }

  /** How many lines after the first `p` they share at the back, `k` of them
      known. */
  function CommonSuffix(a: seq<Line>, b: seq<Line>, p: nat, k: nat): (s: nat)
    requires p + k <= |a| && p + k <= |b|
    ensures k <= s && p + s <= |a| && p + s <= |b|
    decreases |a| - k
  {
    if k < |a| - p && k < |b| - p && a[|a| - k - 1] == b[|b| - k - 1] then CommonSuffix(a, b, p, k + 1) else k
  }

  /** The shared front is equal, and it ends at a difference. */
  lemma {:induction false} CommonPrefixShared(a: seq<Line>, b: seq<Line>, k: nat)
    requires k <= |a| && k <= |b| && a[..k] == b[..k]
    ensures var p := CommonPrefix(a, b, k);
            a[..p] == b[..p] && (p < |a| && p < |b| ==> a[p] != b[p])
    decreases |a| - k
  {
    if k < |a| && k < |b| && a[k] == b[k] {
      assert a[..k + 1] == a[..k] + [a[k]] && b[..k + 1] == b[..k] + [b[k]];
      CommonPrefixShared(a, b, k + 1);
    }
  }

  /** The shared back is equal, and it ends at a difference. */
  lemma {:induction false} CommonSuffixShared(a: seq<Line>, b: seq<Line>, p: nat, k: nat)
    requires p + k <= |a| && p + k <= |b| && SameBack(a, b, k)
    ensures var s := CommonSuffix(a, b, p, k);
            && SameBack(a, b, s)
            && (p + s < |a| && p + s < |b| ==> a[|a| - s - 1] != b[|b| - s - 1])
    decreases |a| - k
  {
    if k < |a| - p && k < |b| - p && a[|a| - k - 1] == b[|b| - k - 1] {
      CommonSuffixShared(a, b, p, k + 1);
    }
  }

  /** What is left of each side once the equal edges are removed. */
  function Middles(a: seq<Line>, b: seq<Line>): (r: (seq<Line>, seq<Line>)) {
    var p := CommonPrefix(a, b, 0);
    var s := CommonSuffix(a, b, p, 0);
    (a[p..|a| - s], b[p..|b| - s])
  }

  /** Some line has to be deleted, some line inserted, and the table over the
      middles does not fit. */
  ghost predicate OverBudget(a: seq<Line>, b: seq<Line>) {
    var (am, bm) := Middles(a, b);
    am != [] && bm != [] && (|am| + 1) * (|bm| + 1) > MAX_CELLS
  }

  lemma MulMonotone(x: nat, y: nat, w: nat)
    requires x <= y
    ensures x * w <= y * w
  {
  }

  /** The overflow-free form of the guard is exactly the cell budget. */
  lemma GuardIsCellBudget(n: nat, m: nat, cells: nat)
    requires n > 0 && m > 0
    ensures (n >= cells || m >= cells || n + 1 > cells / (m + 1)) <==> (n + 1) * (m + 1) > cells
  {
    var w := m + 1;
    var q := cells / w;
    assert cells == q * w + cells % w;
    if n + 1 > q {
      MulMonotone(q + 1, n + 1, w);
      assert (q + 1) * w == q * w + w;
    } else {
      MulMonotone(n + 1, q, w);
      MulMonotone(1, w, n + 1);
      MulMonotone(1, n + 1, w);
    }
  }

  lemma {:induction false} AlignsKeepSuffix(ops: seq<Op>, a: seq<Line>, b: seq<Line>, s: seq<Line>)
    requires Aligns(ops, a, b)
    ensures Aligns(ops + seq(|s|, _ => Keep), a + s, b + s)
    ensures Kept(ops + seq(|s|, _ => Keep)) == Kept(ops) + |s|
    decreases |s|
  {
    var all := ops + seq(|s|, _ => Keep);
    if s == [] {
      assert all == ops && a + s == a && b + s == b;
    } else {
      AlignsKeepSuffix(ops, a, b, Init(s));
      assert Init(all) == ops + seq(|s| - 1, _ => Keep);
      assert Init(a + s) == a + Init(s) && Init(b + s) == b + Init(s);
    }
  }

  lemma {:induction false} AlignsConcat(p: seq<Op>, q: seq<Op>,
                                        a: seq<Line>, b: seq<Line>, c: seq<Line>, d: seq<Line>)
    requires Aligns(p, a, b) && Aligns(q, c, d)
    ensures Aligns(p + q, a + c, b + d) && Kept(p + q) == Kept(p) + Kept(q)
    decreases |q|
  {
    if q == [] {
      assert p + q == p && a + c == a && b + d == b;
    } else {
      InitOfConcat(p, q);
      if c != [] { InitOfConcat(a, c); }
      if d != [] { InitOfConcat(b, d); }
      match Last(q)
      case Keep => AlignsConcat(p, Init(q), a, b, Init(c), Init(d));
      case Delete => AlignsConcat(p, Init(q), a, b, Init(c), d);
      case Insert => AlignsConcat(p, Init(q), a, b, c, Init(d));
    }
  }

  ghost predicate RestoresContext(ops: seq<Op>, p: nat, mid: seq<Op>, s: nat) {
    && |ops| == p + |mid| + s
    && ops == seq(p, _ => Keep) + mid + seq(s, _ => Keep)
  }

  lemma {:induction false} ContextAligned(p: seq<Line>, am: seq<Line>, bm: seq<Line>, s: seq<Line>, ops: seq<Op>)
    requires RestoresContext(ops, |p|, Backtrack(am, bm), |s|)
    ensures Aligns(ops, p + am + s, p + bm + s)
    ensures Kept(ops) == LcsLength(p + am + s, p + bm + s)
  {
    var head, mid := seq(|p|, _ => Keep), Backtrack(am, bm);
    AlignsKeepSuffix([], [], [], p);
    assert [] + p == p && [] + head == head;
    BacktrackAligns(am, bm);
    AlignsConcat(head, mid, p, p, am, bm);
    AlignsKeepSuffix(head + mid, p + am, p + bm, s);
    LcsCommonPrefix(p, am, bm);
    LcsCommonSuffix(p + am, p + bm, s);
  }

  lemma {:induction false} ContextOrdered(p: nat, mid: seq<Op>, s: nat, ops: seq<Op>)
    requires RestoresContext(ops, p, mid, s) && NoInsertThenDelete(mid)
    ensures DeletesFirst(ops)
  {
    assert forall i :: 0 <= i < |ops| && ops[i] != Keep ==> p <= i < p + |mid| && ops[i] == mid[i - p];
    NoInsertThenDeleteMeansDeletesFirst(ops);
  }

  /** Restoring the trimmed context keeps the script aligned, optimal and in
      order. */
  lemma {:induction false} ContextRestored(p: seq<Line>, am: seq<Line>, bm: seq<Line>, s: seq<Line>,
                                           ops: seq<Op>, a: seq<Line>, b: seq<Line>)
    requires a == p + am + s && b == p + bm + s
    requires RestoresContext(ops, |p|, Backtrack(am, bm), |s|)
    ensures Aligns(ops, a, b) && Optimal(ops, a, b) && DeletesFirst(ops)
  {
    ContextAligned(p, am, bm, s, ops);
    KeptLinesCommon(ops, a, b);
    forall c: seq<Line> | Subsequence(c, a) && Subsequence(c, b) ensures |c| <= Kept(ops) {
      CommonSubsequenceBound(c, a, b);
    }
    BacktrackNoInsertThenDelete(am, bm);
    ContextOrdered(|p|, Backtrack(am, bm), |s|, ops);
  }

  method TrimEdges(a: seq<Line>, b: seq<Line>) returns (prefix: nat, suffix: nat)
    ensures prefix == CommonPrefix(a, b, 0)
    ensures suffix == CommonSuffix(a, b, prefix, 0)
  {
    prefix := 0;
    while prefix < |a| && prefix < |b| && a[prefix] == b[prefix]
      invariant prefix <= |a| && prefix <= |b|
      invariant CommonPrefix(a, b, prefix) == CommonPrefix(a, b, 0)
    {
      prefix := prefix + 1;
    }
    suffix := 0;
    while suffix < |a| - prefix && suffix < |b| - prefix && a[|a| - suffix - 1] == b[|b| - suffix - 1]
      invariant prefix + suffix <= |a| && prefix + suffix <= |b|
      invariant CommonSuffix(a, b, prefix, suffix) == CommonSuffix(a, b, prefix, 0)
    {
      suffix := suffix + 1;
    }
  }

  lemma EdgesShared(a: seq<Line>, b: seq<Line>, prefix: nat, suffix: nat)
    requires prefix == CommonPrefix(a, b, 0) && suffix == CommonSuffix(a, b, prefix, 0)
    ensures a[..prefix] == b[..prefix] && SameBack(a, b, suffix)
  {
    CommonPrefixShared(a, b, 0);
    CommonSuffixShared(a, b, prefix, 0);
  }

  lemma SlicesAround(a: seq<Line>, b: seq<Line>, prefix: nat, suffix: nat)
    requires prefix + suffix <= |a| && prefix + suffix <= |b|
    requires a[..prefix] == b[..prefix] && a[|a| - suffix..] == b[|b| - suffix..]
    ensures a == a[..prefix] + a[prefix..|a| - suffix] + a[|a| - suffix..]
    ensures b == a[..prefix] + b[prefix..|b| - suffix] + a[|a| - suffix..]
  {
    SplitThree(a, prefix, |a| - suffix);
    SplitThree(b, prefix, |b| - suffix);
  }

  /** Around the script of the middles, the full context gives a script of the
      two files. */
  lemma TrimmedScript(a: seq<Line>, b: seq<Line>, prefix: nat, suffix: nat, ops: seq<Op>)
    requires prefix == CommonPrefix(a, b, 0) && suffix == CommonSuffix(a, b, prefix, 0)
    requires RestoresContext(ops, prefix, Backtrack(a[prefix..|a| - suffix], b[prefix..|b| - suffix]), suffix)
    ensures Aligns(ops, a, b) && Optimal(ops, a, b) && DeletesFirst(ops)
  {
    EdgesShared(a, b, prefix, suffix);
    BackIsSlice(a, b, suffix);
    SlicesAround(a, b, prefix, suffix);
    var p, s := a[..prefix], a[|a| - suffix..];
    assert |p| == prefix && |s| == suffix;
    ContextRestored(p, a[prefix..|a| - suffix], b[prefix..|b| - suffix], s, ops, a, b);
  }

  /** The full-file script around a middle script. */
  method WithContext(prefix: nat, middle: seq<Op>, suffix: nat) returns (ops: seq<Op>)
    ensures RestoresContext(ops, prefix, middle, suffix)
  {
    ops := OneSided(Keep, prefix);
    ops := ops + middle;
    var tail := OneSided(Keep, suffix);
    ops := ops + tail;
  }

  method ExceedsBudget(n: nat, m: nat) returns (over: bool)
    ensures over <==> n > 0 && m > 0 && (n + 1) * (m + 1) > MAX_CELLS
  {
    if n > 0 && m > 0 { GuardIsCellBudget(n, m, MAX_CELLS); }
    over := n > 0 && m > 0 && (n >= MAX_CELLS || m >= MAX_CELLS || n + 1 > MAX_CELLS / (m + 1));
  }

  /** The script between two files, or the refusal to allocate a table that
      does not fit. */
  method BoundedEdits(a: seq<Line>, b: seq<Line>) returns (r: Edits)
    ensures r.TooLarge? <==> OverBudget(a, b)
    ensures r.Script? ==> Aligns(r.ops, a, b) && Optimal(r.ops, a, b) && DeletesFirst(r.ops)
  {
    var prefix, suffix := TrimEdges(a, b);
    var am, bm := a[prefix..|a| - suffix], b[prefix..|b| - suffix];
    assert Middles(a, b) == (am, bm);
    var over := ExceedsBudget(|am|, |bm|);
    if over {
      return TooLarge;
    }
    var middle := Lcs(am, bm);
    var ops := WithContext(prefix, middle, suffix);
    TrimmedScript(a, b, prefix, suffix, ops);
    r := Script(ops);
  }
}
