/** Piece alignment by edit distance, and the smoothing of its edit string.

    `Applies` and `Cost` are the reference: an edit string is optimal when no
    edit string turning one side into the other has fewer changes. */
module ProseEdit {
  import opened Sequences

  /** 's', 'd', 'i' and 'x' of the edit string. */
  datatype Edit = Same | Drop | Add | Swap

  const MAX_EDIT_DISTANCE: nat := 128

  /** `ops` turns `u` into `v`. */
  ghost predicate Applies<T>(ops: seq<Edit>, u: seq<T>, v: seq<T>)
    decreases |ops|
  {
    if ops == [] then u == [] && v == []
    else match Last(ops)
      case Same => u != [] && v != [] && Last(u) == Last(v) && Applies(Init(ops), Init(u), Init(v))
      case Drop => u != [] && Applies(Init(ops), Init(u), v)
      case Add => v != [] && Applies(Init(ops), u, Init(v))
      case Swap => u != [] && v != [] && Applies(Init(ops), Init(u), Init(v))
  }

  ghost function Cost(ops: seq<Edit>): (n: nat) {
    if ops == [] then 0 else Cost(Init(ops)) + (if Last(ops) == Same then 0 else 1)
  }

  ghost predicate Cheapest<T>(ops: seq<Edit>, u: seq<T>, v: seq<T>) {
    && Applies(ops, u, v)
    && forall other: seq<Edit> :: Applies(other, u, v) ==> Cost(ops) <= Cost(other)
  }

  // ---------------------------------------------------------------------
  // What the matrix and the backtracking compute
  // ---------------------------------------------------------------------

  function Min3(a: nat, b: nat, c: nat): (m: nat)
    ensures m <= a && m <= b && m <= c && (m == a || m == b || m == c)
  {
    if a <= b && a <= c then a else if b <= c then b else c
  }

  function Distance<T(==)>(u: seq<T>, v: seq<T>): (n: nat)
    decreases |u| + |v|
  {
    if u == [] then |v|
    else if v == [] then |u|
    else if Last(u) == Last(v) then Distance(Init(u), Init(v))
    else Min3(Distance(Init(u), Init(v)) + 1, Distance(Init(u), v) + 1, Distance(u, Init(v)) + 1)
  }

  function Backtrack<T(==)>(u: seq<T>, v: seq<T>): (ops: seq<Edit>)
    decreases |u| + |v|
  {
    if u == [] && v == [] then []
    else if u != [] && v != [] && Last(u) == Last(v) then Backtrack(Init(u), Init(v)) + [Same]
    else if u != [] && v != [] && Distance(u, v) == Distance(Init(u), Init(v)) + 1 then
      Backtrack(Init(u), Init(v)) + [Swap]
    else if v != [] && (u == [] || Distance(u, Init(v)) <= Distance(Init(u), v)) then
      Backtrack(u, Init(v)) + [Add]
    else Backtrack(Init(u), v) + [Drop]
  }

  // ---------------------------------------------------------------------
  // Optimality
  // ---------------------------------------------------------------------

  /** Dropping one piece changes the distance by at most one. */
  lemma {:induction false} DistanceStep<T>(u: seq<T>, v: seq<T>)
    ensures u != [] ==> Distance(u, v) <= Distance(Init(u), v) + 1 && Distance(Init(u), v) <= Distance(u, v) + 1
    ensures v != [] ==> Distance(u, v) <= Distance(u, Init(v)) + 1 && Distance(u, Init(v)) <= Distance(u, v) + 1
    decreases |u| + |v|
  {
    if u != [] && v != [] {
      DistanceStep(Init(u), v);
      DistanceStep(u, Init(v));
    }
  }

  lemma {:induction false} DistanceIsLowerBound<T>(ops: seq<Edit>, u: seq<T>, v: seq<T>)
    requires Applies(ops, u, v)
    ensures Distance(u, v) <= Cost(ops)
    decreases |ops|
  {
    if ops == [] {
    } else {
      DistanceStep(u, v);
      match Last(ops)
      case Same => DistanceIsLowerBound(Init(ops), Init(u), Init(v));
      case Swap => DistanceIsLowerBound(Init(ops), Init(u), Init(v));
      case Drop => DistanceIsLowerBound(Init(ops), Init(u), v);
      case Add => DistanceIsLowerBound(Init(ops), u, Init(v));
    }
  }

  lemma AppliesAppend<T>(ops: seq<Edit>, op: Edit, u: seq<T>, v: seq<T>)
    requires match op
             case Same => u != [] && v != [] && Last(u) == Last(v) && Applies(ops, Init(u), Init(v))
             case Drop => u != [] && Applies(ops, Init(u), v)
             case Add => v != [] && Applies(ops, u, Init(v))
             case Swap => u != [] && v != [] && Applies(ops, Init(u), Init(v))
    ensures Applies(ops + [op], u, v)
    ensures Cost(ops + [op]) == Cost(ops) + (if op == Same then 0 else 1)
  {
    assert Init(ops + [op]) == ops;
  }

  lemma {:induction false} BacktrackMeetsDistance<T>(u: seq<T>, v: seq<T>)
    ensures Applies(Backtrack(u, v), u, v) && Cost(Backtrack(u, v)) == Distance(u, v)
    decreases |u| + |v|
  {
    if u == [] && v == [] {
    } else if u != [] && v != [] && Last(u) == Last(v) {
      BacktrackMeetsDistance(Init(u), Init(v));
      AppliesAppend(Backtrack(Init(u), Init(v)), Same, u, v);
    } else if u != [] && v != [] && Distance(u, v) == Distance(Init(u), Init(v)) + 1 {
      BacktrackMeetsDistance(Init(u), Init(v));
      AppliesAppend(Backtrack(Init(u), Init(v)), Swap, u, v);
    } else if v != [] && (u == [] || Distance(u, Init(v)) <= Distance(Init(u), v)) {
      BacktrackMeetsDistance(u, Init(v));
      AppliesAppend(Backtrack(u, Init(v)), Add, u, v);
    } else {
      BacktrackMeetsDistance(Init(u), v);
      AppliesAppend(Backtrack(Init(u), v), Drop, u, v);
    }
  }

  /** The edit string has exactly the Levenshtein cost. */
  lemma {:induction false} BacktrackCheapest<T>(u: seq<T>, v: seq<T>)
    ensures Cheapest(Backtrack(u, v), u, v)
  {
    BacktrackMeetsDistance(u, v);
    forall other: seq<Edit> | Applies(other, u, v) ensures Cost(Backtrack(u, v)) <= Cost(other) {
      DistanceIsLowerBound(other, u, v);
    }
  }

  // ---------------------------------------------------------------------
  // The matrix
  // ---------------------------------------------------------------------

  ghost predicate Filled<T>(dp: array2<nat>, u: seq<T>, v: seq<T>, i: nat, j: nat)
    requires dp.Length0 == |u| + 1 && dp.Length1 == |v| + 1
    reads dp
  {
    forall r: nat, c: nat :: r <= |u| && c <= |v| && (r < i || (r == i && c < j) || c == 0 || r == 0) ==>
      dp[r, c] == Distance(u[..r], v[..c])
  }

  method FillBorder<T(==)>(u: seq<T>, v: seq<T>) returns (dp: array2<nat>)
    ensures fresh(dp) && dp.Length0 == |u| + 1 && dp.Length1 == |v| + 1
    ensures Filled(dp, u, v, 1, 0)
  {
    var n, m := |u|, |v|;
    dp := new nat[n + 1, m + 1]((i, j) => 0);
    for i := 0 to n + 1
      invariant forall r :: 0 <= r < i ==> dp[r, 0] == r
    {
      dp[i, 0] := i;
    }
    for j := 0 to m + 1
      invariant forall r :: 0 <= r <= n && (r > 0 || j == 0) ==> dp[r, 0] == r
      invariant forall c :: 0 <= c < j ==> dp[0, c] == c
    {
      dp[0, j] := j;
    }
  }

  method FillCell<T(==)>(dp: array2<nat>, u: seq<T>, v: seq<T>, i: nat, j: nat)
    requires dp.Length0 == |u| + 1 && dp.Length1 == |v| + 1
    requires 1 <= i <= |u| && 1 <= j <= |v|
    requires Filled(dp, u, v, i, j)
    modifies dp
    ensures Filled(dp, u, v, i, j + 1)
  {
    TakeInit(u, i);
    TakeInit(v, j);
    var d;
    if u[i - 1] == v[j - 1] {
      d := dp[i - 1, j - 1];
    } else {
      d := Min3(dp[i - 1, j - 1] + 1, dp[i - 1, j] + 1, dp[i, j - 1] + 1);
    }
    assert d == Distance(u[..i], v[..j]);
    dp[i, j] := d;
  }

  method FillMatrix<T(==)>(u: seq<T>, v: seq<T>) returns (dp: array2<nat>)
    ensures fresh(dp) && dp.Length0 == |u| + 1 && dp.Length1 == |v| + 1
    ensures Filled(dp, u, v, |u| + 1, 0)
  {
    dp := FillBorder(u, v);
    for i := 1 to |u| + 1
      invariant Filled(dp, u, v, i, 0)
    {
      for j := 1 to |v| + 1
        invariant Filled(dp, u, v, i, j)
      {
        FillCell(dp, u, v, i, j);
      }
    }
  }

  /** The backtracking loop: the edit string, last operation first. */
  method WalkBack<T(==)>(u: seq<T>, v: seq<T>, dp: array2<nat>) returns (ops: seq<Edit>)
    requires dp.Length0 == |u| + 1 && dp.Length1 == |v| + 1
    requires Filled(dp, u, v, |u| + 1, 0)
    ensures Reversed(ops) == Backtrack(u, v)
  {
    ops := [];
    var i, j := |u|, |v|;
    assert u[..i] == u && v[..j] == v;
    while i > 0 || j > 0
      invariant 0 <= i <= |u| && 0 <= j <= |v|
      invariant Backtrack(u, v) == Backtrack(u[..i], v[..j]) + Reversed(ops)
      decreases i + j
    {
      ghost var rest, was := Backtrack(u[..i], v[..j]), ops;
      if i > 0 { TakeInit(u, i); }
      if j > 0 { TakeInit(v, j); }
      if i > 0 && j > 0 && u[i - 1] == v[j - 1] {
        ops := ops + [Same];
        i, j := i - 1, j - 1;
      } else if i > 0 && j > 0 && dp[i, j] == dp[i - 1, j - 1] + 1 {
        ops := ops + [Swap];
        i, j := i - 1, j - 1;
      } else if j > 0 && (i == 0 || dp[i, j - 1] <= dp[i - 1, j]) {
        ops := ops + [Add];
        j := j - 1;
      } else {
        ops := ops + [Drop];
        i := i - 1;
      }
      assert rest == Backtrack(u[..i], v[..j]) + [Last(ops)];
      assert Init(ops) == was;
      AppendAssociates(Backtrack(u[..i], v[..j]), Last(ops), Reversed(was));
    }
  }

  /** The edit string before smoothing. */
  method EditString<T(==)>(u: seq<T>, v: seq<T>) returns (ops: seq<Edit>)
    ensures ops == Backtrack(u, v) && Cheapest(ops, u, v)
  {
    var dp := FillMatrix(u, v);
    ops := WalkBack(u, v, dp);
    ops := Reverse(ops);
    BacktrackCheapest(u, v);
  }

  // ---------------------------------------------------------------------
  // Smoothing
  // ---------------------------------------------------------------------

  /** An unchanged piece with a change on either side. */
  predicate Isolated(ops: seq<Edit>, i: nat) {
    0 < i < |ops| - 1 && ops[i] == Same && ops[i - 1] != Same && ops[i + 1] != Same
  }

  /** Every isolated 's' becomes 'x', all at once. */
  function Smoothed(ops: seq<Edit>): (r: seq<Edit>)
    ensures |r| == |ops|
    ensures forall i :: 0 <= i < |ops| ==> r[i] == if Isolated(ops, i) then Swap else ops[i]
  {
    seq(|ops|, i requires 0 <= i < |ops| => if Isolated(ops, i) then Swap else ops[i])
  }

  /** The loop rewrites while it scans, and still agrees with the simultaneous
      rewrite: turning one 's' into 'x' never isolates its neighbour. */
  method Smooth(ops: seq<Edit>) returns (result: seq<Edit>)
    ensures result == Smoothed(ops)
  {
    result := ops;
    for i := 0 to |ops|
      invariant |result| == |ops|
      invariant forall k :: 0 <= k < i ==> result[k] == Smoothed(ops)[k]
      invariant forall k :: i <= k < |ops| ==> result[k] == ops[k]
    {
      if result[i] == Same {
        var prevChange := i > 0 && result[i - 1] != Same;
        var nextChange := i < |result| - 1 && result[i + 1] != Same;
        if prevChange && nextChange {
          result := result[i := Swap];
        }
      }
    }
  }

  /** `ops'` is `ops` with some 's' turned into 'x'. */
  ghost predicate Coarser(ops': seq<Edit>, ops: seq<Edit>) {
    |ops'| == |ops| &&
    forall i :: 0 <= i < |ops| ==> ops'[i] == ops[i] || (ops[i] == Same && ops'[i] == Swap)
  }

  lemma {:induction false} CoarserApplies<T>(ops': seq<Edit>, ops: seq<Edit>, u: seq<T>, v: seq<T>)
    requires Coarser(ops', ops) && Applies(ops, u, v)
    ensures Applies(ops', u, v)
    decreases |ops|
  {
    if ops == [] {
    } else {
      assert Coarser(Init(ops'), Init(ops));
      match Last(ops)
      case Same => CoarserApplies(Init(ops'), Init(ops), Init(u), Init(v));
      case Swap => CoarserApplies(Init(ops'), Init(ops), Init(u), Init(v));
      case Drop => CoarserApplies(Init(ops'), Init(ops), Init(u), v);
      case Add => CoarserApplies(Init(ops'), Init(ops), u, Init(v));
    }
  }

  /** Smoothing keeps the edit string applicable, and leaves no unchanged piece
      squeezed between two changes. */
  lemma {:induction false} SmoothedApplies<T>(ops: seq<Edit>, u: seq<T>, v: seq<T>)
    requires Applies(ops, u, v)
    ensures Applies(Smoothed(ops), u, v)
    ensures forall i :: 0 <= i < |ops| ==> !Isolated(Smoothed(ops), i)
  {
    CoarserApplies(Smoothed(ops), ops, u, v);
  }

  /** The edit string a level renders. */
  function Script<T(==)>(u: seq<T>, v: seq<T>, smooth: bool): (ops: seq<Edit>) {
    if smooth then Smoothed(Backtrack(u, v)) else Backtrack(u, v)
  }

  lemma ScriptApplies<T>(u: seq<T>, v: seq<T>, smooth: bool)
    ensures Applies(Script(u, v, smooth), u, v)
  {
    BacktrackMeetsDistance(u, v);
    SmoothedApplies(Backtrack(u, v), u, v);
  }
}
