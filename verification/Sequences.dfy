/** Facts about sequences that several components share. */
module Sequences {

  function Init<T>(s: seq<T>): (r: seq<T>)
    requires s != []
  {
    s[..|s| - 1]
  }

  function Last<T>(s: seq<T>): (r: T)
    requires s != []
  {
    s[|s| - 1]
  }

  lemma InitLast<T>(s: seq<T>)
    requires s != []
    ensures s == Init(s) + [Last(s)]
  {
  }

  lemma HeadOfConcat<T>(p: seq<T>, a: seq<T>)
    requires p != []
    ensures p + a == [p[0]] + (p[1..] + a)
  {
  }

  lemma InitOfConcat<T>(a: seq<T>, c: seq<T>)
    requires c != []
    ensures Init(a + c) == a + Init(c) && Last(a + c) == Last(c)
  {
  }

  lemma TakeInit<T>(s: seq<T>, i: nat)
    requires 0 < i <= |s|
    ensures s[..i] != [] && Init(s[..i]) == s[..i - 1] && Last(s[..i]) == s[i - 1]
  {
  }

  /** The elements that `keep` accepts, in their order. */
  function Filter<T>(s: seq<T>, keep: T -> bool): (r: seq<T>) {
    if s == [] then []
    else if keep(Last(s)) then Filter(Init(s), keep) + [Last(s)]
    else Filter(Init(s), keep)
  }

  lemma {:induction false} FilterConcat<T>(a: seq<T>, b: seq<T>, keep: T -> bool)
    ensures Filter(a + b, keep) == Filter(a, keep) + Filter(b, keep)
    decreases |b|
  {
    if b == [] {
      assert a + b == a;
    } else {
      InitOfConcat(a, b);
      FilterConcat(a, Init(b), keep);
    }
  }

  function Reversed<T>(s: seq<T>): (r: seq<T>)
    ensures |r| == |s| && forall k :: 0 <= k < |s| ==> r[k] == s[|s| - 1 - k]
  {
    if s == [] then [] else [Last(s)] + Reversed(Init(s))
  }

  method Reverse<T>(input: seq<T>) returns (ops: seq<T>)
    ensures ops == Reversed(input)
  {
    ops := input;
    var l, r := 0, |ops| - 1;
    while l < r
      invariant |ops| == |input| && 0 <= l <= r + 1 && l + r == |ops| - 1
      invariant forall k :: l <= k <= r ==> ops[k] == input[k]
      invariant forall k :: 0 <= k < l ==> ops[k] == input[|input| - 1 - k]
      invariant forall k :: r < k < |ops| ==> ops[k] == input[|input| - 1 - k]
    {
      assert r == |input| - 1 - l;
      ops := ops[l := ops[r]][r := ops[l]];
      l, r := l + 1, r - 1;
    }
  }

  lemma EmptyEnds<T>(s: seq<T>)
    ensures [] + s == s && s + [] == s
  {
  }

  lemma AppendAssociates<T>(s: seq<T>, x: T, t: seq<T>)
    ensures (s + [x]) + t == s + ([x] + t)
  {
  }

  /** The last `k` elements agree. */
  ghost predicate SameBack<T>(a: seq<T>, b: seq<T>, k: nat) {
    k <= |a| && k <= |b| && forall i :: |a| - k <= i < |a| ==> a[i] == b[i - |a| + |b|]
  }

  lemma BackIsSlice<T>(a: seq<T>, b: seq<T>, k: nat)
    requires SameBack(a, b, k)
    ensures a[|a| - k..] == b[|b| - k..]
  {
    var s, t := a[|a| - k..], b[|b| - k..];
    forall j | 0 <= j < k ensures s[j] == t[j] {
      assert s[j] == a[|a| - k + j];
    }
  }

  /** A slice of `s + t` is a slice of each. */
  lemma SliceOfConcat<T>(s: seq<T>, t: seq<T>, a: nat, b: nat, c: nat, d: nat)
    requires a <= b <= |s| && c <= d <= |t| && (c > 0 ==> a == |s|) && (d > 0 ==> b == |s|)
    ensures a + c <= b + d <= |s + t| && (s + t)[a + c..b + d] == s[a..b] + t[c..d]
  {
    if d == 0 {
      assert t[c..d] == [];
      assert (s + t)[a..b] == s[a..b];
    } else if c == 0 {
      assert (s + t)[a..|s| + d] == s[a..] + t[..d];
    } else {
      assert s[a..b] == [];
      assert (s + t)[|s| + c..|s| + d] == t[c..d];
    }
  }

  lemma SplitThree<T>(s: seq<T>, p: nat, q: nat)
    requires p <= q <= |s|
    ensures s == s[..p] + s[p..q] + s[q..]
  {
  }
}
