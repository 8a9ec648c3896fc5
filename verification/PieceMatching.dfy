/** The forward-only matching of `hashDiff`: an index of positions, a cursor and
    a mark per taken piece, against "the first equal piece after the last one
    taken". */
module PieceMatching {

  /** The first position of `p` at or after `from`, or -1. */
  function FirstFrom<T(==)>(v: seq<T>, p: T, from: nat): (i: int)
    requires from <= |v|
    ensures i == -1 || (from <= i < |v| && v[i] == p)
    ensures forall k :: from <= k < |v| && v[k] == p ==> 0 <= i <= k
    decreases |v| - from
  {
    if from == |v| then -1 else if v[from] == p then from else FirstFrom(v, p, from + 1)
  }

  /** `ix` lists exactly the positions of `p` among the first `n` pieces, in
      ascending order. */
  ghost predicate Positions<T>(ix: seq<nat>, v: seq<T>, p: T, n: nat)
    requires n <= |v|
  {
    && (forall k :: 0 <= k < |ix| ==> ix[k] < n && v[ix[k]] == p)
    && (forall k, l :: 0 <= k < l < |ix| ==> ix[k] < ix[l])
    && (forall i :: 0 <= i < n && v[i] == p ==> i in ix)
  }

  function Lookup<T(==)>(m: map<T, seq<nat>>, p: T): (ix: seq<nat>) {
    if p in m then m[p] else []
  }

  /** The index lists the positions of every piece; a piece it does not hold
      has none. */
  ghost predicate Indexes<T(!new)>(m: map<T, seq<nat>>, v: seq<T>, n: nat)
    requires n <= |v|
  {
    forall p :: Positions(Lookup(m, p), v, p, n)
  }

  lemma PositionsGrow<T>(ix: seq<nat>, v: seq<T>, i: nat)
    requires i < |v| && Positions(ix, v, v[i], i)
    ensures Positions(ix + [i], v, v[i], i + 1)
  {
    var more := ix + [i];
    forall j | 0 <= j < i + 1 && v[j] == v[i] ensures j in more {
      if j == i {
        assert more[|ix|] == i;
      } else {
        var k :| 0 <= k < |ix| && ix[k] == j;
        assert more[k] == j;
      }
    }
  }

  lemma PositionsStay<T>(ix: seq<nat>, v: seq<T>, p: T, i: nat)
    requires i < |v| && p != v[i] && Positions(ix, v, p, i)
    ensures Positions(ix, v, p, i + 1)
  {
  }

  function Noted<T(==)>(m: map<T, seq<nat>>, v: seq<T>, i: nat): (r: map<T, seq<nat>>)
    requires i < |v|
  {
    m[v[i] := Lookup(m, v[i]) + [i]]
  }

  lemma IndexesGrow<T(!new)>(m: map<T, seq<nat>>, v: seq<T>, i: nat)
    requires i < |v| && Indexes(m, v, i)
    ensures Indexes(Noted(m, v, i), v, i + 1)
  {
    var p, m' := v[i], Noted(m, v, i);
    forall q ensures Positions(Lookup(m', q), v, q, i + 1) {
      assert Positions(Lookup(m, q), v, q, i);
      if q == p {
        PositionsGrow(Lookup(m, p), v, i);
      } else {
        PositionsStay(Lookup(m, q), v, q, i);
      }
    }
  }

  method IndexPieces<T(==,!new)>(v: seq<T>) returns (vIndex: map<T, seq<nat>>)
    ensures Indexes(vIndex, v, |v|)
  {
    vIndex := map[];
    for i := 0 to |v|
      invariant Indexes(vIndex, v, i)
    {
      IndexesGrow(vIndex, v, i);
      vIndex := Noted(vIndex, v, i);
    }
  }

  /** The inner scan over the positions of one piece. */
  method FindMatch<T(==)>(ix: seq<nat>, v: seq<T>, p: T, cursor: nat, vUsed: seq<bool>) returns (mi: int)
    requires cursor <= |v| == |vUsed| && Positions(ix, v, p, |v|)
    requires forall k :: cursor <= k < |v| ==> !vUsed[k]
    ensures mi == FirstFrom(v, p, cursor)
  {
    ghost var first := FirstFrom(v, p, cursor);
    for k := 0 to |ix|
      invariant forall l :: 0 <= l < k ==> ix[l] < cursor
    {
      var vi := ix[k];
      if vi >= cursor && !vUsed[vi] {
        assert first in ix;
        return vi;
      }
    }
    assert first >= 0 ==> first in ix;
    return -1;
  }

  /** Each match is the first possible one from the cursor it was found at, and
      the cursor moves past it. */
  ghost predicate Forward<T>(matches: seq<int>, cursors: seq<nat>, u: seq<T>, v: seq<T>) {
    && |matches| <= |u| && |cursors| == |matches| + 1 && cursors[0] == 0
    && (forall i :: 0 <= i < |cursors| ==> cursors[i] <= |v|)
    && (forall i :: 0 <= i < |matches| ==> matches[i] == FirstFrom(v, u[i], cursors[i]))
    && (forall i :: 0 <= i < |matches| ==> cursors[i + 1] == Advance(cursors[i], matches[i]))
  }

  /** `used` marks nothing the cursor skipped and nothing still ahead. */
  ghost predicate Marked(matches: seq<int>, used: seq<bool>, cursors: seq<nat>) {
    && |cursors| == |matches| + 1
    && (forall i :: 0 <= i < |matches| ==> matches[i] < cursors[|matches|] <= |used|)
    && (forall i, k :: 0 <= i < |matches| && cursors[i] <= k < matches[i] ==> !used[k])
    && (forall k :: cursors[|matches|] <= k < |used| ==> !used[k])
  }

  ghost predicate Matched<T>(matches: seq<int>, used: seq<bool>, cursors: seq<nat>, u: seq<T>, v: seq<T>) {
    |used| == |v| && Forward(matches, cursors, u, v) && Marked(matches, used, cursors)
  }

  /** The matching loop. */
  method MatchPieces<T(==,!new)>(u: seq<T>, v: seq<T>)
    returns (matches: seq<int>, vUsed: seq<bool>, ghost cursors: seq<nat>)
    ensures |matches| == |u| && Matched(matches, vUsed, cursors, u, v)
  {
    var vIndex := IndexPieces(v);
    vUsed := seq(|v|, _ => false);
    matches := [];
    cursors := [0];
    var cursor := 0;
    for i := 0 to |u|
      invariant |matches| == i && Matched(matches, vUsed, cursors, u, v) && cursor == cursors[i]
    {
      assert Positions(Lookup(vIndex, u[i]), v, u[i], |v|);
      var mi := FindMatch(Lookup(vIndex, u[i]), v, u[i], cursor, vUsed);
      MatchedGrows(matches, vUsed, cursors, u, v, mi);
      matches := matches + [mi];
      vUsed, cursor := Take(vUsed, mi), Advance(cursor, mi);
      cursors := cursors + [cursor];
    }
  }

  /** The marks after taking position `mi`, if there was one. */
  function Take(used: seq<bool>, mi: int): (r: seq<bool>)
    requires mi < |used|
  {
    if mi >= 0 then used[mi := true] else used
  }

  function Advance(cursor: nat, mi: int): (c: nat) {
    if mi >= 0 then mi + 1 else cursor
  }

  lemma ForwardGrows<T>(matches: seq<int>, cursors: seq<nat>, u: seq<T>, v: seq<T>, mi: int)
    requires |matches| < |u| && Forward(matches, cursors, u, v)
    requires mi == FirstFrom(v, u[|matches|], cursors[|matches|])
    ensures Forward(matches + [mi], cursors + [Advance(cursors[|matches|], mi)], u, v)
  {
  }

  lemma MarkedGrows(matches: seq<int>, used: seq<bool>, cursors: seq<nat>, mi: int)
    requires Marked(matches, used, cursors) && cursors[|matches|] <= |used|
    requires mi == -1 || cursors[|matches|] <= mi < |used|
    ensures Marked(matches + [mi], Take(used, mi), cursors + [Advance(cursors[|matches|], mi)])
  {
  }

  lemma MatchedGrows<T>(matches: seq<int>, used: seq<bool>, cursors: seq<nat>, u: seq<T>, v: seq<T>, mi: int)
    requires |matches| < |u| && Matched(matches, used, cursors, u, v)
    requires mi == FirstFrom(v, u[|matches|], cursors[|matches|])
    ensures Matched(matches + [mi], Take(used, mi), cursors + [Advance(cursors[|matches|], mi)], u, v)
  {
    ForwardGrows(matches, cursors, u, v, mi);
    MarkedGrows(matches, used, cursors, mi);
  }
}
