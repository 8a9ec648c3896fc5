/** What the alignment of one level keeps: the pieces its matching or its edit
    string keeps, character by character. */
module ProseKept {
  import opened Sequences
  import opened PieceMatching
  import opened ProseSegments
  import opened ProseLinks
  import opened ProseEdit
  import opened ProseDiff
  import opened ProseBuild

  /** The `len` characters from `i` of the old text and `j` of the new one. */
  ghost predicate Kept(parts: seq<Part>, i: int, j: int, len: nat) {
    forall x, y :: i <= x < i + len && y - x == j - i ==> Linked(parts, x, y)
  }

  /** Old piece `ui` and new piece `vi` are the same and kept; the pieces start at `a`
      and `b` of the two texts. */
  ghost predicate KeepsPiece(parts: seq<Part>, us: seq<string>, vs: seq<string>, ui: nat, vi: nat, a: int, b: int) {
    && ui < |us| && vi < |vs| && us[ui] == vs[vi]
    && Kept(parts, a + |Join(us[..ui])|, b + |Join(vs[..vi])|, |us[ui]|)
  }

  lemma KeptConcat(p: seq<Part>, q: seq<Part>, i: int, j: int, len: nat)
    requires Kept(p, i, j, len)
    ensures Kept(p + q, i, j, len)
  {
    forall x, y | i <= x < i + len && y - x == j - i ensures Linked(p + q, x, y) {
      LinkedConcat(p, q, x, y);
    }
  }

  lemma KeptBehind(p: seq<Part>, q: seq<Part>, o: string, n: string, i: int, j: int, len: nat)
    requires Rebuilds(p, o, n) && Kept(q, i, j, len)
    ensures Kept(p + q, |o| + i, |n| + j, len)
  {
    forall x, y | |o| + i <= x < |o| + i + len && y - x == (|n| + j) - (|o| + i) ensures Linked(p + q, x, y) {
      LinkedBehind(p, q, o, n, x - |o|, y - |n|);
    }
  }

  lemma KeptEqual(t: string, rest: seq<Part>)
    ensures Kept([Part(Equal, t)] + rest, 0, 0, |t|)
  {
    forall x, y | 0 <= x < |t| && y == x ensures Linked([Part(Equal, t)] + rest, x, y) {
      LinkedCons(Part(Equal, t), rest, x, y);
    }
  }

  lemma KeptAlone(t: string)
    ensures Kept([Part(Equal, t)], 0, 0, |t|)
  {
    KeptEqual(t, []);
    assert [Part(Equal, t)] + [] == [Part(Equal, t)];
  }

  // ---------------------------------------------------------------------
  // Edit strings
  // ---------------------------------------------------------------------

  /** The operations before the last one, and what they work on. */
  lemma AppliesInit(ops: seq<Edit>, u: seq<string>, v: seq<string>)
    requires ops != [] && Applies(ops, u, v)
    ensures Last(ops) != Add ==> u != []
    ensures Last(ops) != Drop ==> v != []
    ensures Applies(Init(ops), if Last(ops) == Add then u else Init(u), if Last(ops) == Drop then v else Init(v))
  {
  }

  lemma EditPartsLast(ops: seq<Edit>, u: seq<string>, v: seq<string>, u': seq<string>, v': seq<string>)
    returns (last: seq<Part>)
    requires ops != [] && Applies(ops, u, v)
    requires u' == (if Last(ops) == Add then u else Init(u)) && v' == if Last(ops) == Drop then v else Init(v)
    requires Applies(Init(ops), u', v')
    ensures EditParts(ops, u, v) == EditParts(Init(ops), u', v') + last
    ensures Last(ops) == Same ==> last == [Part(Equal, Last(u))] && Last(u) == Last(v)
  {
    match Last(ops)
    case Same => last := [Part(Equal, Last(u))];
    case Drop => last := [Part(Removed, Last(u))];
    case Add => last := [Part(Added, Last(v))];
    case Swap => last := [Part(Removed, Last(u)), Part(Added, Last(v))];
  }

  /** A piece that the edit string keeps is kept, character by character. */
  lemma {:induction false} EditPartsKeep(ops: seq<Edit>, u: seq<string>, v: seq<string>, k: nat)
    requires Applies(ops, u, v) && k < |ops| && ops[k] == Same
    ensures KeepsPiece(EditParts(ops, u, v), u, v, UsedOld(ops[..k]), UsedNew(ops[..k]), 0, 0)
    decreases |ops|
  {
    AppliesInit(ops, u, v);
    var u', v' := if Last(ops) == Add then u else Init(u), if Last(ops) == Drop then v else Init(v);
    var last := EditPartsLast(ops, u, v, u', v');
    var before := EditParts(Init(ops), u', v');
    if k == |ops| - 1 {
      assert ops[..k] == Init(ops);
      UsedAll(Init(ops), u', v');
      EditPartsText(Init(ops), u', v');
      KeptAlone(Last(u));
      KeptBehind(before, last, Join(u'), Join(v'), 0, 0, |Last(u)|);
    } else {
      assert Init(ops)[k] == Same && Init(ops)[..k] == ops[..k];
      EditPartsKeep(Init(ops), u', v', k);
      KeepsPieceOf(before, last, u, v, u', v', UsedOld(ops[..k]), UsedNew(ops[..k]));
    }
  }

  lemma KeepsPieceOf(before: seq<Part>, last: seq<Part>, u: seq<string>, v: seq<string>, u': seq<string>,
                     v': seq<string>, ui: nat, vi: nat)
    requires u' <= u && v' <= v && KeepsPiece(before, u', v', ui, vi, 0, 0)
    ensures KeepsPiece(before + last, u, v, ui, vi, 0, 0)
  {
    assert u'[..ui] == u[..ui] && v'[..vi] == v[..vi];
    KeptConcat(before, last, |Join(u[..ui])|, |Join(v[..vi])|, |u[ui]|);
  }

  /** Every piece that an edit string keeps, but, where it is smoothed, for those
      between two changes. */
  ghost predicate KeepsScript(parts: seq<Part>, us: seq<string>, vs: seq<string>, ops: seq<Edit>, smooth: bool,
                              a: int, b: int)
  {
    forall k :: 0 <= k < |ops| && ops[k] == Same && !(smooth && Isolated(ops, k)) ==>
      KeepsPiece(parts, us, vs, UsedOld(ops[..k]), UsedNew(ops[..k]), a, b)
  }

  lemma {:induction false} SameUse(ops: seq<Edit>, ops': seq<Edit>)
    requires Coarser(ops', ops)
    ensures UsedOld(ops') == UsedOld(ops) && UsedNew(ops') == UsedNew(ops)
    decreases |ops|
  {
    if ops == [] {
    } else {
      SameUse(Init(ops), Init(ops'));
    }
  }

  /** A level that does not give up keeps what a cheapest edit string keeps. */
  lemma EditLevelKeeps(us: seq<string>, vs: seq<string>, level: nat) returns (ops: seq<Edit>)
    requires |us| <= 128 && |vs| <= 128
    ensures Cheapest(ops, us, vs) && KeepsScript(EditLevel(us, vs, level), us, vs, ops, level > SENTENCE, 0, 0)
  {
    ops := Backtrack(us, vs);
    BacktrackCheapest(us, vs);
    var script := Script(us, vs, level > SENTENCE);
    ScriptApplies(us, vs, level > SENTENCE);
    forall k | 0 <= k < |ops| && ops[k] == Same && !(level > SENTENCE && Isolated(ops, k))
      ensures KeepsPiece(EditLevel(us, vs, level), us, vs, UsedOld(ops[..k]), UsedNew(ops[..k]), 0, 0)
    {
      SameUse(ops[..k], script[..k]);
      EditPartsKeep(script, us, vs, k);
    }
  }

  // ---------------------------------------------------------------------
  // Paragraphs
  // ---------------------------------------------------------------------

  lemma JoinSlice(ps: seq<string>, i: nat, j: nat)
    requires i < j <= |ps|
    ensures Join(ps[i..j]) == ps[i] + Join(ps[i + 1..j])
  {
    assert ps[i..j] == [ps[i]] + ps[i + 1..j];
    JoinCons(ps[i], ps[i + 1..j]);
  }

  lemma JoinAcross(ps: seq<string>, i: nat, m: nat, j: nat)
    requires i <= m < j <= |ps|
    ensures Join(ps[i..j]) == Join(ps[i..m]) + (ps[m] + Join(ps[m + 1..j]))
  {
    assert ps[i..j] == ps[i..m] + ps[m..j];
    JoinConcat(ps[i..m], ps[m..j]);
    JoinSlice(ps, m, j);
  }

  lemma GapRebuilds(gap: seq<string>)
    ensures Rebuilds(AllOf(Added, gap), "", Join(gap))
  {
    AllOfText(Added, gap, Removed);
    AllOfText(Added, gap, Added);
  }

  /** The matched piece itself. */
  lemma AlignHere(u: seq<string>, v: seq<string>, ui: nat, cursor: nat, m: nat)
    requires ui < |u| && cursor <= m < |v| && m == FirstFrom(v, u[ui], cursor)
    ensures Kept(Align(u[ui..], v, cursor), 0, |Join(v[cursor..m])|, |u[ui]|)
  {
    AlignStep(u, v, ui, cursor);
    var rest := Align(u[ui + 1..], v, m + 1);
    KeptEqual(u[ui], rest);
    GapRebuilds(v[cursor..m]);
    KeptBehind(AllOf(Added, v[cursor..m]), [Part(Equal, u[ui])] + rest, "", Join(v[cursor..m]), 0, 0, |u[ui]|);
  }

  lemma OneRebuilds(p: Part)
    requires p.kind != Added
    ensures Rebuilds([p], p.text, if p.kind == Equal then p.text else "")
  {
    TextOne(p, Removed);
    TextOne(p, Added);
  }

  /** A piece further on, behind an unmatched or a matched one. */
  lemma AlignThere(u: seq<string>, v: seq<string>, k: nat, cursor: nat, mi: int, next: nat, i: int, j: int, len: nat)
    requires k < |u| && cursor <= |v| && mi == FirstFrom(v, u[k], cursor) && next == Advance(cursor, mi)
    requires Kept(Align(u[k + 1..], v, next), i, j, len)
    ensures Kept(Align(u[k..], v, cursor), |u[k]| + i, (if mi < 0 then 0 else |Join(v[cursor..mi])| + |u[k]|) + j, len)
  {
    AlignStep(u, v, k, cursor);
    var rest := Align(u[k + 1..], v, next);
    if mi < 0 {
      OneRebuilds(Part(Removed, u[k]));
      KeptBehind([Part(Removed, u[k])], rest, u[k], "", i, j, len);
    } else {
      OneRebuilds(Part(Equal, u[k]));
      KeptBehind([Part(Equal, u[k])], rest, u[k], u[k], i, j, len);
      GapRebuilds(v[cursor..mi]);
      KeptBehind(AllOf(Added, v[cursor..mi]), [Part(Equal, u[k])] + rest, "", Join(v[cursor..mi]),
                 |u[k]| + i, |u[k]| + j, len);
    }
  }

  lemma {:induction false} CursorsGrow(matches: seq<int>, cursors: seq<nat>, u: seq<string>, v: seq<string>, k: nat, l: nat)
    requires Forward(matches, cursors, u, v) && k <= l < |cursors|
    ensures cursors[k] <= cursors[l]
    decreases l - k
  {
    if k == l {
    } else {
      CursorsGrow(matches, cursors, u, v, k + 1, l);
    }
  }

  /** How far the match of a piece moves on in the new pieces. */
  lemma {:induction false} GapLength(v: seq<string>, piece: string, cursor: nat, mi: int, next: nat, vi: nat)
    requires cursor <= next <= vi < |v| && mi == FirstFrom(v, piece, cursor) && next == Advance(cursor, mi)
    ensures |Join(v[cursor..vi])| == (if mi < 0 then 0 else |Join(v[cursor..mi])| + |piece|) + |Join(v[next..vi])|
  {
    if mi >= 0 {
      JoinAcross(v, cursor, mi, vi);
    }
  }

  /** What is kept from the next piece on is kept from this one on. */
  lemma {:induction false} AlignKeepsBefore(u: seq<string>, v: seq<string>, k: nat, ui: nat, cursor: nat, mi: int,
                                            next: nat, vi: nat)
    requires k < ui < |u| && cursor <= next <= vi < |v| && mi == FirstFrom(v, u[k], cursor) && next == Advance(cursor, mi)
    requires Kept(Align(u[k + 1..], v, next), |Join(u[k + 1..ui])|, |Join(v[next..vi])|, |u[ui]|)
    ensures Kept(Align(u[k..], v, cursor), |Join(u[k..ui])|, |Join(v[cursor..vi])|, |u[ui]|)
  {
    JoinSlice(u, k, ui);
    GapLength(v, u[k], cursor, mi, next, vi);
    AlignThere(u, v, k, cursor, mi, next, |Join(u[k + 1..ui])|, |Join(v[next..vi])|, |u[ui]|);
  }

  lemma {:induction false} AlignKeepsFrom(u: seq<string>, v: seq<string>, matches: seq<int>, cursors: seq<nat>,
                                          k: nat, ui: nat)
    requires Forward(matches, cursors, u, v) && k <= ui < |matches| && matches[ui] >= 0
    ensures cursors[k] <= matches[ui] < |v|
    ensures Kept(Align(u[k..], v, cursors[k]), |Join(u[k..ui])|, |Join(v[cursors[k]..matches[ui]])|, |u[ui]|)
    decreases ui - k
  {
    CursorsGrow(matches, cursors, u, v, k, ui);
    if k == ui {
      AlignHere(u, v, ui, cursors[ui], matches[ui]);
      assert u[k..ui] == [];
    } else {
      AlignKeepsFrom(u, v, matches, cursors, k + 1, ui);
      AlignKeepsBefore(u, v, k, ui, cursors[k], matches[k], cursors[k + 1], matches[ui]);
    }
  }

  /** Every paragraph that finds an equal one, forward and first come first served,
      is kept. */
  ghost predicate KeepsMatches(parts: seq<Part>, us: seq<string>, vs: seq<string>, matches: seq<int>) {
    forall ui :: 0 <= ui < |matches| && matches[ui] >= 0 ==> KeepsPiece(parts, us, vs, ui, matches[ui], 0, 0)
  }

  lemma AlignKeeps(u: seq<string>, v: seq<string>, matches: seq<int>, cursors: seq<nat>)
    requires Forward(matches, cursors, u, v)
    ensures KeepsMatches(Align(u, v, 0), u, v, matches)
  {
    assert u[0..] == u;
    forall ui | 0 <= ui < |matches| && matches[ui] >= 0
      ensures KeepsPiece(Align(u, v, 0), u, v, ui, matches[ui], 0, 0)
    {
      AlignKeepsFrom(u, v, matches, cursors, 0, ui);
      assert u[0..ui] == u[..ui] && v[0..matches[ui]] == v[..matches[ui]];
    }
  }
}
