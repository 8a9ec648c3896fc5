/** The recursion of the prose engine: align at one level, normalise, and refine
    every changed block at the next level. */
module ProseBuild {
  import opened Sequences
  import opened ProseSegments
  import opened ProseEdit
  import opened ProseDiff

  // ---------------------------------------------------------------------
  // Rendering an edit string
  // ---------------------------------------------------------------------

  /** The segments an edit string stands for. */
  ghost function EditParts(ops: seq<Edit>, u: seq<string>, v: seq<string>): (parts: seq<Part>)
    requires Applies(ops, u, v)
    decreases |ops|
  {
    if ops == [] then []
    else match Last(ops)
      case Same => EditParts(Init(ops), Init(u), Init(v)) + [Part(Equal, Last(u))]
      case Drop => EditParts(Init(ops), Init(u), v) + [Part(Removed, Last(u))]
      case Add => EditParts(Init(ops), u, Init(v)) + [Part(Added, Last(v))]
      case Swap => EditParts(Init(ops), Init(u), Init(v)) + [Part(Removed, Last(u)), Part(Added, Last(v))]
  }

  lemma JoinLast(ps: seq<string>)
    requires ps != []
    ensures Join(ps) == Join(Init(ps)) + Last(ps)
  {
    InitLast(ps);
    JoinConcat(Init(ps), [Last(ps)]);
    JoinOne(Last(ps));
  }

  lemma TextAppend(parts: seq<Part>, p: Part, side: Kind)
    ensures Text(parts + [p], side)
            == if p.kind == Equal || p.kind == side then Text(parts, side) + p.text else Text(parts, side)
  {
    TextConcat(parts, [p], side);
    TextOne(p, side);
    assert Text(parts, side) + "" == Text(parts, side);
  }

  lemma TextAppendPair(parts: seq<Part>, r: string, a: string, side: Kind)
    requires side != Equal
    ensures Text(parts + [Part(Removed, r), Part(Added, a)], side)
            == Text(parts, side) + (if side == Removed then r else a)
  {
    var p, q := Part(Removed, r), Part(Added, a);
    assert parts + [p, q] == (parts + [p]) + [q];
    TextAppend(parts + [p], q, side);
    TextAppend(parts, p, side);
  }

  lemma {:induction false} EditPartsText(ops: seq<Edit>, u: seq<string>, v: seq<string>)
    requires Applies(ops, u, v)
    ensures Rebuilds(EditParts(ops, u, v), Join(u), Join(v))
    decreases |ops|
  {
    if ops == [] {
    } else {
      if u != [] { JoinLast(u); }
      if v != [] { JoinLast(v); }
      forall side | side != Equal
        ensures Text(EditParts(ops, u, v), side) == if side == Removed then Join(u) else Join(v)
      {
        match Last(ops)
        case Same =>
          EditPartsText(Init(ops), Init(u), Init(v));
          TextAppend(EditParts(Init(ops), Init(u), Init(v)), Part(Equal, Last(u)), side);
        case Drop =>
          EditPartsText(Init(ops), Init(u), v);
          TextAppend(EditParts(Init(ops), Init(u), v), Part(Removed, Last(u)), side);
        case Add =>
          EditPartsText(Init(ops), u, Init(v));
          TextAppend(EditParts(Init(ops), u, Init(v)), Part(Added, Last(v)), side);
        case Swap =>
          EditPartsText(Init(ops), Init(u), Init(v));
          TextAppendPair(EditParts(Init(ops), Init(u), Init(v)), Last(u), Last(v), side);
      }
    }
  }

  lemma {:induction false} EditPartsEquals(ops: seq<Edit>, u: seq<string>, v: seq<string>)
    requires Applies(ops, u, v) && Pieces(u)
    ensures EqualsNonEmpty(EditParts(ops, u, v))
    decreases |ops|
  {
    if ops == [] {
    } else {
      match Last(ops)
      case Same => EditPartsEquals(Init(ops), Init(u), Init(v));
      case Drop => EditPartsEquals(Init(ops), Init(u), v);
      case Add => EditPartsEquals(Init(ops), u, Init(v));
      case Swap => EditPartsEquals(Init(ops), Init(u), Init(v));
    }
  }

  ghost function UsedOld(ops: seq<Edit>): (n: nat) {
    if ops == [] then 0 else UsedOld(Init(ops)) + (if Last(ops) == Add then 0 else 1)
  }

  ghost function UsedNew(ops: seq<Edit>): (n: nat) {
    if ops == [] then 0 else UsedNew(Init(ops)) + (if Last(ops) == Drop then 0 else 1)
  }

  lemma {:induction false} UsedAll<T>(ops: seq<Edit>, u: seq<T>, v: seq<T>)
    requires Applies(ops, u, v)
    ensures UsedOld(ops) == |u| && UsedNew(ops) == |v|
    decreases |ops|
  {
    if ops == [] {
    } else {
      match Last(ops)
      case Same => UsedAll(Init(ops), Init(u), Init(v));
      case Drop => UsedAll(Init(ops), Init(u), v);
      case Add => UsedAll(Init(ops), u, Init(v));
      case Swap => UsedAll(Init(ops), Init(u), Init(v));
    }
  }

  /** Every prefix of an edit string turns a prefix of one side into a prefix of
      the other. */
  lemma {:induction false} AppliesPrefix<T>(ops: seq<Edit>, u: seq<T>, v: seq<T>, k: nat)
    requires Applies(ops, u, v) && k <= |ops|
    ensures var ui, vi := UsedOld(ops[..k]), UsedNew(ops[..k]);
            ui <= |u| && vi <= |v| && Applies(ops[..k], u[..ui], v[..vi])
    decreases |ops|
  {
    if k == |ops| {
      assert ops[..k] == ops;
      UsedAll(ops, u, v);
      assert u[..|u|] == u && v[..|v|] == v;
    } else {
      var u', v' := if Last(ops) == Add then u else Init(u), if Last(ops) == Drop then v else Init(v);
      AppliesPrefix(Init(ops), u', v', k);
      var ui, vi := UsedOld(ops[..k]), UsedNew(ops[..k]);
      assert Init(ops)[..k] == ops[..k];
      assert u'[..ui] == u[..ui] && v'[..vi] == v[..vi];
    }
  }

  /** Where one more operation moves the two cursors. */
  lemma NextCursor<T>(ops: seq<Edit>, u: seq<T>, v: seq<T>, k: nat)
    requires Applies(ops, u, v) && k < |ops|
    ensures var ui, vi := UsedOld(ops[..k]), UsedNew(ops[..k]);
            && ui <= |u| && vi <= |v| && Applies(ops[..k], u[..ui], v[..vi])
            && var ui', vi' := UsedOld(ops[..k + 1]), UsedNew(ops[..k + 1]);
            && ui' == (if ops[k] == Add then ui else ui + 1) && ui' <= |u|
            && vi' == (if ops[k] == Drop then vi else vi + 1) && vi' <= |v|
            && Applies(ops[..k + 1], u[..ui'], v[..vi'])
  {
    AppliesPrefix(ops, u, v, k);
    AppliesPrefix(ops, u, v, k + 1);
    TakeInit(ops, k + 1);
  }

  /** The segments of one operation. */
  function OpParts(op: Edit, u: seq<string>, v: seq<string>, ui: nat, vi: nat): (parts: seq<Part>)
    requires op != Add ==> ui < |u|
    requires op != Drop ==> vi < |v|
  {
    match op
    case Same => [Part(Equal, u[ui])]
    case Drop => [Part(Removed, u[ui])]
    case Add => [Part(Added, v[vi])]
    case Swap => [Part(Removed, u[ui]), Part(Added, v[vi])]
  }

  lemma NextParts(ops: seq<Edit>, u: seq<string>, v: seq<string>, k: nat, ui: nat, vi: nat, ui': nat, vi': nat)
    requires k < |ops| && ui <= ui' <= |u| && vi <= vi' <= |v|
    requires ui' == (if ops[k] == Add then ui else ui + 1)
    requires vi' == (if ops[k] == Drop then vi else vi + 1)
    requires Applies(ops[..k], u[..ui], v[..vi]) && Applies(ops[..k + 1], u[..ui'], v[..vi'])
    ensures EditParts(ops[..k + 1], u[..ui'], v[..vi'])
            == EditParts(ops[..k], u[..ui], v[..vi]) + OpParts(ops[k], u, v, ui, vi)
  {
    TakeInit(ops, k + 1);
    if ops[k] != Add { TakeInit(u, ui + 1); }
    if ops[k] != Drop { TakeInit(v, vi + 1); }
  }

  method RenderEdits(ops: seq<Edit>, u: seq<string>, v: seq<string>) returns (parts: seq<Part>)
    requires Applies(ops, u, v)
    ensures parts == EditParts(ops, u, v)
  {
    parts := [];
    var ui, vi := 0, 0;
    AppliesPrefix(ops, u, v, 0);
    for k := 0 to |ops|
      invariant ui == UsedOld(ops[..k]) <= |u| && vi == UsedNew(ops[..k]) <= |v|
      invariant Applies(ops[..k], u[..ui], v[..vi])
      invariant parts == EditParts(ops[..k], u[..ui], v[..vi])
    {
      NextCursor(ops, u, v, k);
      ghost var ui0, vi0 := ui, vi;
      match ops[k] {
        case Same =>
          parts := parts + [Part(Equal, u[ui])];
          ui, vi := ui + 1, vi + 1;
        case Drop =>
          parts := parts + [Part(Removed, u[ui])];
          ui := ui + 1;
        case Add =>
          parts := parts + [Part(Added, v[vi])];
          vi := vi + 1;
        case Swap =>
          parts := parts + [Part(Removed, u[ui]), Part(Added, v[vi])];
          ui, vi := ui + 1, vi + 1;
      }
      NextParts(ops, u, v, k, ui0, vi0, ui, vi);
    }
    UsedAll(ops, u, v);
    assert ops[..|ops|] == ops && u[..|u|] == u && v[..|v|] == v;
  }

  // ---------------------------------------------------------------------
  // One level
  // ---------------------------------------------------------------------

  predicate TooLarge(u: seq<string>, v: seq<string>) {
    |u| > MAX_EDIT_DISTANCE || |v| > MAX_EDIT_DISTANCE
  }

  ghost function EditLevel(u: seq<string>, v: seq<string>, level: nat): (parts: seq<Part>) {
    if TooLarge(u, v) then AllOf(Removed, u) + AllOf(Added, v)
    else
      ScriptApplies(u, v, level > SENTENCE);
      EditParts(Script(u, v, level > SENTENCE), u, v)
  }

  method EmitAll(kind: Kind, ps: seq<string>, parts: seq<Part>) returns (r: seq<Part>)
    ensures r == parts + AllOf(kind, ps)
  {
    r := parts;
    for i := 0 to |ps|
      invariant r == parts + AllOf(kind, ps[..i])
    {
      AllOfAppend(kind, ps[..i], ps[i]);
      assert ps[..i] + [ps[i]] == ps[..i + 1];
      ConcatAssociates(parts, AllOf(kind, ps[..i]), [Part(kind, ps[i])]);
      r := r + [Part(kind, ps[i])];
    }
    assert ps[..|ps|] == ps;
  }

  method EditDistanceDiff(u: seq<string>, v: seq<string>, level: nat) returns (parts: seq<Part>, tooLarge: bool)
    ensures parts == EditLevel(u, v, level) && tooLarge == TooLarge(u, v)
  {
    if |u| > MAX_EDIT_DISTANCE || |v| > MAX_EDIT_DISTANCE {
      parts := EmitAll(Removed, u, []);
      parts := EmitAll(Added, v, parts);
      assert [] + AllOf(Removed, u) == AllOf(Removed, u);
      return parts, true;
    }
    var ops := EditString(u, v);
    ScriptApplies(u, v, level > SENTENCE);
    if level > SENTENCE {
      ops := Smooth(ops);
    }
    parts := RenderEdits(ops, u, v);
    return parts, false;
  }

  lemma {:induction false} AllOfEquals(kind: Kind, ps: seq<string>)
    requires kind != Equal
    ensures EqualsNonEmpty(AllOf(kind, ps))
  {
    if ps == [] {
    } else {
      AllOfEquals(kind, ps[1..]);
    }
  }

  lemma EditLevelCorrect(u: seq<string>, v: seq<string>, level: nat)
    requires Pieces(u)
    ensures Rebuilds(EditLevel(u, v, level), Join(u), Join(v)) && EqualsNonEmpty(EditLevel(u, v, level))
  {
    if TooLarge(u, v) {
      forall side | side != Equal
        ensures Text(EditLevel(u, v, level), side) == if side == Removed then Join(u) else Join(v)
      {
        TextConcat(AllOf(Removed, u), AllOf(Added, v), side);
        AllOfText(Removed, u, side);
        AllOfText(Added, v, side);
        EmptyEnds(Join(v));
        assert Join(u) + "" == Join(u);
      }
      AllOfEquals(Removed, u);
      AllOfEquals(Added, v);
    } else {
      ScriptApplies(u, v, level > SENTENCE);
      EditPartsText(Script(u, v, level > SENTENCE), u, v);
      EditPartsEquals(Script(u, v, level > SENTENCE), u, v);
    }
  }

  /** The alignment of one level. */
  ghost function AlignLevel(u: string, v: string, level: nat): (parts: seq<Part>) {
    var us, vs := SplitCorpus(u, level), SplitCorpus(v, level);
    if level == PARAGRAPH then Align(us, vs, 0) else EditLevel(us, vs, level)
  }

  /** Whether that alignment gave up. */
  ghost predicate GaveUp(u: string, v: string, level: nat) {
    level != PARAGRAPH && TooLarge(SplitCorpus(u, level), SplitCorpus(v, level))
  }

  lemma AlignLevelCorrect(u: string, v: string, level: nat)
    ensures Rebuilds(AlignLevel(u, v, level), u, v) && EqualsNonEmpty(AlignLevel(u, v, level))
  {
    var us, vs := SplitCorpus(u, level), SplitCorpus(v, level);
    SplitLossless(u, level);
    SplitLossless(v, level);
    if level == PARAGRAPH {
      AlignOld(us, vs, 0);
      AlignNew(us, vs, 0);
      assert vs[0..] == vs;
      AlignEqualsNonEmpty(us, vs, 0);
    } else {
      EditLevelCorrect(us, vs, level);
    }
  }

  // ---------------------------------------------------------------------
  // The recursion
  // ---------------------------------------------------------------------

  ghost function Build(u: string, v: string, level: nat): (parts: seq<Part>)
    requires level <= CHARACTER
    decreases CHARACTER - level, 2
  {
    var diff := Reorder(AlignLevel(u, v, level));
    if level == CHARACTER then diff
    else Reorder(Expand(diff, "", "", Refiner(level, GaveUp(u, v, level))))
  }

  /** The list with every changed block refined; `o` and `n` are the block being
      collected. */
  ghost function Expand(diff: seq<Part>, o: string, n: string, refine: (string, string) -> seq<Part>):
    (parts: seq<Part>)
    decreases |diff|
  {
    if diff == [] then refine(o, n)
    else match diff[0].kind
      case Removed => Expand(diff[1..], o + diff[0].text, n, refine)
      case Added => Expand(diff[1..], o, n + diff[0].text, refine)
      case Equal => refine(o, n) + ([diff[0]] + Expand(diff[1..], "", "", refine))
  }

  /** What happens to the changed blocks of a level. */
  ghost function Refiner(level: nat, gaveUp: bool): (refine: (string, string) -> seq<Part>)
    requires level < CHARACTER
    decreases CHARACTER - level, 1
  {
    (o, n) => Refine(o, n, level, gaveUp)
  }

  /** One changed block. */
  ghost function Refine(o: string, n: string, level: nat, gaveUp: bool): (parts: seq<Part>)
    requires level < CHARACTER
    decreases CHARACTER - level, 0
  {
    if o == "" && n == "" then []
    else if o == "" then [Part(Added, n)]
    else if n == "" then [Part(Removed, o)]
    else if gaveUp then [Part(Removed, o), Part(Added, n)]
    else Build(o, n, level + 1)
  }

  /** Refinement loses nothing of a block. */
  ghost predicate Lossless(refine: (string, string) -> seq<Part>) {
    forall o, n {:trigger Rebuilds(refine(o, n), o, n)} ::
      Rebuilds(refine(o, n), o, n) && EqualsNonEmpty(refine(o, n))
  }

  lemma {:induction false} BuildCorrect(u: string, v: string, level: nat)
    requires level <= CHARACTER
    ensures Rebuilds(Build(u, v, level), u, v) && Normal(Build(u, v, level)) && EqualsNonEmpty(Build(u, v, level))
    decreases CHARACTER - level, 2
  {
    var aligned := AlignLevel(u, v, level);
    AlignLevelCorrect(u, v, level);
    ReorderCorrect(aligned, u, v);
    ReorderSettles(aligned);
    if level < CHARACTER {
      RefinerLossless(level, GaveUp(u, v, level));
      ExpandedCorrect(aligned, u, v, Refiner(level, GaveUp(u, v, level)));
    }
  }

  lemma ExpandedCorrect(aligned: seq<Part>, u: string, v: string, refine: (string, string) -> seq<Part>)
    requires Lossless(refine) && Rebuilds(Reorder(aligned), u, v) && EqualsNonEmpty(Reorder(aligned))
    ensures var parts := Reorder(Expand(Reorder(aligned), "", "", refine));
            Rebuilds(parts, u, v) && Normal(parts) && EqualsNonEmpty(parts)
  {
    var expanded := Expand(Reorder(aligned), "", "", refine);
    ExpandCorrect(Reorder(aligned), "", "", refine);
    EmptyEnds(u);
    EmptyEnds(v);
    ReorderCorrect(expanded, u, v);
    ReorderSettles(expanded);
  }

  lemma {:induction false} ExpandCorrect(diff: seq<Part>, o: string, n: string, refine: (string, string) -> seq<Part>)
    requires Lossless(refine) && EqualsNonEmpty(diff)
    ensures Rebuilds(Expand(diff, o, n, refine), o + Text(diff, Removed), n + Text(diff, Added))
    ensures EqualsNonEmpty(Expand(diff, o, n, refine))
    decreases |diff|
  {
    if diff == [] {
      assert Rebuilds(refine(o, n), o, n);
      assert o + "" == o && n + "" == n;
    } else {
      var p, rest := diff[0], diff[1..];
      match p.kind
      case Removed =>
        ExpandCorrect(rest, o + p.text, n, refine);
        ConcatAssociates(o, p.text, Text(rest, Removed));
        EmptyEnds(Text(rest, Added));
      case Added =>
        ExpandCorrect(rest, o, n + p.text, refine);
        ConcatAssociates(n, p.text, Text(rest, Added));
        EmptyEnds(Text(rest, Removed));
      case Equal =>
        ExpandCorrect(rest, "", "", refine);
        assert Rebuilds(refine(o, n), o, n);
        ExpandEqual(refine(o, n), p, Expand(rest, "", "", refine), o, n, Text(rest, Removed), Text(rest, Added));
        EmptyEnds(Text(rest, Removed));
        EmptyEnds(Text(rest, Added));
    }
  }

  lemma ExpandEqual(a: seq<Part>, p: Part, b: seq<Part>, o: string, n: string, o': string, n': string)
    requires p.kind == Equal && p.text != ""
    requires Rebuilds(a, o, n) && Rebuilds(b, o', n') && EqualsNonEmpty(a) && EqualsNonEmpty(b)
    ensures Rebuilds(a + ([p] + b), o + (p.text + o'), n + (p.text + n'))
    ensures EqualsNonEmpty(a + ([p] + b))
  {
    TextConcat(a, [p] + b, Removed);
    TextConcat(a, [p] + b, Added);
    TextCons(p, b, Removed);
    TextCons(p, b, Added);
  }

  lemma {:induction false} RefineCorrect(o: string, n: string, level: nat, gaveUp: bool)
    requires level < CHARACTER
    ensures Rebuilds(Refine(o, n, level, gaveUp), o, n) && EqualsNonEmpty(Refine(o, n, level, gaveUp))
    decreases CHARACTER - level, 0
  {
    if o == "" && n == "" {
    } else if o == "" {
      TextOne(Part(Added, n), Removed);
      TextOne(Part(Added, n), Added);
    } else if n == "" {
      TextOne(Part(Removed, o), Removed);
      TextOne(Part(Removed, o), Added);
    } else if gaveUp {
      assert [] + [Part(Removed, o), Part(Added, n)] == [Part(Removed, o), Part(Added, n)];
      TextAppendPair([], o, n, Removed);
      TextAppendPair([], o, n, Added);
      EmptyEnds(o);
      EmptyEnds(n);
    } else {
      BuildCorrect(o, n, level + 1);
    }
  }

  lemma {:induction false} RefinerLossless(level: nat, gaveUp: bool)
    requires level < CHARACTER
    ensures Lossless(Refiner(level, gaveUp))
    decreases CHARACTER - level, 1
  {
    forall o, n
      ensures Rebuilds(Refiner(level, gaveUp)(o, n), o, n) && EqualsNonEmpty(Refiner(level, gaveUp)(o, n))
    {
      RefineCorrect(o, n, level, gaveUp);
    }
  }

  // ---------------------------------------------------------------------
  // The implementation of the recursion
  // ---------------------------------------------------------------------

  datatype Block = Context(text: string) | Changed(oldText: string, newText: string)

  /** What the second loop makes of a list of blocks. */
  ghost function Outcome(blocks: seq<Block>, refine: (string, string) -> seq<Part>): (parts: seq<Part>) {
    if blocks == [] then [] else Outcome(Init(blocks), refine) + BlockParts(Last(blocks), refine)
  }

  ghost function BlockParts(b: Block, refine: (string, string) -> seq<Part>): (parts: seq<Part>) {
    match b
    case Context(text) => [Part(Equal, text)]
    case Changed(o, n) => refine(o, n)
  }

  lemma OutcomeAppend(blocks: seq<Block>, b: Block, refine: (string, string) -> seq<Part>)
    ensures Outcome(blocks + [b], refine) == Outcome(blocks, refine) + BlockParts(b, refine)
  {
    assert Init(blocks + [b]) == blocks;
  }

  /** Closes the block being collected, if one is open. */
  method Close(blocks: seq<Block>, open: bool, o: string, n: string, ghost refine: (string, string) -> seq<Part>)
    returns (r: seq<Block>)
    requires (!open ==> o == "" && n == "") && refine("", "") == []
    ensures Outcome(r, refine) == Outcome(blocks, refine) + refine(o, n)
  {
    if open {
      OutcomeAppend(blocks, Changed(o, n), refine);
      return blocks + [Changed(o, n)];
    }
    assert Outcome(blocks, refine) + [] == Outcome(blocks, refine);
    return blocks;
  }

  /** Groups consecutive changes into blocks. */
  method Group(diff: seq<Part>, ghost refine: (string, string) -> seq<Part>) returns (blocks: seq<Block>)
    requires refine("", "") == []
    ensures Outcome(blocks, refine) == Expand(diff, "", "", refine)
  {
    blocks := [];
    var open, o, n := false, "", "";
    assert diff[0..] == diff;
    EmptyEnds(Expand(diff, "", "", refine));
    for i := 0 to |diff|
      invariant !open ==> o == "" && n == ""
      invariant Expand(diff, "", "", refine) == Outcome(blocks, refine) + Expand(diff[i..], o, n, refine)
    {
      var p := diff[i];
      assert diff[i..][0] == p && diff[i..][1..] == diff[i + 1..];
      match p.kind {
        case Equal =>
          ghost var rest := Expand(diff[i + 1..], "", "", refine);
          ConcatAssociates(Outcome(blocks, refine), refine(o, n), [p] + rest);
          blocks := Close(blocks, open, o, n, refine);
          open, o, n := false, "", "";
          OutcomeAppend(blocks, Context(p.text), refine);
          AppendAssociates(Outcome(blocks, refine), p, rest);
          blocks := blocks + [Context(p.text)];
        case Removed =>
          open, o := true, o + p.text;
        case Added =>
          open, n := true, n + p.text;
      }
    }
    blocks := Close(blocks, open, o, n, refine);
  }

  /** Splits both sides and aligns the pieces. */
  method AlignPieces(u: string, v: string, level: nat) returns (diff: seq<Part>, tooLarge: bool)
    ensures diff == Reorder(AlignLevel(u, v, level)) && tooLarge == GaveUp(u, v, level)
  {
    var us := Split(u, level);
    var vs := Split(v, level);
    if level == PARAGRAPH {
      diff := HashDiff(us, vs);
      tooLarge := false;
    } else {
      diff, tooLarge := EditDistanceDiff(us, vs, level);
    }
    diff := ReorderParts(diff);
  }

  method BuildProse(u: string, v: string, level: nat) returns (parts: seq<Part>)
    requires level <= CHARACTER
    ensures parts == Build(u, v, level)
    decreases CHARACTER - level, 1
  {
    var diff, tooLarge := AlignPieces(u, v, level);
    if level == CHARACTER {
      return diff;
    }
    parts := RefineDiff(diff, level, tooLarge);
  }

  /** Refines every changed block of an alignment. */
  method RefineDiff(diff: seq<Part>, level: nat, tooLarge: bool) returns (parts: seq<Part>)
    requires level < CHARACTER
    ensures parts == Reorder(Expand(diff, "", "", Refiner(level, tooLarge)))
    decreases CHARACTER - level, 0, 2
  {
    RefineNothing(level, tooLarge);
    var blocks := Group(diff, Refiner(level, tooLarge));
    var result := RefineBlocks(blocks, level, tooLarge);
    parts := ReorderParts(result);
  }

  lemma RefineNothing(level: nat, gaveUp: bool)
    requires level < CHARACTER
    ensures Refiner(level, gaveUp)("", "") == []
  {
  }

  method RefineBlocks(blocks: seq<Block>, level: nat, tooLarge: bool) returns (result: seq<Part>)
    requires level < CHARACTER
    ensures result == Outcome(blocks, Refiner(level, tooLarge))
    decreases CHARACTER - level, 0, 1
  {
    result := [];
    for i := 0 to |blocks|
      invariant result == Outcome(blocks[..i], Refiner(level, tooLarge))
    {
      TakeInit(blocks, i + 1);
      var parts := RefineBlock(blocks[i], level, tooLarge);
      result := result + parts;
    }
    assert blocks[..|blocks|] == blocks;
  }

  /** Only changed blocks with text on both sides descend to the next level. */
  method RefineBlock(block: Block, level: nat, tooLarge: bool) returns (parts: seq<Part>)
    requires level < CHARACTER
    ensures parts == BlockParts(block, Refiner(level, tooLarge))
    decreases CHARACTER - level, 0, 0
  {
    match block {
      case Context(text) =>
        parts := [Part(Equal, text)];
      case Changed(o, n) =>
        if o == "" && n == "" {
          parts := [];
        } else if o == "" {
          parts := [Part(Added, n)];
        } else if n == "" {
          parts := [Part(Removed, o)];
        } else if tooLarge {
          parts := [Part(Removed, o), Part(Added, n)];
        } else {
          parts := BuildProse(o, n, level + 1);
        }
    }
  }

  // ---------------------------------------------------------------------
  // Generate
  // ---------------------------------------------------------------------

  ghost function Diff(u: string, v: string): (parts: seq<Part>) {
    Reorder(Build(u, v, PARAGRAPH))
  }

  /** Both texts can be rebuilt, the list is normal, and no segment is empty. */
  lemma DiffCorrect(u: string, v: string)
    ensures Rebuilds(Diff(u, v), u, v) && Normal(Diff(u, v)) && NoEmpty(Diff(u, v))
  {
    BuildCorrect(u, v, PARAGRAPH);
    ReorderCorrect(Build(u, v, PARAGRAPH), u, v);
    var aligned, refine := AlignLevel(u, v, PARAGRAPH), Refiner(PARAGRAPH, GaveUp(u, v, PARAGRAPH));
    AlignLevelCorrect(u, v, PARAGRAPH);
    ReorderSettles(aligned);
    RefinerLossless(PARAGRAPH, GaveUp(u, v, PARAGRAPH));
    ExpandCorrect(Reorder(aligned), "", "", refine);
    TwoPassesNoEmpty(Expand(Reorder(aligned), "", "", refine));
  }

  lemma {:induction false} AlignSelf(ps: seq<string>, from: nat)
    requires from <= |ps|
    ensures Align(ps[from..], ps, from) == AllOf(Equal, ps[from..])
    decreases |ps| - from
  {
    if from < |ps| {
      AlignSelf(ps, from + 1);
      AlignStep(ps, ps, from, from);
      assert ps[from..from] == [] && ps[from..][0] == ps[from] && ps[from..][1..] == ps[from + 1..];
      EmptyEnds([Part(Equal, ps[from])] + AllOf(Equal, ps[from + 1..]));
    }
  }

  lemma CombineNothing()
    ensures Combine("", "") == []
  {
    LiftNothing("", "");
  }

  lemma {:induction false} RunsOfEquals(ps: seq<string>)
    ensures Runs(AllOf(Equal, ps), "", "") == AllOf(Equal, ps)
  {
    CombineNothing();
    if ps == [] {
    } else {
      RunsOfEquals(ps[1..]);
      assert AllOf(Equal, ps)[1..] == AllOf(Equal, ps[1..]);
      EmptyEnds([Part(Equal, ps[0])] + AllOf(Equal, ps[1..]));
    }
  }

  lemma {:induction false} MergeOfEquals(head: string, ps: seq<string>)
    ensures Merge([Part(Equal, head)] + AllOf(Equal, ps)) == [Part(Equal, head + Join(ps))]
    decreases |ps|
  {
    if ps == [] {
      assert head + "" == head;
    } else {
      var rest := AllOf(Equal, ps[1..]);
      MergeOfEquals(head + ps[0], ps[1..]);
      MergeStep(Part(Equal, head), Part(Equal, ps[0]), rest);
      assert [Part(Equal, head)] + ([Part(Equal, ps[0])] + rest) == [Part(Equal, head), Part(Equal, ps[0])] + rest;
      ConcatAssociates(head, ps[0], Join(ps[1..]));
    }
  }

  /** The diff of a text with itself. */
  function Whole(u: string): (parts: seq<Part>) {
    if u == "" then [] else [Part(Equal, u)]
  }

  lemma ReorderWhole(u: string)
    ensures Reorder(Whole(u)) == Whole(u)
  {
    if u == "" {
      RunsOfEquals([]);
    } else {
      assert [u][1..] == [];
      assert AllOf(Equal, [u]) == [Part(Equal, u)];
      RunsOfEquals([u]);
      MergeOfEquals(u, []);
      assert u + "" == u;
    }
  }

  lemma AlignWhole(u: string)
    ensures Reorder(AlignLevel(u, u, PARAGRAPH)) == Whole(u)
  {
    var ps := SplitCorpus(u, PARAGRAPH);
    SplitLossless(u, PARAGRAPH);
    AlignSelf(ps, 0);
    assert ps[0..] == ps;
    RunsOfEquals(ps);
    if ps != [] {
      MergeOfEquals(ps[0], ps[1..]);
    }
  }

  lemma ExpandWhole(u: string)
    ensures Expand(Whole(u), "", "", Refiner(PARAGRAPH, false)) == Whole(u)
  {
    if u != "" {
      var one := [Part(Equal, u)];
      assert one[1..] == [];
      EmptyEnds(one);
    }
  }

  /** Identical texts give one unchanged segment. */
  lemma UnchangedText(u: string)
    ensures Diff(u, u) == Whole(u)
  {
    AlignWhole(u);
    ExpandWhole(u);
    ReorderWhole(u);
  }
}
