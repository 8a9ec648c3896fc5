/** Nested transactions over MySQL savepoints.  A savepoint's name is its depth,
    names are reused after nested commits, and a nested commit releases nothing;
    still every sequence of calls behaves as a stack of database images. */
module NestedTx {
  import opened Decimals
  import opened Sequences

  // ---------------------------------------------------------------------
  // The server
  // ---------------------------------------------------------------------

  /** The savepoint `Aphront_Savepoint_<level>`, and the image it returns to. */
  datatype Point<+D> = Point(level: nat, image: D)

  datatype Session<+D> =
    | Idle(committed: D)
    | Open(committed: D, current: D, points: seq<Point<D>>)

  function SavepointName(level: nat): (name: string) {
    "Aphront_Savepoint_" + Decimal(level)
  }

  /** Different levels have different names. */
  lemma NamesDiffer(a: nat, b: nat)
    requires SavepointName(a) == SavepointName(b)
    ensures a == b
  {
    var p := |"Aphront_Savepoint_"|;
    assert Decimal(a) == SavepointName(a)[p..] && Decimal(b) == SavepointName(b)[p..];
    DecimalRoundTrip(a);
    DecimalRoundTrip(b);
  }

  /** A savepoint with a name in use replaces the one that had it. */
  function Without<D>(points: seq<Point<D>>, level: nat): (r: seq<Point<D>>)
    decreases |points|
  {
    if points == [] then []
    else if Last(points).level == level then Without(Init(points), level)
    else Without(Init(points), level) + [Last(points)]
  }

  function Savepoint<D>(s: Session<D>, level: nat): (r: Session<D>)
    requires s.Open?
  {
    s.(points := Without(s.points, level) + [Point(level, s.current)])
  }

  /** The savepoints through the named one; those set later are dropped. */
  function Through<D>(points: seq<Point<D>>, level: nat): (r: seq<Point<D>>)
    ensures r != [] ==> Last(r).level == level
    decreases |points|
  {
    if points == [] || Last(points).level == level then points else Through(Init(points), level)
  }

  /** Fails, and changes nothing, when there is no such savepoint. */
  function RollbackTo<D>(s: Session<D>, level: nat): (r: (Session<D>, bool))
    requires s.Open?
  {
    var kept := Through(s.points, level);
    if kept == [] then (s, false) else (s.(current := Last(kept).image, points := kept), true)
  }

  // ---------------------------------------------------------------------
  // The manager
  // ---------------------------------------------------------------------

  datatype Manager<+D> = Manager(depth: nat, session: Session<D>)

  datatype Op<+D> = Begin | Write(data: D) | Commit | Rollback

  /** A write outside any transaction goes to the pool and is committed at once. */
  function Perform<D>(m: Manager<D>, op: Op<D>): (r: (Manager<D>, bool))
    requires m.depth > 0 <==> m.session.Open?
    ensures r.0.depth > 0 <==> r.0.session.Open?
  {
    match op
    case Begin =>
      if m.depth == 0 then (Manager(1, Open(m.session.committed, m.session.committed, [])), true)
      else (Manager(m.depth + 1, Savepoint(m.session, m.depth)), true)
    case Write(data) =>
      if m.depth == 0 then (m.(session := Idle(data)), true) else (m.(session := m.session.(current := data)), true)
    case Commit =>
      if m.depth == 0 then (m, false)
      else if m.depth == 1 then (Manager(0, Idle(m.session.current)), true)
      else (m.(depth := m.depth - 1), true)
    case Rollback =>
      if m.depth == 0 then (m, false)
      else if m.depth == 1 then (Manager(0, Idle(m.session.committed)), true)
      else var (session, ok) := RollbackTo(m.session, m.depth - 1);
           (Manager(m.depth - 1, session), ok)
  }

  class TxManager<D> {
    var depth: nat
    var session: Session<D>

    ghost predicate Valid()
      reads this
    {
      depth > 0 <==> session.Open?
    }

    ghost function View(): (m: Manager<D>)
      reads this
    {
      Manager(depth, session)
    }

    constructor (data: D)
      ensures Valid() && View() == Manager(0, Idle(data))
    {
      depth, session := 0, Idle(data);
    }

    /** `accepted` is whether the server takes the statement; if it does not,
        nothing has changed. */
    method BeginTx(accepted: bool) returns (ok: bool)
      requires Valid()
      modifies this
      ensures Valid() && ok == accepted
      ensures ok ==> (View(), true) == Perform(old(View()), Begin)
      ensures !ok ==> View() == old(View())
    {
      if !accepted {
        return false;
      }
      ok := true;
      if depth == 0 {
        session := Open(session.committed, session.committed, []);
      } else {
        session := Savepoint(session, depth);
      }
      depth := depth + 1;
    }

    method CommitTx() returns (ok: bool)
      requires Valid()
      modifies this
      ensures Valid() && (View(), ok) == Perform(old(View()), Commit)
    {
      if depth <= 0 {
        return false;
      }
      depth := depth - 1;
      if depth == 0 {
        session := Idle(session.current);
      }
      ok := true;
    }

    method RollbackTx() returns (ok: bool)
      requires Valid()
      modifies this
      ensures Valid() && (View(), ok) == Perform(old(View()), Rollback)
    {
      if depth <= 0 {
        return false;
      }
      depth := depth - 1;
      if depth == 0 {
        session := Idle(session.committed);
        return true;
      }
      var (rolled, found) := RollbackTo(session, depth);
      session, ok := rolled, found;
    }

    method WriteData(data: D)
      requires Valid()
      modifies this
      ensures Valid() && (View(), true) == Perform(old(View()), Write(data))
    {
      session := if depth == 0 then Idle(data) else session.(current := data);
    }
  }

  // ---------------------------------------------------------------------
  // The abstract stack
  // ---------------------------------------------------------------------

  /** `stack` holds the database image each open level would return to. */
  datatype Nested<+D> = Nested(current: D, stack: seq<D>)

  function Ideal<D>(a: Nested<D>, op: Op<D>): (r: (Nested<D>, bool)) {
    match op
    case Begin => (a.(stack := a.stack + [a.current]), true)
    case Write(data) => (a.(current := data), true)
    case Commit => if a.stack == [] then (a, false) else (a.(stack := Init(a.stack)), true)
    case Rollback => if a.stack == [] then (a, false) else (Nested(Last(a.stack), Init(a.stack)), true)
  }

  /** The savepoints below `depth`: the ones that can still be rolled back to. */
  ghost function Live<D>(points: seq<Point<D>>, depth: nat): (r: seq<Point<D>>)
    decreases |points|
  {
    if points == [] then []
    else if Last(points).level < depth then Live(Init(points), depth) + [Last(points)]
    else Live(Init(points), depth)
  }

  /** What the live savepoints must be, given the stack. */
  ghost function Expected<D>(stack: seq<D>, depth: nat): (r: seq<Point<D>>)
    requires depth <= |stack|
    ensures depth > 1 ==> r != [] && Last(r) == Point(depth - 1, stack[depth - 1])
  {
    if depth <= 1 then [] else Expected(stack, depth - 1) + [Point(depth - 1, stack[depth - 1])]
  }

  ghost predicate Refines<D>(m: Manager<D>, a: Nested<D>) {
    && m.depth == |a.stack|
    && (if m.depth == 0 then m.session == Idle(a.current)
        else && m.session.Open? && m.session.current == a.current && m.session.committed == a.stack[0]
             && Live(m.session.points, m.depth) == Expected(a.stack, m.depth))
  }

  // ---------------------------------------------------------------------
  // Each call keeps the relation
  // ---------------------------------------------------------------------

  /** Reusing a stale name leaves the live savepoints alone. */
  lemma {:induction false} ReuseKeepsLive<D>(points: seq<Point<D>>, depth: nat)
    ensures Live(Without(points, depth), depth + 1) == Live(points, depth)
    decreases |points|
  {
    if points == [] {
    } else {
      ReuseKeepsLive(Init(points), depth);
      if Last(points).level != depth {
        LiveAppend(Without(Init(points), depth), Last(points), depth + 1);
      }
    }
  }

  lemma LiveAppend<D>(points: seq<Point<D>>, p: Point<D>, depth: nat)
    ensures Live(points + [p], depth) == if p.level < depth then Live(points, depth) + [p] else Live(points, depth)
  {
    InitOfConcat(points, [p]);
    assert points + Init([p]) == points;
  }

  lemma {:induction false} LiveTwice<D>(points: seq<Point<D>>, depth: nat, lower: nat)
    requires lower <= depth
    ensures Live(Live(points, depth), lower) == Live(points, lower)
    decreases |points|
  {
    if points == [] {
    } else {
      LiveTwice(Init(points), depth, lower);
      if Last(points).level < depth {
        LiveAppend(Live(Init(points), depth), Last(points), lower);
      }
    }
  }

  lemma {:induction false} ExpectedLive<D>(stack: seq<D>, depth: nat)
    requires depth <= |stack|
    ensures Live(Expected(stack, depth), depth) == Expected(stack, depth)
    ensures depth > 0 ==> Live(Expected(stack, depth), depth - 1) == Expected(stack, depth - 1)
  {
    if depth > 1 {
      var shorter, top := Expected(stack, depth - 1), Point(depth - 1, stack[depth - 1]);
      ExpectedLive(stack, depth - 1);
      LiveAppend(shorter, top, depth);
      LiveAppend(shorter, top, depth - 1);
      LiveTwice(shorter, depth - 1, depth - 1);
      AllLive(stack, depth - 1, depth);
    }
  }

  lemma {:induction false} AllLive<D>(stack: seq<D>, depth: nat, bound: nat)
    requires depth <= |stack| && depth <= bound
    ensures Live(Expected(stack, depth), bound) == Expected(stack, depth)
  {
    if depth > 1 {
      AllLive(stack, depth - 1, bound);
      LiveAppend(Expected(stack, depth - 1), Point(depth - 1, stack[depth - 1]), bound);
    }
  }

  /** Leaving a level makes its savepoint stale and no other. */
  lemma LevelDown<D>(points: seq<Point<D>>, stack: seq<D>, depth: nat)
    requires 1 < depth <= |stack| && Live(points, depth) == Expected(stack, depth)
    ensures Live(points, depth - 1) == Expected(stack, depth - 1)
  {
    LiveTwice(points, depth, depth - 1);
    ExpectedLive(stack, depth);
  }

  /** Rolling back to the newest live savepoint finds it, and drops only stale ones. */
  lemma {:induction false} ThroughKeepsLive<D>(points: seq<Point<D>>, depth: nat)
    requires depth > 0 && Live(points, depth) != [] && Last(Live(points, depth)).level == depth - 1
    ensures var kept := Through(points, depth - 1);
            kept != [] && Last(kept) == Last(Live(points, depth)) && Live(kept, depth) == Live(points, depth)
    decreases |points|
  {
    if Last(points).level >= depth {
      ThroughKeepsLive(Init(points), depth);
    }
  }

  lemma {:induction false} ExpectedPrefix<D>(stack: seq<D>, more: seq<D>, depth: nat)
    requires depth <= |stack|
    ensures Expected(stack + more, depth) == Expected(stack, depth)
  {
    if depth > 1 {
      ExpectedPrefix(stack, more, depth - 1);
    }
  }

  lemma BeginRefines<D>(m: Manager<D>, a: Nested<D>)
    requires Refines(m, a)
    ensures Refines(Perform(m, Begin).0, Ideal(a, Begin).0)
  {
    if m.depth > 0 {
      var points := m.session.points;
      ReuseKeepsLive(points, m.depth);
      LiveAppend(Without(points, m.depth), Point(m.depth, m.session.current), m.depth + 1);
      ExpectedPrefix(a.stack, [a.current], m.depth);
    }
  }

  lemma CommitRefines<D>(m: Manager<D>, a: Nested<D>)
    requires Refines(m, a)
    ensures Refines(Perform(m, Commit).0, Ideal(a, Commit).0)
  {
    if m.depth > 1 {
      LevelDown(m.session.points, a.stack, m.depth);
      InitLast(a.stack);
      ExpectedPrefix(Init(a.stack), [Last(a.stack)], m.depth - 1);
    }
  }

  lemma RollbackRefines<D>(m: Manager<D>, a: Nested<D>)
    requires Refines(m, a)
    ensures Refines(Perform(m, Rollback).0, Ideal(a, Rollback).0)
    ensures Perform(m, Rollback).1 == Ideal(a, Rollback).1
  {
    if m.depth > 1 {
      ThroughKeepsLive(m.session.points, m.depth);
      LevelDown(Through(m.session.points, m.depth - 1), a.stack, m.depth);
      InitLast(a.stack);
      ExpectedPrefix(Init(a.stack), [Last(a.stack)], m.depth - 1);
    }
  }

  lemma StepRefines<D>(m: Manager<D>, a: Nested<D>, op: Op<D>)
    requires Refines(m, a)
    ensures Refines(Perform(m, op).0, Ideal(a, op).0) && Perform(m, op).1 == Ideal(a, op).1
  {
    match op
    case Begin => BeginRefines(m, a);
    case Write(_) =>
    case Commit => CommitRefines(m, a);
    case Rollback => RollbackRefines(m, a);
  }

  // ---------------------------------------------------------------------
  // Every sequence of calls
  // ---------------------------------------------------------------------

  function Run<D>(m: Manager<D>, ops: seq<Op<D>>): (r: Manager<D>)
    requires m.depth > 0 <==> m.session.Open?
    ensures r.depth > 0 <==> r.session.Open?
    decreases |ops|
  {
    if ops == [] then m else Run(Perform(m, ops[0]).0, ops[1..])
  }

  function IdealRun<D>(a: Nested<D>, ops: seq<Op<D>>): (r: Nested<D>)
    decreases |ops|
  {
    if ops == [] then a else IdealRun(Ideal(a, ops[0]).0, ops[1..])
  }

  lemma {:induction false} RunRefines<D>(m: Manager<D>, a: Nested<D>, ops: seq<Op<D>>)
    requires Refines(m, a)
    ensures Refines(Run(m, ops), IdealRun(a, ops))
    decreases |ops|
  {
    if ops == [] {
    } else {
      StepRefines(m, a, ops[0]);
      RunRefines(Perform(m, ops[0]).0, Ideal(a, ops[0]).0, ops[1..]);
    }
  }

  /** From a fresh connection: the same data, the same nesting, and the next call
      succeeds or fails exactly as on the stack. */
  lemma SavepointsAreAStack<D>(data: D, ops: seq<Op<D>>, op: Op<D>)
    ensures var m, a := Run(Manager(0, Idle(data)), ops), IdealRun(Nested(data, []), ops);
            && m.depth == |a.stack|
            && (m.session.Open? <==> m.depth > 0)
            && a.current == (if m.session.Open? then m.session.current else m.session.committed)
            && Perform(m, op).1 == Ideal(a, op).1
  {
    RunRefines(Manager(0, Idle(data)), Nested(data, []), ops);
    StepRefines(Run(Manager(0, Idle(data)), ops), IdealRun(Nested(data, []), ops), op);
  }

  /** Calls that stay inside `k` levels and close them all. */
  ghost predicate Closes<D>(ops: seq<Op<D>>, k: nat)
    decreases |ops|
  {
    if ops == [] then k == 0
    else match ops[0]
      case Begin => Closes(ops[1..], k + 1)
      case Write(_) => Closes(ops[1..], k)
      case Commit => k > 0 && Closes(ops[1..], k - 1)
      case Rollback => k > 0 && Closes(ops[1..], k - 1)
  }

  lemma {:induction false} ClosedLevels<D>(a: Nested<D>, ops: seq<Op<D>>, k: nat)
    requires Closes(ops, k) && k <= |a.stack|
    ensures IdealRun(a, ops).stack == a.stack[..|a.stack| - k]
    decreases |ops|
  {
    if ops == [] {
    } else {
      var a' := Ideal(a, ops[0]).0;
      match ops[0]
      case Begin =>
        ClosedLevels(a', ops[1..], k + 1);
        assert a'.stack[..|a'.stack| - (k + 1)] == a.stack[..|a.stack| - k];
      case Write(_) => ClosedLevels(a', ops[1..], k);
      case Commit => ClosedLevels(a', ops[1..], k - 1);
      case Rollback => ClosedLevels(a', ops[1..], k - 1);
    }
  }

  /** A rollback returns to the data its Begin saw, whatever ran and however
      deeply it nested in between. */
  lemma RollbackUndoes<D>(m: Manager<D>, a: Nested<D>, ops: seq<Op<D>>)
    requires Refines(m, a) && Closes(ops, 0)
    ensures var inner := Run(Perform(m, Begin).0, ops);
            var (m', ok) := Perform(inner, Rollback);
            && ok && m'.depth == m.depth
            && (m.depth == 0 ==> m'.session == m.session)
            && (m.depth > 0 ==> m'.session.current == m.session.current)
  {
    var m1, a1 := Perform(m, Begin).0, Ideal(a, Begin).0;
    BeginRefines(m, a);
    RunRefines(m1, a1, ops);
    ClosedLevels(a1, ops, 0);
    assert a1.stack[..|a1.stack|] == a1.stack;
    RollbackRefines(Run(m1, ops), IdealRun(a1, ops));
    InitOfConcat(a.stack, [a.current]);
  }
}
