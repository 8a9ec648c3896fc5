/** Runs of the MySQL queue: any number of workers and producers, interleaved at
    their transactions, and inside `Lease` at each of its statements.

    The SELECTs of `Lease` may be stale, so the ids they hand to the UPDATEs are
    arbitrary; `now` is read once, when the call starts. */
module QueueRuns {
  import opened Options
  import opened QueueStore
  import opened QueueTypes

  /** An open `Lease` call. */
  datatype Call = Call(owner: Owner, now: int, ids: set<TaskId>)

  /** Why a task exists, and what was asked for. */
  datatype Origin = Direct | Followup(parent: TaskId, index: nat) | FromEvent(event: EventId)

  datatype Birth = Birth(origin: Origin, spec: Spec)

  /** The finalization that was committed for a task: its children have the ids
      `first`, `first + 1`, ... */
  datatype Commit = Commit(first: TaskId, followups: seq<EnqueueRequest>, priority: int)

  datatype World = World(db: Db, clock: int, calls: map<nat, Call>, grants: set<Lease>,
                         born: map<TaskId, Birth>, commits: map<TaskId, Commit>)

  const START := World(EMPTY, 0, map[], {}, map[], map[])

  datatype Step =
    | Tick(to: int)
    | EnqueueStep(req: EnqueueRequest)
    | EventStep(event: EventId, req: EnqueueRequest)
    | LeaseOpen(call: nat, owner: Owner)
    | LeaseNew(call: nat, ids: set<TaskId>, duration: int)
    | LeaseExpired(call: nat, ids: set<TaskId>, duration: int)
    | LeaseFetch(call: nat, fetched: set<TaskId>)
    | RenewStep(l: Lease, duration: int)
    | ResolveStep(l: Lease, how: Resolution)
    | FinalizeStep(l: Lease, followups: seq<EnqueueRequest>, duration: int)
    | AwakenStep(ids: set<TaskId>)
    | ArchiveStep(id: TaskId, result: Result, duration: int)
    | ReleaseStep(id: TaskId, how: Resolution)

  ghost predicate Enabled(w: World, step: Step) {
    match step
    case Tick(to) => w.clock <= to
    case LeaseOpen(call, owner) => call !in w.calls && owner.Worker?
    case LeaseNew(call, _, _) => call in w.calls
    case LeaseExpired(call, _, _) => call in w.calls
    case LeaseFetch(call, fetched) =>
      call in w.calls && fetched <= w.calls[call].ids &&
      forall id :: id in fetched ==> Fetchable(w.db, id, w.calls[call].owner, w.calls[call].now)
    case RenewStep(l, _) => l.owner.Worker?
    case ReleaseStep(_, how) => !how.Fail?
    case _ => true
  }

  /** Tokens handed to a worker for the rows it fetched. */
  function Tokens(db: Db, fetched: set<TaskId>, owner: Owner): (g: set<Lease>)
    requires forall id :: id in fetched ==> id in db.active && db.active[id].expires.Some?
  {
    set id | id in fetched :: Lease(id, owner, db.active[id].expires.value)
  }

  /** An owner gives up everything it holds of a task. */
  function Drop(grants: set<Lease>, task: TaskId, owner: Owner): (g: set<Lease>) {
    set g | g in grants && !(g.task == task && g.owner == owner)
  }

  function SpecOf(req: EnqueueRequest): (s: Spec) {
    NewTask(req, 0).spec
  }

  /** The ids of the children of a committed finalization. */
  ghost predicate ChildOf(c: Commit, id: TaskId) {
    c.first <= id < c.first + |c.followups|
  }

  /** What was asked for the child `id`, of `parent`, at its place. */
  function ChildBirth(parent: TaskId, c: Commit, id: TaskId): (b: Birth)
    requires c.first <= id < c.first + |c.followups|
  {
    Birth(Followup(parent, id - c.first), SpecOf(Inherit(c.followups[id - c.first], c.priority)))
  }

  /** The births of the first `n` children of `parent`. */
  function Births(born: map<TaskId, Birth>, parent: TaskId, c: Commit, n: nat): (r: map<TaskId, Birth>)
    requires n <= |c.followups|
  {
    if n == 0 then born
    else Births(born, parent, c, n - 1)[c.first + n - 1 := ChildBirth(parent, c, c.first + n - 1)]
  }

  function CommitFor(w: World, l: Lease, followups: seq<EnqueueRequest>): (c: Commit)
    requires l.task in w.db.active
  {
    Commit(w.db.counter + 1, followups, w.db.active[l.task].spec.priority)
  }

  ghost function Do(w: World, step: Step): (w': World)
    requires Enabled(w, step)
  {
    match step
    case Tick(to) => w.(clock := to)
    case EnqueueStep(req) =>
      w.(db := Enqueue(w.db, req, w.clock), born := w.born[w.db.counter + 1 := Birth(Direct, SpecOf(req))])
    case EventStep(event, req) =>
      w.(db := EnqueueEvent(w.db, event, req, w.clock).0,
         born := if event in w.db.inbox then w.born
                 else w.born[w.db.counter + 1 := Birth(FromEvent(event), SpecOf(req))])
    case LeaseOpen(call, owner) => w.(calls := w.calls[call := Call(owner, w.clock, {})])
    case LeaseNew(call, ids, duration) =>
      var c := w.calls[call];
      w.(db := TakeNew(w.db, ids, c.owner, c.now + duration), calls := w.calls[call := c.(ids := c.ids + ids)])
    case LeaseExpired(call, ids, duration) =>
      var c := w.calls[call];
      w.(db := TakeExpired(w.db, ids, c.owner, c.now + duration, c.now),
         calls := w.calls[call := c.(ids := c.ids + ids)])
    case LeaseFetch(call, fetched) =>
      var c := w.calls[call];
      w.(calls := w.calls - {call}, grants := w.grants + Tokens(w.db, fetched, c.owner))
    case RenewStep(l, duration) =>
      var (db, expiry) := Renew(w.db, l, duration, w.clock);
      w.(db := db, grants := if expiry.Some? then w.grants + {l.(expires := expiry.value)} else w.grants)
    case ResolveStep(l, how) =>
      var (db, ok) := Resolve(w.db, l, how, w.clock);
      w.(db := db, grants := if ok then Drop(w.grants, l.task, l.owner) else w.grants)
    case FinalizeStep(l, followups, duration) =>
      if Holds(w.db, l, w.clock) then
        var c := CommitFor(w, l, followups);
        World(Finalize(w.db, l, followups, duration, w.clock).0, w.clock, w.calls,
              Drop(w.grants, l.task, l.owner), Births(w.born, l.task, c, |followups|), w.commits[l.task := c])
      else w.(db := Finalize(w.db, l, followups, duration, w.clock).0)
    case AwakenStep(ids) => w.(db := Awaken(w.db, ids, w.clock))
    case ArchiveStep(id, result, duration) => w.(db := ArchiveTask(w.db, id, result, duration, w.clock).0)
    case ReleaseStep(id, how) => w.(db := Release(w.db, id, how, w.clock))
  }

  ghost predicate Runs(w: World, steps: seq<Step>)
    decreases |steps|
  {
    steps == [] || (Enabled(w, steps[0]) && Runs(Do(w, steps[0]), steps[1..]))
  }

  ghost function After(w: World, steps: seq<Step>): (w': World)
    requires Runs(w, steps)
    decreases |steps|
  {
    if steps == [] then w else After(Do(w, steps[0]), steps[1..])
  }

  // ---------------------------------------------------------------------
  // Conservation, over every route
  // ---------------------------------------------------------------------

  lemma StepConserves(w: World, step: Step)
    requires Conserved(w.db) && Enabled(w, step)
    ensures Conserved(Do(w, step).db) && IdsKept(w.db, Do(w, step).db)
  {
    var db' := Do(w, step).db;
    match step
    case Tick(_) =>
    case EnqueueStep(req) => EnqueueConserves(w.db, req, w.clock);
    case EventStep(event, req) =>
      if event !in w.db.inbox { EnqueueConserves(w.db, req, w.clock); }
    case LeaseOpen(_, _) =>
    case LeaseNew(_, _, _) => RowsOnlyConserves(w.db, db');
    case LeaseExpired(_, _, _) => RowsOnlyConserves(w.db, db');
    case LeaseFetch(_, _) =>
    case RenewStep(_, _) => RowsOnlyConserves(w.db, db');
    case ResolveStep(l, how) => ResolveConserves(w.db, l, how, w.clock);
    case FinalizeStep(l, followups, duration) => FinalizeConserves(w.db, l, followups, duration, w.clock);
    case AwakenStep(_) => RowsOnlyConserves(w.db, db');
    case ArchiveStep(id, result, duration) =>
      if id in w.db.active { ArchiveConserves(w.db, id, result, duration, w.clock); }
    case ReleaseStep(_, _) => RowsOnlyConserves(w.db, db');
  }

  /** Every allocated id is in exactly one of the two tables for ever, and an
      archived row never changes again. */
  lemma {:induction false} IdsConserved(w: World, steps: seq<Step>)
    requires Conserved(w.db) && Runs(w, steps)
    ensures Conserved(After(w, steps).db) && IdsKept(w.db, After(w, steps).db)
    decreases |steps|
  {
    if steps == [] {
    } else {
      StepConserves(w, steps[0]);
      IdsConserved(Do(w, steps[0]), steps[1..]);
    }
  }

  // ---------------------------------------------------------------------
  // Exactly-once creation
  // ---------------------------------------------------------------------

  /** What was asked for when a task was enqueued; it never changes. */
  ghost function SpecAt(db: Db, id: TaskId): (s: Option<Spec>) {
    if id in db.active then Some(db.active[id].spec)
    else if id in db.archive then Some(db.archive[id].task.spec)
    else None
  }

  /** The births describe the tables. */
  ghost predicate BornOk(db: Db, born: map<TaskId, Birth>) {
    && (forall id: TaskId :: id in born <==> 1 <= id <= db.counter)
    && (forall id :: id in born ==> SpecAt(db, id) == Some(born[id].spec))
  }

  /** Every followup of `c` was born, at its place. */
  ghost predicate CommitOk(born: map<TaskId, Birth>, p: TaskId, c: Commit) {
    forall id :: ChildOf(c, id) ==> id in born && born[id] == ChildBirth(p, c, id)
  }

  /** A followup is the child of a committed finalization, at its place. */
  ghost predicate FollowupOk(commits: map<TaskId, Commit>, id: TaskId, o: Origin) {
    o.Followup? ==> o.parent in commits && ChildOf(commits[o.parent], id) && id == commits[o.parent].first + o.index
  }

  ghost predicate CommitsOk(archive: map<TaskId, Archived>, born: map<TaskId, Birth>, commits: map<TaskId, Commit>) {
    && (forall p :: p in commits ==> p in archive && CommitOk(born, p, commits[p]))
    && (forall id :: id in born ==> FollowupOk(commits, id, born[id].origin))
  }

  /** The receipt of `e` names the task born of it. */
  ghost predicate ReceiptOk(born: map<TaskId, Birth>, e: EventId, r: Receipt) {
    r.response.0 in born && born[r.response.0] == Birth(FromEvent(e), SpecOf(r.request))
  }

  /** A task born of an event is the one its receipt names. */
  ghost predicate EventOk(inbox: map<EventId, Receipt>, id: TaskId, o: Origin) {
    o.FromEvent? ==> o.event in inbox && inbox[o.event].response.0 == id
  }

  ghost predicate InboxOk(born: map<TaskId, Birth>, inbox: map<EventId, Receipt>) {
    && (forall e :: e in inbox ==> ReceiptOk(born, e, inbox[e]))
    && (forall id :: id in born ==> EventOk(inbox, id, born[id].origin))
  }

  ghost predicate ProvenanceOk(w: World) {
    && Conserved(w.db)
    && BornOk(w.db, w.born)
    && CommitsOk(w.db.archive, w.born, w.commits)
    && InboxOk(w.born, w.db.inbox)
  }

  /** No birth is undone or rewritten. */
  ghost predicate Grows(born: map<TaskId, Birth>, born': map<TaskId, Birth>) {
    forall id :: id in born ==> id in born' && born'[id] == born[id]
  }

  lemma CommitsGrow(archive: map<TaskId, Archived>, archive': map<TaskId, Archived>,
                    born: map<TaskId, Birth>, born': map<TaskId, Birth>, commits: map<TaskId, Commit>)
    requires CommitsOk(archive, born, commits) && archive.Keys <= archive'.Keys && Grows(born, born')
    requires forall id :: id in born' && id !in born ==> !born'[id].origin.Followup?
    ensures CommitsOk(archive', born', commits)
  {
    forall p | p in commits ensures CommitOk(born', p, commits[p]) {
      assert CommitOk(born, p, commits[p]);
    }
  }

  /** A finalization commits; its children are born with it. */
  lemma CommitsExtend(archive: map<TaskId, Archived>, archive': map<TaskId, Archived>,
                      born: map<TaskId, Birth>, born': map<TaskId, Birth>,
                      commits: map<TaskId, Commit>, p: TaskId, c: Commit)
    requires CommitsOk(archive, born, commits) && archive.Keys <= archive'.Keys && Grows(born, born')
    requires p !in commits && p in archive' && CommitOk(born', p, c)
    requires forall id :: id in born' && id !in born ==> ChildOf(c, id)
    ensures CommitsOk(archive', born', commits[p := c])
  {
    var commits' := commits[p := c];
    forall q | q in commits' ensures CommitOk(born', q, commits'[q]) {
      if q != p {
        assert CommitOk(born, q, commits[q]);
      }
    }
    forall id | id in born' ensures FollowupOk(commits', id, born'[id].origin) {
      if id in born {
        assert FollowupOk(commits, id, born[id].origin);
      }
    }
  }

  lemma InboxGrows(born: map<TaskId, Birth>, born': map<TaskId, Birth>, inbox: map<EventId, Receipt>)
    requires InboxOk(born, inbox) && Grows(born, born')
    requires forall id :: id in born' && id !in born ==> !born'[id].origin.FromEvent?
    ensures InboxOk(born', inbox)
  {
    forall e | e in inbox ensures ReceiptOk(born', e, inbox[e]) {
      assert ReceiptOk(born, e, inbox[e]);
    }
  }

  lemma InboxExtends(born: map<TaskId, Birth>, inbox: map<EventId, Receipt>, id: TaskId, e: EventId, r: Receipt)
    requires InboxOk(born, inbox) && id !in born && e !in inbox && r.response.0 == id
    ensures InboxOk(born[id := Birth(FromEvent(e), SpecOf(r.request))], inbox[e := r])
  {
    var born' := born[id := Birth(FromEvent(e), SpecOf(r.request))];
    var inbox' := inbox[e := r];
    forall f | f in inbox' ensures ReceiptOk(born', f, inbox'[f]) {
      if f != e {
        assert ReceiptOk(born, f, inbox[f]);
      }
    }
    forall i | i in born' ensures EventOk(inbox', i, born'[i].origin) {
      if i != id {
        assert EventOk(inbox, i, born[i].origin);
      }
    }
  }

  lemma EnqueueBorn(db: Db, born: map<TaskId, Birth>, req: EnqueueRequest, origin: Origin, now: int)
    requires Conserved(db) && BornOk(db, born)
    ensures BornOk(Enqueue(db, req, now), born[db.counter + 1 := Birth(origin, SpecOf(req))])
    ensures db.counter + 1 !in born
  {
  }

  /** No task appears, and none changes what it was asked to do. */
  lemma QuietStep(w: World, w': World)
    requires ProvenanceOk(w) && Conserved(w'.db)
    requires w'.born == w.born && w'.commits == w.commits
    requires w'.db.counter == w.db.counter && w'.db.inbox == w.db.inbox && w.db.archive.Keys <= w'.db.archive.Keys
    requires forall id :: 1 <= id <= w.db.counter ==> SpecAt(w'.db, id) == SpecAt(w.db, id)
    ensures ProvenanceOk(w')
  {
    CommitsGrow(w.db.archive, w'.db.archive, w.born, w.born, w.commits);
  }

  lemma EnqueueProvenance(w: World, req: EnqueueRequest)
    requires ProvenanceOk(w)
    ensures ProvenanceOk(Do(w, EnqueueStep(req)))
  {
    var born' := w.born[w.db.counter + 1 := Birth(Direct, SpecOf(req))];
    EnqueueConserves(w.db, req, w.clock);
    EnqueueBorn(w.db, w.born, req, Direct, w.clock);
    CommitsGrow(w.db.archive, w.db.archive, w.born, born', w.commits);
    InboxGrows(w.born, born', w.db.inbox);
  }

  lemma EventBorn(db: Db, born: map<TaskId, Birth>, event: EventId, req: EnqueueRequest, now: int)
    requires Conserved(db) && BornOk(db, born) && event !in db.inbox
    ensures var db' := EnqueueEvent(db, event, req, now).0;
            Conserved(db') && BornOk(db', born[db.counter + 1 := Birth(FromEvent(event), SpecOf(req))])
    ensures db.counter + 1 !in born
  {
    EnqueueConserves(db, req, now);
    EnqueueBorn(db, born, req, FromEvent(event), now);
  }

  lemma EventProvenance(w: World, event: EventId, req: EnqueueRequest)
    requires ProvenanceOk(w) && event !in w.db.inbox
    ensures ProvenanceOk(Do(w, EventStep(event, req)))
  {
    var id := w.db.counter + 1;
    var born' := w.born[id := Birth(FromEvent(event), SpecOf(req))];
    EventBorn(w.db, w.born, event, req, w.clock);
    CommitsGrow(w.db.archive, w.db.archive, w.born, born', w.commits);
    InboxExtends(w.born, w.db.inbox, id, event, Receipt(req, (id, NewTask(req, w.clock))));
    EventAssembled(w, Do(w, EventStep(event, req)), event, req, born');
  }

  lemma EventAssembled(w: World, w': World, event: EventId, req: EnqueueRequest, born': map<TaskId, Birth>)
    requires w'.db == EnqueueEvent(w.db, event, req, w.clock).0 && w'.born == born' && w'.commits == w.commits
    requires event !in w.db.inbox && Conserved(w'.db) && BornOk(w'.db, born')
    requires CommitsOk(w.db.archive, born', w.commits)
    requires InboxOk(born', w.db.inbox[event := Receipt(req, (w.db.counter + 1, NewTask(req, w.clock)))])
    ensures ProvenanceOk(w')
  {
  }

  lemma {:induction false} BirthsAt(born: map<TaskId, Birth>, parent: TaskId, c: Commit, n: nat, id: TaskId)
    requires n <= |c.followups|
    ensures var r := Births(born, parent, c, n);
            && (id in r <==> id in born || c.first <= id < c.first + n)
            && (id in r ==> r[id] == if c.first <= id < c.first + n then ChildBirth(parent, c, id) else born[id])
  {
    if n == 0 {
    } else {
      BirthsAt(born, parent, c, n - 1, id);
    }
  }

  /** The tables after a committed finalization. */
  lemma FinalizeSpecs(w: World, l: Lease, followups: seq<EnqueueRequest>, duration: int, id: TaskId)
    requires Conserved(w.db) && Holds(w.db, l, w.clock) && 1 <= id <= w.db.counter + |followups|
    ensures SpecAt(Finalize(w.db, l, followups, duration, w.clock).0, id)
            == if id <= w.db.counter then SpecAt(w.db, id)
               else Some(ChildBirth(l.task, CommitFor(w, l, followups), id).spec)
  {
    var priority := w.db.active[l.task].spec.priority;
    EnqueueAllKeeps(w.db, followups, priority, w.clock);
    if id > w.db.counter {
      ChildAt(w.db, followups, priority, w.clock, id - w.db.counter - 1);
    }
  }

  /** The births after a committed finalization. */
  lemma FinalizeBirths(w: World, l: Lease, followups: seq<EnqueueRequest>, born': map<TaskId, Birth>)
    requires BornOk(w.db, w.born) && l.task in w.db.active
    requires born' == Births(w.born, l.task, CommitFor(w, l, followups), |followups|)
    ensures Grows(w.born, born') && CommitOk(born', l.task, CommitFor(w, l, followups))
    ensures forall id: TaskId :: id in born' <==> 1 <= id <= w.db.counter + |followups|
  {
    forall id: TaskId
      ensures id in born' <==> 1 <= id <= w.db.counter + |followups|
      ensures id in w.born ==> id in born' && born'[id] == w.born[id]
      ensures ChildOf(CommitFor(w, l, followups), id) ==>
                id in born' && born'[id] == ChildBirth(l.task, CommitFor(w, l, followups), id)
    {
      BirthsAt(w.born, l.task, CommitFor(w, l, followups), |followups|, id);
    }
  }

  lemma FinalizeBorn(w: World, l: Lease, followups: seq<EnqueueRequest>, duration: int, born': map<TaskId, Birth>)
    requires Conserved(w.db) && BornOk(w.db, w.born) && Holds(w.db, l, w.clock)
    requires born' == Births(w.born, l.task, CommitFor(w, l, followups), |followups|)
    ensures BornOk(Finalize(w.db, l, followups, duration, w.clock).0, born')
  {
    var c := CommitFor(w, l, followups);
    var db' := Finalize(w.db, l, followups, duration, w.clock).0;
    EnqueueAllKeeps(w.db, followups, c.priority, w.clock);
    FinalizeBirths(w, l, followups, born');
    assert db'.counter == w.db.counter + |followups|;
    forall id | id in born' ensures SpecAt(db', id) == Some(born'[id].spec) {
      FinalizeSpecs(w, l, followups, duration, id);
      if id > w.db.counter {
        assert ChildOf(c, id);
      }
    }
  }

  lemma FinalizeProvenance(w: World, l: Lease, followups: seq<EnqueueRequest>, duration: int)
    requires ProvenanceOk(w) && Holds(w.db, l, w.clock)
    ensures ProvenanceOk(Do(w, FinalizeStep(l, followups, duration)))
  {
    var c := CommitFor(w, l, followups);
    var w' := Do(w, FinalizeStep(l, followups, duration));
    FinalizeConserves(w.db, l, followups, duration, w.clock);
    EnqueueAllKeeps(w.db, followups, c.priority, w.clock);
    FinalizeBirths(w, l, followups, w'.born);
    FinalizeBorn(w, l, followups, duration, w'.born);
    NewAreChildren(w, c, l.task, w'.born);
    CommitsExtend(w.db.archive, w'.db.archive, w.born, w'.born, w.commits, l.task, c);
    InboxGrows(w.born, w'.born, w.db.inbox);
  }

  lemma NewAreChildren(w: World, c: Commit, p: TaskId, born': map<TaskId, Birth>)
    requires BornOk(w.db, w.born) && c.first == w.db.counter + 1 && CommitOk(born', p, c)
    requires forall id: TaskId :: id in born' <==> 1 <= id <= w.db.counter + |c.followups|
    ensures forall id :: id in born' && id !in w.born ==> ChildOf(c, id) && born'[id].origin.Followup?
  {
    forall id | id in born' && id !in w.born ensures ChildOf(c, id) && born'[id].origin.Followup? {
      assert ChildOf(c, id);
    }
  }

  ghost predicate Quiet(w: World, step: Step) {
    match step
    case EnqueueStep(_) => false
    case EventStep(event, _) => event in w.db.inbox
    case FinalizeStep(l, _, _) => !Holds(w.db, l, w.clock)
    case _ => true
  }

  lemma QuietEffect(w: World, step: Step)
    requires Conserved(w.db) && Enabled(w, step) && Quiet(w, step)
    ensures var w' := Do(w, step);
            && w'.born == w.born && w'.commits == w.commits
            && w'.db.counter == w.db.counter && w'.db.inbox == w.db.inbox
            && w.db.archive.Keys <= w'.db.archive.Keys
            && (forall id :: 1 <= id <= w.db.counter ==> SpecAt(w'.db, id) == SpecAt(w.db, id))
  {
  }

  lemma StepProvenance(w: World, step: Step)
    requires ProvenanceOk(w) && Enabled(w, step)
    ensures ProvenanceOk(Do(w, step))
  {
    if Quiet(w, step) {
      StepConserves(w, step);
      QuietEffect(w, step);
      QuietStep(w, Do(w, step));
    } else {
      match step
      case EnqueueStep(req) => EnqueueProvenance(w, req);
      case EventStep(event, req) => EventProvenance(w, event, req);
      case FinalizeStep(l, followups, duration) => FinalizeProvenance(w, l, followups, duration);
    }
  }

  lemma {:induction false} RunProvenance(w: World, steps: seq<Step>)
    requires ProvenanceOk(w) && Runs(w, steps)
    ensures ProvenanceOk(After(w, steps))
    decreases |steps|
  {
    if steps == [] {
    } else {
      StepProvenance(w, steps[0]);
      RunProvenance(Do(w, steps[0]), steps[1..]);
    }
  }

  /** One event yields at most one task, whatever else runs. */
  lemma OneTaskPerEvent(steps: seq<Step>, event: EventId, a: TaskId, b: TaskId)
    requires Runs(START, steps)
    requires var w := After(START, steps);
             a in w.born && b in w.born && w.born[a].origin == w.born[b].origin == FromEvent(event)
    ensures a == b && AllBorn(After(START, steps))
  {
    RunProvenance(START, steps);
  }

  /** A replay is answered with the one task of its event and creates nothing;
      the same event with another payload is refused. */
  lemma EventReplays(steps: seq<Step>, event: EventId, req: EnqueueRequest)
    requires Runs(START, steps) && event in After(START, steps).db.inbox
    ensures var w := After(START, steps);
            var receipt := w.db.inbox[event];
            && receipt.response.0 in w.born
            && w.born[receipt.response.0] == Birth(FromEvent(event), SpecOf(receipt.request))
            && EnqueueEvent(w.db, event, req, w.clock)
               == (w.db, if req == receipt.request then Created(receipt.response.0, receipt.response.1) else Conflict)
  {
    RunProvenance(START, steps);
  }

  /** No followup of a task is ever created twice. */
  lemma FollowupsUnique(steps: seq<Step>, a: TaskId, b: TaskId)
    requires Runs(START, steps)
    requires var w := After(START, steps);
             a in w.born && b in w.born && w.born[a].origin.Followup? && w.born[a].origin == w.born[b].origin
    ensures a == b && AllBorn(After(START, steps))
  {
    RunProvenance(START, steps);
  }

  // ---------------------------------------------------------------------
  // Replayed finalizations, and when they can be trusted
  // ---------------------------------------------------------------------

  /** Whoever sends this owner and expiry again is told the task was finalized. */
  predicate Claimable(a: Archived) {
    a.result == Success && a.task.owner.Some? && a.task.expires.Some?
  }

  ghost predicate ClaimsCommitted(w: World) {
    forall p :: p in w.db.archive && Claimable(w.db.archive[p]) ==> p in w.commits
  }

  /** Every Finalize that would answer ok has a committed finalization behind it. */
  ghost predicate Trustworthy(w: World) {
    forall l, followups, duration :: Finalize(w.db, l, followups, duration, w.clock).1 ==>
      l.task in Do(w, FinalizeStep(l, followups, duration)).commits
  }

  lemma TrustworthyIff(w: World)
    requires Conserved(w.db)
    ensures Trustworthy(w) <==> ClaimsCommitted(w)
  {
    if Trustworthy(w) {
      forall p | p in w.db.archive && Claimable(w.db.archive[p]) ensures p in w.commits {
        var t := w.db.archive[p].task;
        var l := Lease(p, t.owner.value, t.expires.value);
        assert Finalize(w.db, l, [], 0, w.clock).1;
      }
    }
  }

  /** The unfenced Complete of a task that somebody leased. */
  ghost predicate Blind(w: World, step: Step) {
    && step.ArchiveStep? && step.result == Success && step.id in w.db.active
    && w.db.active[step.id].owner.Some? && w.db.active[step.id].expires.Some?
  }

  ghost predicate Sighted(w: World, steps: seq<Step>)
    requires Runs(w, steps)
    decreases |steps|
  {
    steps == [] || (!Blind(w, steps[0]) && Sighted(Do(w, steps[0]), steps[1..]))
  }

  lemma StepClaims(w: World, step: Step)
    requires ClaimsCommitted(w) && Enabled(w, step) && !Blind(w, step)
    ensures ClaimsCommitted(Do(w, step))
  {
    if step.FinalizeStep? && Holds(w.db, step.l, w.clock) {
      EnqueueAllKeeps(w.db, step.followups, w.db.active[step.l.task].spec.priority, w.clock);
    }
  }

  /** A task that was archived without a commit never gets one. */
  lemma {:induction false} NeverCommitted(w: World, steps: seq<Step>, p: TaskId)
    requires Conserved(w.db) && Runs(w, steps) && p in w.db.archive && p !in w.commits
    ensures p !in After(w, steps).commits
    decreases |steps|
  {
    if steps == [] {
    } else {
      StepConserves(w, steps[0]);
      NeverCommitted(Do(w, steps[0]), steps[1..], p);
    }
  }

  /** A blind step archives a claim that nothing will ever stand behind. */
  lemma BlindBreaks(w: World, steps: seq<Step>)
    requires ProvenanceOk(w) && Runs(w, steps) && steps != [] && Blind(w, steps[0])
    ensures !ClaimsCommitted(After(w, steps))
  {
    var p, w' := steps[0].id, Do(w, steps[0]);
    StepConserves(w, steps[0]);
    assert p in w'.db.archive && Claimable(w'.db.archive[p]) && p !in w'.commits;
    NeverCommitted(w', steps[1..], p);
    IdsConserved(w', steps[1..]);
    assert After(w', steps[1..]).db.archive[p] == w'.db.archive[p];
  }

  lemma {:induction false} ClaimsIff(w: World, steps: seq<Step>)
    requires ProvenanceOk(w) && ClaimsCommitted(w) && Runs(w, steps)
    ensures ClaimsCommitted(After(w, steps)) <==> Sighted(w, steps)
    decreases |steps|
  {
    if steps == [] {
    } else {
      if Blind(w, steps[0]) {
        BlindBreaks(w, steps);
      } else {
        StepProvenance(w, steps[0]);
        StepClaims(w, steps[0]);
        ClaimsIff(Do(w, steps[0]), steps[1..]);
      }
    }
  }

  /** In every run: every Finalize that answers ok is behind a commit exactly when
      no leased task was ever completed through the unfenced route. */
  lemma TrustworthyExactlyWhen(steps: seq<Step>)
    requires Runs(START, steps)
    ensures Trustworthy(After(START, steps)) <==> Sighted(START, steps)
  {
    RunProvenance(START, steps);
    ClaimsIff(START, steps);
    TrustworthyIff(After(START, steps));
  }

  lemma StepKeepsCommit(w: World, step: Step, p: TaskId)
    requires ProvenanceOk(w) && Enabled(w, step) && p in w.commits
    ensures p in Do(w, step).commits && Do(w, step).commits[p] == w.commits[p]
  {
  }

  /** A committed finalization is never overwritten: it stays the only one. */
  lemma {:induction false} CommitsForever(w: World, steps: seq<Step>, p: TaskId)
    requires ProvenanceOk(w) && Runs(w, steps) && p in w.commits
    ensures p in After(w, steps).commits && After(w, steps).commits[p] == w.commits[p]
    decreases |steps|
  {
    if steps == [] {
    } else {
      StepProvenance(w, steps[0]);
      StepKeepsCommit(w, steps[0], p);
      CommitsForever(Do(w, steps[0]), steps[1..], p);
    }
  }

  /** The followups of `c`, and only those, were born of `p`, and the tables hold
      them as asked. */
  ghost predicate CreatedExactly(w: World, p: TaskId, c: Commit) {
    && CommitOk(w.born, p, c)
    && (forall id :: ChildOf(c, id) ==> SpecAt(w.db, id) == Some(ChildBirth(p, c, id).spec))
    && (forall id :: id in w.born && w.born[id].origin.Followup? && w.born[id].origin.parent == p ==> ChildOf(c, id))
  }

  lemma CommittedMeansCreated(w: World, p: TaskId)
    requires ProvenanceOk(w) && p in w.commits
    ensures CreatedExactly(w, p, w.commits[p])
  {
    var c := w.commits[p];
    assert CommitOk(w.born, p, c);
    forall id | id in w.born && w.born[id].origin.Followup? && w.born[id].origin.parent == p
      ensures ChildOf(c, id)
    {
      assert FollowupOk(w.commits, id, w.born[id].origin);
    }
  }

  /** The births account for every row there is. */
  ghost predicate AllBorn(w: World) {
    forall id :: id in w.born <==> id in w.db.active || id in w.db.archive
  }

  /** Any number of replays of a finalization, whatever else runs as long as no
      leased task is completed blindly: a call that answers ok has a committed
      finalization behind it, and what that one asked for exists exactly once. */
  lemma FollowupsExactlyOnce(steps: seq<Step>, l: Lease, followups: seq<EnqueueRequest>, duration: int)
    requires Runs(START, steps) && Sighted(START, steps)
    requires var w := After(START, steps); Finalize(w.db, l, followups, duration, w.clock).1
    ensures var w' := Do(After(START, steps), FinalizeStep(l, followups, duration));
            l.task in w'.commits && CreatedExactly(w', l.task, w'.commits[l.task]) && AllBorn(w')
  {
    var w := After(START, steps);
    var step := FinalizeStep(l, followups, duration);
    RunProvenance(START, steps);
    TrustworthyExactlyWhen(steps);
    StepProvenance(w, step);
    CommittedMeansCreated(Do(w, step), l.task);
  }

  /** The legacy Complete route breaks that promise: the receipt it leaves is
      taken by a later Finalize of the same window for its own, and the followups
      are never created. */
  lemma LegacyCompleteLosesFollowups(w: World, l: Lease, followups: seq<EnqueueRequest>, duration: int)
    requires Holds(w.db, l, w.clock)
    ensures var w' := Do(w, ArchiveStep(l.task, Success, duration));
            Finalize(w'.db, l, followups, duration, w'.clock) == (w'.db, true)
  {
  }
}
