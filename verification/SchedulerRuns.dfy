/** Runs of the scheduler: any number of replicas scan, plan and apply; triggers
    are edited and deleted at any time; ownership switches bump the epoch; while
    the owner is not Gorge, PHP changes events and schedules as it likes. */
module SchedulerRuns {
  import opened Options
  import opened QueueTypes
  import Q = QueueStore
  import opened Scheduler

  /** A committed plan, when it committed, and the database around that commit. */
  datatype Entry = Entry(snap: Snapshot, plan: Plan, at: int, before: Db, after: Db)

  /** `snaps` holds every snapshot ever scanned; `retired` the deleted triggers, whose
      rows a deletion may or may not purge; `outside` how many tasks others
      enqueued. */
  datatype World = World(db: Db, clock: int, snaps: set<Snapshot>, retired: set<TriggerId>, log: seq<Entry>,
                         outside: nat)

  datatype Step =
    | TimeStep(clock: int)
    | ScanStep(id: TriggerId)
    | ApplyStep(snap: Snapshot, plan: Plan)
    | FailStep(snap: Snapshot)
    | CreateStep(id: TriggerId)
    | EditStep(id: TriggerId, version: int)
    | DeleteStep(id: TriggerId, purge: bool)
    | SwitchStep(control: Control)
    | PhpStep(events: map<TriggerId, Event>, schedules: map<TriggerId, Schedule>, eventIds: int)
    | QueueStep(queue: Q.Db)

  ghost predicate Enabled(w: World, s: Step) {
    match s
    case TimeStep(clock) => clock >= w.clock
    case ScanStep(id) => Candidate(w.db, id, w.clock)
    case ApplyStep(snap, _) => snap in w.snaps
    case FailStep(snap) => snap in w.snaps
    case CreateStep(id) => id !in w.db.triggers && id !in w.retired
    case EditStep(id, version) => id in w.db.triggers && version > w.db.triggers[id]
    case DeleteStep(id, _) => id in w.db.triggers
    case SwitchStep(control) => control.epoch > w.db.control.epoch
    case PhpStep(_, _, _) => w.db.control.owner != Gorge
    case QueueStep(queue) => queue.counter >= w.db.queue.counter
  }

  ghost function Do(w: World, s: Step): (r: World)
    requires Enabled(w, s)
  {
    match s
    case TimeStep(clock) => w.(clock := clock)
    case ScanStep(id) => w.(snaps := w.snaps + {Observe(w.db, id, w.clock)})
    case ApplyStep(snap, plan) =>
      var (db, reply) := Apply(w.db, snap, plan, w.clock);
      if reply == Applied then
        w.(db := db, log := w.log + [Entry(snap, plan, w.clock, w.db, db)])
      else w
    case FailStep(snap) => w.(db := Failed(w.db, snap, w.clock))
    case CreateStep(id) => w.(db := w.db.(triggers := w.db.triggers[id := 1]))
    case EditStep(id, version) => w.(db := w.db.(triggers := w.db.triggers[id := version]))
    case DeleteStep(id, purge) =>
      var gone := if purge then {id} else {};
      w.(db := w.db.(triggers := w.db.triggers - {id}, events := w.db.events - gone,
                     schedules := w.db.schedules - gone),
         retired := w.retired + {id})
    case SwitchStep(control) => w.(db := w.db.(control := control))
    case PhpStep(events, schedules, eventIds) =>
      w.(db := w.db.(events := events, schedules := schedules, eventIds := eventIds))
    case QueueStep(queue) =>
      w.(db := w.db.(queue := queue), outside := w.outside + (queue.counter - w.db.queue.counter))
  }

  ghost predicate Runs(w: World, steps: seq<Step>)
    decreases |steps|
  {
    steps == [] || (Enabled(w, steps[0]) && Runs(Do(w, steps[0]), steps[1..]))
  }

  ghost function After(w: World, steps: seq<Step>): (r: World)
    requires Runs(w, steps)
    decreases |steps|
  {
    if steps == [] then w else After(Do(w, steps[0]), steps[1..])
  }

  /** Any database may be the one the first replica finds, as long as triggers
      have positive versions. */
  ghost predicate Start(w: World) {
    && w.snaps == {} && w.retired == {} && w.log == [] && w.outside == 0
    && forall id :: id in w.db.triggers ==> w.db.triggers[id] >= 1
  }

  // ---------------------------------------------------------------------
  // The invariant
  // ---------------------------------------------------------------------

  ghost predicate SameSegment(a: Snapshot, b: Snapshot) {
    a.id == b.id && a.version == b.version && a.ownerEpoch == b.ownerEpoch
  }

  /** A scan only ever returns a new version or a due event, read in the past. */
  ghost predicate SnapOk(s: Snapshot, clock: int) {
    s.now <= clock && (s.scheduledVersion == s.version ==> Due(s))
  }

  /** While nothing closed the segment of a committed plan, its version stays
      scheduled and the clock stays past what it fired for. */
  ghost predicate EntryOk(w: World, e: Entry) {
    var s := e.snap;
    && s.ownerEpoch <= w.db.control.epoch
    && (s.ownerEpoch == w.db.control.epoch ==> w.db.control.owner == Gorge)
    && (s.id in w.db.triggers || s.id in w.retired)
    && (s.id in w.db.triggers ==> s.version <= w.db.triggers[s.id])
    && Enqueues(e) && Advances(e)
    && e.after.queue.counter <= w.db.queue.counter
    && (Open(w.db, s) ==>
          && ScheduledOf(w.db, s.id) == s.version
          && (Due(s) ==> var next := EventOf(w.db, s.id).next;
                         next.None? || next.value > s.event.next.value))
  }

  /** A fire wrote one new row, the planned task, and touched no other; a
      reschedule left the queue as it was. */
  ghost predicate Enqueues(e: Entry) {
    var before, after := e.before.queue, e.after.queue;
    if Due(e.snap) then
      && e.plan.task.Some?
      && after.counter == before.counter + 1
      && after.counter in after.active
      && after.active[after.counter] == Q.NewTask(e.plan.task.value, e.at)
      && after == before.(active := before.active[after.counter := after.active[after.counter]],
                          counter := after.counter)
    else after == before
  }

  /** The rows were those of the snapshot, under Gorge's ownership; event and
      version moved on as planned, and no other trigger was touched. */
  ghost predicate Advances(e: Entry) {
    var s := e.snap;
    && s.id in e.before.triggers && Observe(e.before, s.id, s.now) == s && e.before.control.owner == Gorge
    && EventOf(e.after, s.id).next == e.plan.next
    && EventOf(e.after, s.id).last == (if Due(s) then s.event.next else s.event.last)
    && ScheduledOf(e.after, s.id) == s.version
    && (forall id :: id != s.id ==>
          EventOf(e.after, id) == EventOf(e.before, id) && ScheduledOf(e.after, id) == ScheduledOf(e.before, id))
  }

  function Fires(log: seq<Entry>): (n: nat)
    decreases |log|
  {
    if log == [] then 0
    else Fires(log[..|log| - 1]) + (if Due(log[|log| - 1].snap) then 1 else 0)
  }

  ghost predicate Open(db: Db, s: Snapshot) {
    s.ownerEpoch == db.control.epoch && s.id in db.triggers && db.triggers[s.id] == s.version
  }

  /** Of two plans committed in one segment, the later fires, for a later epoch. */
  ghost predicate Follows(a: Entry, b: Entry) {
    && (SameSegment(a.snap, b.snap) ==>
          Due(b.snap) && (Due(a.snap) ==> a.snap.event.next.value < b.snap.event.next.value))
    && a.after.queue.counter <= b.before.queue.counter
  }

  ghost predicate Ordered(log: seq<Entry>) {
    forall i, j :: 0 <= i < j < |log| ==> Follows(log[i], log[j])
  }

  ghost predicate WorldOk(w: World) {
    && (forall s :: s in w.snaps ==> SnapOk(s, w.clock))
    && (forall i :: 0 <= i < |w.log| ==> EntryOk(w, w.log[i]))
    && Ordered(w.log)
    && (forall id :: id in w.db.triggers ==> w.db.triggers[id] >= 1)
    && (forall id :: id in w.retired ==> id !in w.db.triggers)
  }

  /** A plan that commits follows every plan already committed. */
  lemma AppendFollows(w: World, e: Entry, i: nat)
    requires WorldOk(w) && Current(w.db, e.snap) && SnapOk(e.snap, w.clock) && i < |w.log|
    requires e.before == w.db
    ensures Follows(w.log[i], e)
  {
    assert EntryOk(w, w.log[i]);
  }

  lemma ApplyEntries(w: World, snap: Snapshot, plan: Plan, e: Entry)
    requires EntryOk(w, e) && ValidPlan(snap, plan) && Current(w.db, snap)
    requires SameSegment(e.snap, snap) ==> Due(snap)
    ensures EntryOk(w.(db := Apply(w.db, snap, plan, w.clock).0), e)
  {
  }

  lemma ApplyNew(w: World, snap: Snapshot, plan: Plan)
    requires ValidPlan(snap, plan) && Current(w.db, snap)
    ensures var db := Apply(w.db, snap, plan, w.clock).0;
            EntryOk(w.(db := db), Entry(snap, plan, w.clock, w.db, db))
  {
  }

  lemma ApplyKeeps(w: World, snap: Snapshot, plan: Plan)
    requires WorldOk(w) && snap in w.snaps
    ensures WorldOk(Do(w, ApplyStep(snap, plan)))
  {
    if ValidPlan(snap, plan) && Current(w.db, snap) {
      var w' := Do(w, ApplyStep(snap, plan));
      var e := w'.log[|w.log|];
      assert SnapOk(snap, w.clock);
      forall i | 0 <= i < |w.log| ensures EntryOk(w', w'.log[i]) && Follows(w.log[i], e) {
        AppendFollows(w, e, i);
        ApplyEntries(w, snap, plan, w.log[i]);
      }
      ApplyNew(w, snap, plan);
    }
  }

  /** A step that commits no plan keeps what is known of every committed one. */
  lemma QuietEntries(w: World, s: Step, e: Entry)
    requires Enabled(w, s) && !s.ApplyStep? && EntryOk(w, e)
    requires forall id :: id in w.retired ==> id !in w.db.triggers
    ensures EntryOk(Do(w, s), e)
  {
  }

  lemma StepKeeps(w: World, s: Step)
    requires WorldOk(w) && Enabled(w, s)
    ensures WorldOk(Do(w, s))
  {
    if s.ApplyStep? {
      ApplyKeeps(w, s.snap, s.plan);
    } else {
      forall i | 0 <= i < |w.log| ensures EntryOk(Do(w, s), w.log[i]) {
        QuietEntries(w, s, w.log[i]);
      }
    }
  }

  lemma {:induction false} RunKeeps(w: World, steps: seq<Step>)
    requires WorldOk(w) && Runs(w, steps)
    ensures WorldOk(After(w, steps))
    decreases |steps|
  {
    if steps == [] {
    } else {
      StepKeeps(w, steps[0]);
      RunKeeps(Do(w, steps[0]), steps[1..]);
    }
  }

  // ---------------------------------------------------------------------
  // What every run promises
  // ---------------------------------------------------------------------

  /** Each trigger, version and ownership epoch sees at most one reschedule, and
      only first; the fires after it are for strictly increasing due epochs. */
  lemma FiresInOrder(w: World, steps: seq<Step>, i: nat, j: nat)
    requires Start(w) && Runs(w, steps) && i < j < |After(w, steps).log|
    requires SameSegment(After(w, steps).log[i].snap, After(w, steps).log[j].snap)
    ensures var a, b := After(w, steps).log[i].snap, After(w, steps).log[j].snap;
            && Due(b)
            && (Due(a) ==> a.event.next.value < b.event.next.value)
  {
    RunKeeps(w, steps);
  }

  /** The commit of a fire wrote exactly one row, the task of its plan, and that
      of a reschedule none; no two fires wrote the same row. */
  lemma OneTaskPerFire(w: World, steps: seq<Step>, i: nat, j: nat)
    requires Start(w) && Runs(w, steps) && i <= j < |After(w, steps).log|
    ensures var a, b := After(w, steps).log[i], After(w, steps).log[j];
            && Enqueues(a) && Enqueues(b)
            && (i < j && Due(a.snap) && Due(b.snap) ==> a.after.queue.counter < b.after.queue.counter)
  {
    RunKeeps(w, steps);
    var v := After(w, steps);
    assert EntryOk(v, v.log[i]) && EntryOk(v, v.log[j]);
    if i < j {
      assert Follows(v.log[i], v.log[j]);
    }
  }

  lemma StepCounts(w: World, s: Step, start: int)
    requires Enabled(w, s) && w.db.queue.counter == start + Fires(w.log) + w.outside
    ensures Do(w, s).db.queue.counter == start + Fires(Do(w, s).log) + Do(w, s).outside
  {
    if s.ApplyStep? && ValidPlan(s.snap, s.plan) && Current(w.db, s.snap) {
      ApplyCounts(w, s.snap, s.plan, Do(w, s));
    }
  }

  lemma FiresAppend(log: seq<Entry>, e: Entry)
    ensures Fires(log + [e]) == Fires(log) + (if Due(e.snap) then 1 else 0)
  {
    assert (log + [e])[..|log|] == log;
  }

  lemma ApplyCounts(w: World, snap: Snapshot, plan: Plan, w': World)
    requires ValidPlan(snap, plan) && Current(w.db, snap) && snap in w.snaps && w' == Do(w, ApplyStep(snap, plan))
    ensures Fires(w'.log) == Fires(w.log) + (if Due(snap) then 1 else 0) && w'.outside == w.outside
    ensures w'.db.queue.counter == w.db.queue.counter + (if Due(snap) then 1 else 0)
  {
    FiresAppend(w.log, w'.log[|w.log|]);
  }

  lemma {:induction false} RunCounts(w: World, steps: seq<Step>, start: int)
    requires Runs(w, steps) && w.db.queue.counter == start + Fires(w.log) + w.outside
    ensures After(w, steps).db.queue.counter == start + Fires(After(w, steps).log) + After(w, steps).outside
    decreases |steps|
  {
    if steps == [] {
    } else {
      StepCounts(w, steps[0], start);
      RunCounts(Do(w, steps[0]), steps[1..], start);
    }
  }

  /** Every id the queue handed out in a run went to a fire or to somebody else's
      enqueue: the scheduler's share is exactly one for each fire. */
  lemma QueueAccounted(w: World, steps: seq<Step>)
    requires Start(w) && Runs(w, steps)
    ensures After(w, steps).db.queue.counter == w.db.queue.counter + Fires(After(w, steps).log) + After(w, steps).outside
  {
    RunCounts(w, steps, w.db.queue.counter);
  }

  /** A snapshot is applied at most once, in any run. */
  lemma SnapshotOnce(w: World, steps: seq<Step>, i: nat, j: nat)
    requires Start(w) && Runs(w, steps) && i < j < |After(w, steps).log|
    ensures After(w, steps).log[i].snap != After(w, steps).log[j].snap
  {
    RunKeeps(w, steps);
    assert Follows(After(w, steps).log[i], After(w, steps).log[j]);
  }

  /** No event fires early. */
  lemma NeverEarly(w: World, steps: seq<Step>, snap: Snapshot, plan: Plan)
    requires Start(w) && Runs(w, steps) && snap in After(w, steps).snaps
    requires var v := After(w, steps); Apply(v.db, snap, plan, v.clock).1 == Applied && plan.fire
    ensures var v := After(w, steps); snap.event.next.value <= v.clock
  {
    RunKeeps(w, steps);
    assert SnapOk(snap, After(w, steps).clock);
  }

  /** Whatever else ran between scan and commit, a plan commits only while every row
      its snapshot saw is unchanged, and then moves queue, event and version
      together and nothing else. */
  lemma AtomicCommits(w: World, steps: seq<Step>, i: nat)
    requires Start(w) && Runs(w, steps) && i < |After(w, steps).log|
    ensures Enqueues(After(w, steps).log[i]) && Advances(After(w, steps).log[i])
  {
    RunKeeps(w, steps);
    assert EntryOk(After(w, steps), After(w, steps).log[i]);
  }

  // ---------------------------------------------------------------------
  // A tick is a run
  // ---------------------------------------------------------------------

  function TickStep(s: Snapshot, p: Option<Plan>): (step: Step) {
    if p.None? || !ValidPlan(s, p.value) then FailStep(s) else ApplyStep(s, p.value)
  }

  function TickSteps(snaps: seq<Snapshot>, plans: seq<Option<Plan>>): (steps: seq<Step>)
    requires |plans| == |snaps|
    ensures |steps| == |snaps|
    decreases |snaps|
  {
    if snaps == [] then [] else [TickStep(snaps[0], plans[0])] + TickSteps(snaps[1..], plans[1..])
  }

  lemma {:induction false} TickIsRun(w: World, snaps: seq<Snapshot>, plans: seq<Option<Plan>>)
    requires |plans| == |snaps| && forall i :: 0 <= i < |snaps| ==> snaps[i] in w.snaps
    ensures Runs(w, TickSteps(snaps, plans))
    ensures After(w, TickSteps(snaps, plans)).db == TickAll(w.db, snaps, plans, w.clock)
    decreases |snaps|
  {
    if snaps == [] {
    } else {
      var steps := TickSteps(snaps, plans);
      var w' := Do(w, steps[0]);
      assert w'.db == TickOne(w.db, snaps[0], plans[0], w.clock);
      TickIsRun(w', snaps[1..], plans[1..]);
      assert steps[1..] == TickSteps(snaps[1..], plans[1..]);
    }
  }
}
