/** What each transaction of the MySQL queue does to the rows, field by field, and
    that a task waiting to be leased is. */
module QueueEffects {
  import opened Options
  import opened QueueStore
  import opened QueueTypes
  import opened QueueRuns

  // ---------------------------------------------------------------------
  // New rows
  // ---------------------------------------------------------------------

  /** The row asks for what the request asked for, at its own priority or `priority`,
      and waits for a worker, from the requested time on. */
  ghost predicate Asked(t: Task, req: EnqueueRequest, priority: int) {
    && t.spec.taskClass == req.taskClass && t.spec.data == req.data
    && t.spec.objectPHID == req.objectPHID && t.spec.containerPHID == req.containerPHID
    && t.spec.priority == (match req.priority case Some(p) => p case None => priority)
    && t.owner == None && t.failureCount == 0 && t.failureTime == None
    && t.expires == (match req.delayUntil case Some(d) => if d > 0 then Some(d) else None case None => None)
  }

  /** The rows of `db` other than `id` are in `r` unchanged. */
  ghost predicate OthersKept(db: Db, r: Db, id: TaskId) {
    forall x :: x in db.active && x != id ==> x in r.active && r.active[x] == db.active[x]
  }

  lemma EnqueueEffect(db: Db, req: EnqueueRequest, now: int)
    requires Conserved(db)
    ensures var r := Enqueue(db, req, now);
            && r.counter == db.counter + 1 && r.active.Keys == db.active.Keys + {db.counter + 1}
            && Asked(r.active[db.counter + 1], req, 2000) && OthersKept(db, r, db.counter + 1)
            && r.archive == db.archive && r.inbox == db.inbox
  {
  }

  /** The first request of an event creates its task; repeating it answers that task
      and any other request for the event is refused, both without effect. */
  lemma EventEffect(db: Db, event: EventId, req: EnqueueRequest, again: EnqueueRequest, now: int, later: int)
    requires Conserved(db) && event !in db.inbox
    ensures var (r, reply) := EnqueueEvent(db, event, req, now);
            && reply.Created? && reply.id == db.counter + 1 == r.counter
            && r.active.Keys == db.active.Keys + {reply.id} && r.active[reply.id] == reply.task
            && Asked(reply.task, req, 2000) && OthersKept(db, r, reply.id) && r.archive == db.archive
            && EnqueueEvent(r, event, again, later) == (r, if again == req then reply else Conflict)
  {
  }

  // ---------------------------------------------------------------------
  // The fenced routes
  // ---------------------------------------------------------------------

  /** Who presents the owner and expiry of a row before that expiry finalizes it: the
      followups appear, in order and as asked, the task moves to the archive with
      its window, and nothing else changes.  Everyone else changes nothing, and is
      answered ok only for the window of an archived success. */
  lemma FinalizeEffect(db: Db, l: Lease, followups: seq<EnqueueRequest>, duration: int, now: int)
    requires Conserved(db)
    ensures var (r, ok) := Finalize(db, l, followups, duration, now);
            if l.task in db.active && db.active[l.task].owner == Some(l.owner)
               && db.active[l.task].expires == Some(l.expires) && l.expires > now
            then
              && ok && r.counter == db.counter + |followups| && r.inbox == db.inbox
              && (forall i :: 0 <= i < |followups| ==>
                    && db.counter + 1 + i in r.active
                    && Asked(r.active[db.counter + 1 + i], followups[i], db.active[l.task].spec.priority))
              && (forall id :: id in r.active ==> id in db.active || db.counter < id <= db.counter + |followups|)
              && l.task !in r.active && OthersKept(db, r, l.task)
              && l.task in r.archive && r.archive[l.task].result == Success && r.archive[l.task].duration == duration
              && r.archive[l.task].task == db.active[l.task].(modified := now)
              && r.archive == db.archive[l.task := r.archive[l.task]]
            else
              && r == db
              && (ok <==> l.task !in db.active && l.task in db.archive
                          && db.archive[l.task].task.owner == Some(l.owner)
                          && db.archive[l.task].task.expires == Some(l.expires)
                          && db.archive[l.task].result == Success)
  {
    if Holds(db, l, now) {
      var priority := db.active[l.task].spec.priority;
      EnqueueAllKeeps(db, followups, priority, now);
      forall i | 0 <= i < |followups|
        ensures var r := EnqueueAll(db, followups, priority, now);
                db.counter + 1 + i in r.active && Asked(r.active[db.counter + 1 + i], followups[i], priority)
      {
        ChildAt(db, followups, priority, now, i);
      }
    }
  }

  /** The holder's lease is extended and never cut short. */
  lemma RenewEffect(db: Db, l: Lease, duration: int, now: int)
    ensures var (r, expiry) := Renew(db, l, duration, now);
            if l.task in db.active && db.active[l.task].owner == Some(l.owner)
               && db.active[l.task].expires == Some(l.expires) && l.expires > now
            then
              && expiry.Some? && expiry.value >= l.expires && expiry.value >= now + duration
              && (expiry.value == l.expires || expiry.value == now + duration)
              && r == db.(active := db.active[l.task := db.active[l.task].(expires := expiry)])
            else expiry == None && r == db
  {
  }

  /** The row a task leaves behind that is given back. */
  ghost predicate GivenBack(t: Task, r: Task, how: Resolution, now: int) {
    && r.spec == t.spec && r.created == t.created && r.modified == now
    && (how.Retry? ==> r.owner == None && r.expires == Some(now + how.wait)
                       && r.failureCount == t.failureCount + 1 && r.failureTime == Some(now))
    && (how.YieldFor? ==> r.owner == Some(Yield) && r.failureCount == t.failureCount && r.failureTime == t.failureTime
                          && r.expires.Some? && r.expires.value >= now + 5 && r.expires.value >= now + how.duration
                          && (r.expires.value == now + 5 || r.expires.value == now + how.duration))
  }

  lemma ResolveEffect(db: Db, l: Lease, how: Resolution, now: int)
    requires Conserved(db)
    ensures var (r, ok) := Resolve(db, l, how, now);
            && (ok <==> l.task in db.active && db.active[l.task].owner == Some(l.owner)
                        && db.active[l.task].expires == Some(l.expires) && l.expires > now)
            && (!ok ==> r == db)
            && (ok ==> OthersKept(db, r, l.task) && r.counter == db.counter && r.inbox == db.inbox)
            && (ok && how.Fail? ==>
                  && r.active.Keys == db.active.Keys - {l.task}
                  && l.task in r.archive && r.archive[l.task].result == Failure
                  && r.archive[l.task].task.spec == db.active[l.task].spec
                  && r.archive == db.archive[l.task := r.archive[l.task]])
            && (ok && !how.Fail? ==>
                  && r.active.Keys == db.active.Keys && r.archive == db.archive
                  && GivenBack(db.active[l.task], r.active[l.task], how, now))
  {
  }

  // ---------------------------------------------------------------------
  // The unfenced routes
  // ---------------------------------------------------------------------

  lemma UnfencedEffect(db: Db, id: TaskId, result: Result, duration: int, how: Resolution, now: int)
    requires Conserved(db) && !how.Fail?
    ensures var (r, ok) := ArchiveTask(db, id, result, duration, now);
            && (ok <==> id in db.active)
            && (!ok ==> r == db)
            && (ok ==> && r.active.Keys == db.active.Keys - {id} && OthersKept(db, r, id)
                       && id in r.archive && r.archive == db.archive[id := r.archive[id]]
                       && r.archive[id].result == result && r.archive[id].duration == duration
                       && r.archive[id].task == db.active[id].(modified := now)
                       && r.counter == db.counter && r.inbox == db.inbox)
    ensures var r := Release(db, id, how, now);
            if id in db.active then
              && r.active.Keys == db.active.Keys && OthersKept(db, r, id)
              && GivenBack(db.active[id], r.active[id], how, now)
              && r.archive == db.archive && r.counter == db.counter && r.inbox == db.inbox
            else r == db
  {
  }

  /** Exactly the named tasks that yielded, never failed and are within the hour come
      forward, and become eligible for any lease from now on. */
  lemma AwakenEffect(db: Db, ids: set<TaskId>, now: int, id: TaskId)
    requires id in db.active
    ensures var r, t := Awaken(db, ids, now), db.active[id];
            && r.active.Keys == db.active.Keys
            && r.active[id] == (if id in ids && t.owner == Some(Yield) && t.failureCount == 0
                                   && t.expires.Some? && t.expires.value > now - 3600
                                then t.(expires := Some(now - 3600)) else t)
            && r == db.(active := r.active)
  {
  }

  // ---------------------------------------------------------------------
  // A waiting task is leased
  // ---------------------------------------------------------------------

  /** Nobody has leased the task; it may be delayed. */
  ghost predicate Waits(w: World, id: TaskId, spec: Spec, until: Option<int>) {
    id in w.db.active && w.db.active[id].owner == None && w.db.active[id].expires == until && w.db.active[id].spec == spec
  }

  /** The step may lease, archive or give back the task. */
  predicate Touches(step: Step, id: TaskId) {
    match step
    case LeaseNew(_, ids, _) => id in ids
    case LeaseExpired(_, ids, _) => id in ids
    case ArchiveStep(x, _, _) => x == id
    case ReleaseStep(x, _) => x == id
    case _ => false
  }

  lemma StepLetsWait(w: World, step: Step, id: TaskId, spec: Spec, until: Option<int>)
    requires Conserved(w.db) && Enabled(w, step) && Waits(w, id, spec, until) && !Touches(step, id)
    ensures Waits(Do(w, step), id, spec, until)
  {
    if step.FinalizeStep? && Holds(w.db, step.l, w.clock) {
      EnqueueAllKeeps(w.db, step.followups, w.db.active[step.l.task].spec.priority, w.clock);
    }
  }

  lemma {:induction false} RunLetsWait(w: World, steps: seq<Step>, id: TaskId, spec: Spec, until: Option<int>)
    requires Conserved(w.db) && Runs(w, steps) && Waits(w, id, spec, until)
    requires forall i :: 0 <= i < |steps| ==> !Touches(steps[i], id)
    ensures Waits(After(w, steps), id, spec, until) && Conserved(After(w, steps).db)
    decreases |steps|
  {
    if steps == [] {
    } else {
      StepLetsWait(w, steps[0], id, spec, until);
      StepConserves(w, steps[0]);
      RunLetsWait(Do(w, steps[0]), steps[1..], id, spec, until);
    }
  }

  /** The UPDATE that lists a waiting task: the first for one without delay, the second
      once its time has come. */
  function Taking(call: nat, ids: set<TaskId>, duration: int, until: Option<int>): (step: Step) {
    if until.None? then LeaseNew(call, ids, duration) else LeaseExpired(call, ids, duration)
  }

  lemma WaitingIsLeased(w: World, id: TaskId, spec: Spec, until: Option<int>, call: nat, ids: set<TaskId>, duration: int)
    requires Waits(w, id, spec, until) && id in ids && call in w.calls
    requires w.calls[call].now + duration > w.clock >= w.calls[call].now
    requires until.Some? ==> until.value < w.calls[call].now
    ensures Leased(w, id, spec, Taking(call, ids, duration, until), call, duration)
  {
    var step := Taking(call, ids, duration, until);
    var w', l := Do(w, step), Lease(id, w.calls[call].owner, w.calls[call].now + duration);
    assert w'.db.active[id] == w.db.active[id].(owner := Some(l.owner), expires := Some(l.expires));
    FetchGrants(w', id, l, call);
  }

  lemma FetchGrants(w: World, id: TaskId, l: Lease, call: nat)
    requires call in w.calls && id in w.calls[call].ids && l.task == id && l.owner == w.calls[call].owner
    requires Holds(w.db, l, w.calls[call].now)
    ensures Enabled(w, LeaseFetch(call, {id})) && l in Do(w, LeaseFetch(call, {id})).grants
  {
  }

  /** `step` leases the task to the caller, who can fetch it. */
  ghost predicate Leased(w: World, id: TaskId, spec: Spec, step: Step, call: nat, duration: int) {
    && call in w.calls && Enabled(w, step)
    && var w', l := Do(w, step), Lease(id, w.calls[call].owner, w.calls[call].now + duration);
    && Holds(w'.db, l, w'.clock) && w'.db.active[id].spec == spec
    && Enabled(w', LeaseFetch(call, {id})) && l in Do(w', LeaseFetch(call, {id})).grants
  }

  /** A task that was enqueued and then left alone, whatever else ran, is leased by the
      first call that selects it, once its delay is over, and handed to that caller. */
  lemma EnqueuedIsLeased(past: seq<Step>, req: EnqueueRequest, until: Option<int>, between: seq<Step>, call: nat,
                         ids: set<TaskId>, duration: int)
    requires Runs(START, past) && Runs(Do(After(START, past), EnqueueStep(req)), between)
    requires until == match req.delayUntil case Some(d) => (if d > 0 then Some(d) else None) case None => None
    requires var id := After(START, past).db.counter + 1;
             id in ids && forall i :: 0 <= i < |between| ==> !Touches(between[i], id)
    requires var w := After(Do(After(START, past), EnqueueStep(req)), between);
             && call in w.calls && w.calls[call].now + duration > w.clock >= w.calls[call].now
             && (until.Some? ==> until.value < w.calls[call].now)
    ensures var w := After(Do(After(START, past), EnqueueStep(req)), between);
            Leased(w, After(START, past).db.counter + 1, SpecOf(req), Taking(call, ids, duration, until), call, duration)
  {
    var w0 := After(START, past);
    IdsConserved(START, past);
    var id, w1 := w0.db.counter + 1, Do(w0, EnqueueStep(req));
    StepConserves(w0, EnqueueStep(req));
    RunLetsWait(w1, between, id, SpecOf(req), until);
    WaitingIsLeased(After(w1, between), id, SpecOf(req), until, call, ids, duration);
  }
}
