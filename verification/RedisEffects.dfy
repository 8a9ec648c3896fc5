/** What each script of the Redis queue does to the keys, field by field, and that
    a finalization stays done. */
module RedisEffects {
  import opened Numbers
  import opened Options
  import opened QueueTypes
  import opened RedisQueue
  import opened RedisIndex
  import opened RedisRuns

  // ---------------------------------------------------------------------
  // New tasks
  // ---------------------------------------------------------------------

  /** The task is stored as asked, at its own priority or `priority`, scored by
      priority and id, and filed under its delay or as unleased. */
  ghost predicate Filed(k: Keys, id: int, req: EnqueueRequest, priority: int) {
    var p := match req.priority case Some(own) => own case None => priority;
    var delayed := req.delayUntil.Some? && req.delayUntil.value > 0;
    && id in k.tasks && id in k.active && k.active[id] == p * 1_000_000_000_000 + id
    && k.tasks[id] == Hash(Some(req.taskClass), Some(p), None, if delayed then req.delayUntil else None, Some(0), None)
    && (delayed ==> id in k.leased && k.leased[id] == req.delayUntil.value && id !in k.unleased)
    && (!delayed ==> id in k.unleased && k.unleased[id] == k.active[id] && id !in k.leased)
  }

  /** A member of both sorted sets, with one score, or of neither. */
  ghost predicate SameScore(a: Index, b: Index, id: int) {
    (id in a <==> id in b) && (id in a ==> a[id] == b[id])
  }

  /** A task is in both states, the same and filed the same, or in neither. */
  ghost predicate Untouched(k: Keys, r: Keys, id: int) {
    && (id in k.tasks <==> id in r.tasks) && (id in k.tasks ==> k.tasks[id] == r.tasks[id])
    && SameScore(k.active, r.active, id) && SameScore(k.unleased, r.unleased, id) && SameScore(k.leased, r.leased, id)
  }

  ghost predicate SameArchive(k: Keys, r: Keys) {
    r.archived == k.archived && r.archive == k.archive && r.archivedCount == k.archivedCount
  }

  /** Ids that were not handed out are filed nowhere. */
  ghost predicate NothingAbove(k: Keys) {
    forall id :: id > k.nextId ==> id !in k.leased && id !in k.unleased
  }

  lemma IndexedBelow(k: Keys, latest: int)
    requires IndexOk(k, latest)
    ensures NothingAbove(k)
  {
    forall id | id in k.leased || id in k.unleased ensures id <= k.nextId {
      assert TaskOk(k, id, latest);
    }
  }

  lemma CreateFiles(k: Keys, req: EnqueueRequest, priority: int)
    requires k.nextId + 1 !in k.leased && k.nextId + 1 !in k.unleased
    ensures Filed(Create(k, req, Or(req.priority, priority)), k.nextId + 1, req, priority)
  {
  }

  lemma CreateSpares(k: Keys, req: EnqueueRequest, priority: int, id: int)
    requires id != k.nextId + 1
    ensures Untouched(k, Create(k, req, priority), id)
  {
  }

  lemma {:induction false} CreateAllCounts(k: Keys, children: seq<EnqueueRequest>, priority: int)
    ensures var r := CreateAll(k, children, priority);
            r.nextId == k.nextId + |children| && SameArchive(k, r) && r.failed == k.failed && r.inbox == k.inbox
    decreases |children|
  {
    if children == [] {
    } else {
      CreateAllCounts(k, children[..|children| - 1], priority);
    }
  }

  lemma {:induction false} CreateAllSpares(k: Keys, children: seq<EnqueueRequest>, priority: int, id: int)
    requires id <= k.nextId || id > k.nextId + |children|
    ensures Untouched(k, CreateAll(k, children, priority), id)
    decreases |children|
  {
    if children == [] {
    } else {
      CreateAllSpares(k, children[..|children| - 1], priority, id);
      CreateAllCounts(k, children[..|children| - 1], priority);
    }
  }

  lemma FiledStays(k: Keys, r: Keys, id: int, req: EnqueueRequest, priority: int)
    requires Filed(k, id, req, priority) && Untouched(k, r, id)
    ensures Filed(r, id, req, priority)
  {
  }

  lemma {:induction false} CreateAllFiles(k: Keys, children: seq<EnqueueRequest>, priority: int, i: nat)
    requires NothingAbove(k) && i < |children|
    ensures Filed(CreateAll(k, children, priority), k.nextId + 1 + i, children[i], priority)
    decreases |children|
  {
    var init, child := children[..|children| - 1], children[|children| - 1];
    var before := CreateAll(k, init, priority);
    CreateAllCounts(k, init, priority);
    if i < |init| {
      CreateAllFiles(k, init, priority, i);
      CreateSpares(before, child, Or(child.priority, priority), k.nextId + 1 + i);
      FiledStays(before, CreateAll(k, children, priority), k.nextId + 1 + i, children[i], priority);
    } else {
      CreateAllSpares(k, init, priority, before.nextId + 1);
      CreateFiles(before, child, priority);
    }
  }

  /** The first request of an event creates its task; repeating it answers that task
      and any other request for the event is refused, both without effect. */
  lemma EventEffect(k: Keys, event: EventId, req: EnqueueRequest, again: EnqueueRequest, latest: int)
    requires IndexOk(k, latest) && event !in k.inbox
    ensures var (r, answer) := AcceptEvent(k, event, req);
            && r.nextId == k.nextId + 1 && answer == EventAnswer.Accepted(r.nextId) && Filed(r, r.nextId, req, 2000)
            && (forall id :: id != r.nextId ==> Untouched(k, r, id)) && SameArchive(k, r) && r.failed == k.failed
            && AcceptEvent(r, event, again) == (r, if again == req then answer else Refused)
  {
    IndexedBelow(k, latest);
    CreateFiles(k, req, PRIORITY_DEFAULT);
  }

  // ---------------------------------------------------------------------
  // Ends of a task
  // ---------------------------------------------------------------------

  /** The hash moved to the archive with its result, and out of every index. */
  ghost predicate MovedToArchive(k: Keys, r: Keys, id: int, result: Result, duration: int, now: int)
    requires id in k.tasks
  {
    && id !in r.tasks && id !in r.active && id !in r.unleased && id !in r.leased
    && r.archived == k.archived[id := Copy(k.tasks[id], result, duration, now)]
    && r.archive == k.archive[id := now] && r.archivedCount == k.archivedCount + 1
    && r.failed == k.failed - (match k.tasks[id].failures case Some(n) => (if n > 0 then 1 else 0) case None => 0)
    && r.inbox == k.inbox
  }

  lemma ArchiveSpares(k: Keys, id: int, result: Result, duration: int, now: int, x: int)
    requires id in k.tasks && x != id
    ensures Untouched(k, Archive(k, id, result, duration, now), x)
  {
  }

  lemma ArchiveEffect(k: Keys, id: int, result: Result, duration: int, now: int)
    requires id in k.tasks
    ensures var r := Archive(k, id, result, duration, now);
            && MovedToArchive(k, r, id, result, duration, now) && r.nextId == k.nextId
            && (forall x :: x != id ==> Untouched(k, r, x))
  {
  }

  /** The children appear, in order and as asked, the task moves to the archive, and
      nothing else changes. */
  ghost predicate Finalized(k: Keys, r: Keys, id: int, priority: int, duration: int, children: seq<EnqueueRequest>,
                            now: int)
    requires id in k.tasks
  {
    && r.nextId == k.nextId + |children|
    && (forall i :: 0 <= i < |children| ==> Filed(r, k.nextId + 1 + i, children[i], priority))
    && (forall x :: x != id && (x <= k.nextId || x > r.nextId) ==> Untouched(k, r, x))
    && MovedToArchive(k, r, id, Success, duration, now)
  }

  lemma UntouchedBoth(k: Keys, mid: Keys, r: Keys, id: int)
    requires Untouched(k, mid, id) && Untouched(mid, r, id)
    ensures Untouched(k, r, id)
  {
  }

  /** What archiving leaves of the tasks that were just created. */
  lemma FinalizedFiles(k: Keys, mid: Keys, id: int, priority: int, duration: int, children: seq<EnqueueRequest>, now: int,
                       i: nat)
    requires NothingAbove(k) && mid == CreateAll(k, children, priority) && id in mid.tasks && id <= k.nextId
    requires i < |children|
    ensures Filed(Archive(mid, id, Success, duration, now), k.nextId + 1 + i, children[i], priority)
  {
    CreateAllFiles(k, children, priority, i);
    ArchiveSpares(mid, id, Success, duration, now, k.nextId + 1 + i);
    FiledStays(mid, Archive(mid, id, Success, duration, now), k.nextId + 1 + i, children[i], priority);
  }

  lemma FinalizedSpares(k: Keys, mid: Keys, id: int, priority: int, duration: int, children: seq<EnqueueRequest>, now: int,
                        x: int)
    requires mid == CreateAll(k, children, priority) && id in mid.tasks && x != id
    requires x <= k.nextId || x > k.nextId + |children|
    ensures Untouched(k, Archive(mid, id, Success, duration, now), x)
  {
    CreateAllSpares(k, children, priority, x);
    ArchiveSpares(mid, id, Success, duration, now, x);
    UntouchedBoth(k, mid, Archive(mid, id, Success, duration, now), x);
  }

  lemma FinalizedMoves(k: Keys, mid: Keys, id: int, duration: int, now: int)
    requires id in k.tasks && id in mid.tasks && mid.tasks[id] == k.tasks[id]
    requires SameArchive(k, mid) && mid.failed == k.failed && mid.inbox == k.inbox
    ensures MovedToArchive(k, Archive(mid, id, Success, duration, now), id, Success, duration, now)
  {
  }

  lemma HolderFinalizes(k: Keys, mid: Keys, r: Keys, id: int, priority: int, duration: int,
                        children: seq<EnqueueRequest>, now: int, latest: int)
    requires IndexOk(k, latest) && id in k.tasks && mid == CreateAll(k, children, priority)
    requires id in mid.tasks && r == Archive(mid, id, Success, duration, now)
    ensures Finalized(k, r, id, priority, duration, children, now)
  {
    IndexedBelow(k, latest);
    assert TaskOk(k, id, latest);
    CreateAllCounts(k, children, priority);
    CreateAllSpares(k, children, priority, id);
    FinalizedMoves(k, mid, id, duration, now);
    forall i | 0 <= i < |children| ensures Filed(r, k.nextId + 1 + i, children[i], priority) {
      FinalizedFiles(k, mid, id, priority, duration, children, now, i);
    }
    forall x | x != id && (x <= k.nextId || x > r.nextId) ensures Untouched(k, r, x) {
      FinalizedSpares(k, mid, id, priority, duration, children, now, x);
    }
  }

  /** Who presents the owner and expiry of a task before that expiry finalizes it, with
      the children at their own priority or the task's.  Everyone else changes nothing,
      and is answered ok only for the window of an archived success. */
  lemma FinalizeEffect(k: Keys, id: int, owner: Owner, expiry: int, duration: int, children: seq<EnqueueRequest>,
                       now: int, latest: int)
    requires IndexOk(k, latest)
    ensures var (r, ok) := FinalizeScript(k, id, owner, expiry, duration, children, now);
            if id in k.tasks && k.tasks[id].owner == Some(owner) && k.tasks[id].expires == Some(expiry) && expiry > now
            then
              && ok && k.tasks[id].priority.Some?
              && Finalized(k, r, id, k.tasks[id].priority.value, duration, children, now)
            else
              && r == k
              && (ok <==> id !in k.tasks && id in k.archived && k.archived[id].result == Success
                          && k.archived[id].hash.owner == Some(owner) && k.archived[id].hash.expires == Some(expiry))
  {
    if HoldsLease(k, id, owner, expiry, now) {
      assert TaskOk(k, id, latest);
      var priority := k.tasks[id].priority.value;
      var mid := CreateAll(k, children, priority);
      HolderFinalizes(k, mid, Archive(mid, id, Success, duration, now), id, priority, duration, children, now, latest);
    }
  }

  // ---------------------------------------------------------------------
  // Renewing and giving back
  // ---------------------------------------------------------------------

  /** Only this task's hash changes, and where it is filed: under `leased`. */
  ghost predicate Refiled(k: Keys, r: Keys, id: int, h: Hash, expires: int) {
    && r.tasks == k.tasks[id := h] && h.expires == Some(expires)
    && r.leased == k.leased[id := expires] && r.unleased == k.unleased - {id} && r.active == k.active
    && SameArchive(k, r) && r.nextId == k.nextId && r.inbox == k.inbox
  }

  /** The holder's lease is extended and never cut short. */
  lemma RenewEffect(k: Keys, id: int, owner: Owner, expiry: int, duration: int, now: int, latest: int)
    requires IndexOk(k, latest) && now >= latest - AWAKEN_WINDOW
    ensures var (r, extended) := RenewScript(k, id, owner, expiry, duration, now);
            if id in k.tasks && k.tasks[id].owner == Some(owner) && k.tasks[id].expires == Some(expiry) && expiry > now
            then
              && extended.Some? && extended.value >= expiry && extended.value >= now + duration
              && (extended.value == expiry || extended.value == now + duration)
              && Refiled(k, r, id, k.tasks[id].(expires := extended), extended.value) && r.failed == k.failed
            else extended == None && r == k
  {
    if HoldsLease(k, id, owner, expiry, now) {
      HeldIsLeased(k, id, owner, expiry, now, latest);
      assert k.unleased - {id} == k.unleased;
    }
  }

  /** A failed task waits, without an owner, with one failure more on its record and,
      at its first, on the counter. */
  lemma RetryEffect(k: Keys, id: int, wait: int, now: int)
    requires id in k.tasks
    ensures var r, h := Retry(k, id, wait, now), k.tasks[id];
            var n := match h.failures case Some(n) => n case None => 0;
            && Refiled(k, r, id, h.(owner := None, expires := Some(now + wait), failures := Some(n + 1),
                                    failureTime := Some(now)), now + wait)
            && r.failed == if n == 0 then k.failed + 1 else k.failed
  {
  }

  /** A yielded task waits, under the name of the yield, at least five seconds. */
  lemma YieldEffect(k: Keys, id: int, duration: int, now: int)
    requires id in k.tasks
    ensures var r, until := YieldTask(k, id, duration, now), now + (if duration < 5 then 5 else duration);
            Refiled(k, r, id, k.tasks[id].(owner := Some(Yield), expires := Some(until)), until) && r.failed == k.failed
  {
  }

  lemma ResolveEffect(k: Keys, id: int, owner: Owner, expiry: int, outcome: Outcome, wait: int, now: int)
    ensures var (r, ok) := ResolveScript(k, id, owner, expiry, outcome, wait, now);
            && (ok <==> id in k.tasks && k.tasks[id].owner == Some(owner) && k.tasks[id].expires == Some(expiry)
                        && expiry > now)
            && (!ok ==> r == k)
            && (ok && outcome.Fails? ==>
                  MovedToArchive(k, r, id, Failure, 0, now) && r.nextId == k.nextId
                  && forall x :: x != id ==> Untouched(k, r, x))
            && (ok && outcome.Retries? ==> r == Retry(k, id, wait, now))
            && (ok && outcome.Yields? ==> r == YieldTask(k, id, wait, now))
  {
    if HoldsLease(k, id, owner, expiry, now) && outcome.Fails? {
      ArchiveEffect(k, id, Failure, 0, now);
    }
  }

  /** Exactly a task that yielded, never failed and is within the hour comes forward:
      it is unleased again, in its place by priority. */
  lemma WakeEffect(k: Keys, id: int, epochAgo: int)
    ensures var r := WakeOne(k, id, epochAgo);
            if id in k.tasks && k.tasks[id].owner == Some(Yield) && k.tasks[id].failures == Some(0)
               && k.tasks[id].expires.Some? && k.tasks[id].expires.value > epochAgo
            then
              var p := match k.tasks[id].priority case Some(p) => p case None => 2000;
              r == k.(tasks := k.tasks[id := k.tasks[id].(expires := Some(epochAgo))], leased := k.leased - {id},
                      unleased := k.unleased[id := p * 1_000_000_000_000 + id])
            else r == k
  {
  }

  // ---------------------------------------------------------------------
  // A finalization stays done
  // ---------------------------------------------------------------------

  ghost predicate SameCopy(k: Keys, r: Keys, id: int) {
    id in k.archived && id in r.archived && r.archived[id] == k.archived[id]
  }

  lemma LeaseKeepsCopy(k: Keys, b: Batch, now: int, latest: int, id: int)
    requires IndexOk(k, latest) && Walks(k, b, now) && id in k.archived
    ensures SameCopy(k, LeaseBatch(k, b).0, id)
  {
    FirstAreTasks(k, b);
    ClaimOnlyNew(k, First(k, b), b.owner, b.expires);
    ClaimKeeps(k, First(k, b), b.owner, b.expires, latest);
    SecondAreTasks(Claimed(k, b), b, now, b.limit - |First(k, b)|);
    ReclaimOnlyNew(Claimed(k, b), Second(k, b), b.owner, b.expires);
  }

  lemma FinalizeKeepsCopy(k: Keys, x: int, owner: Owner, expiry: int, duration: int, children: seq<EnqueueRequest>,
                          now: int, latest: int, id: int)
    requires IndexOk(k, latest) && id in k.archived
    ensures SameCopy(k, FinalizeScript(k, x, owner, expiry, duration, children, now).0, id)
  {
    if HoldsLease(k, x, owner, expiry, now) {
      assert TaskOk(k, x, latest);
      CreateAllCounts(k, children, Or(k.tasks[x].priority, PRIORITY_DEFAULT));
    }
  }

  /** An archived task is not among the tasks, so no script archives it again. */
  lemma ArchivedIsGone(k: Keys, latest: int, id: int)
    requires IndexOk(k, latest) && id in k.archived
    ensures id !in k.tasks
  {
    assert id in k.tasks ==> TaskOk(k, id, latest);
  }

  lemma StepKeepsCopy(w: World, s: Step, id: int)
    requires WorldOk(w) && Enabled(w, s) && id in w.keys.archived
    ensures SameCopy(w.keys, Do(w, s).keys, id)
  {
    ArchivedIsGone(w.keys, w.latest, id);
    match s.action
    case LeaseAction(b) => LeaseKeepsCopy(w.keys, b, s.now, w.latest, id);
    case AwakenAction(ids) => WakeOnlyNew(w.keys, ids, s.now - AWAKEN_WINDOW);
    case FinalizeAction(x, owner, expiry, duration, children) =>
      FinalizeKeepsCopy(w.keys, x, owner, expiry, duration, children, s.now, w.latest, id);
    case _ =>
  }

  lemma {:induction false} RunKeepsCopy(w: World, steps: seq<Step>, id: int)
    requires WorldOk(w) && Runs(w, steps) && id in w.keys.archived
    ensures SameCopy(w.keys, After(w, steps).keys, id) && id !in After(w, steps).keys.tasks
    decreases |steps|
  {
    if steps == [] {
      ArchivedIsGone(w.keys, w.latest, id);
    } else {
      StepKeepsCopy(w, steps[0], id);
      StepKeeps(w, steps[0]);
      RunKeepsCopy(Do(w, steps[0]), steps[1..], id);
    }
  }

  /** A copy of a task that its holder has finalized. */
  ghost predicate Receipt(k: Keys, id: int, owner: Owner, expiry: int) {
    id in k.archived && Owns(k.archived[id].hash, owner, expiry) && k.archived[id].result == Success
  }

  lemma FinalizeLeavesReceipt(k: Keys, id: int, owner: Owner, expiry: int, duration: int,
                              children: seq<EnqueueRequest>, now: int, latest: int)
    requires IndexOk(k, latest) && HoldsLease(k, id, owner, expiry, now)
    ensures Receipt(FinalizeScript(k, id, owner, expiry, duration, children, now).0, id, owner, expiry)
  {
    FinalizeEffect(k, id, owner, expiry, duration, children, now, latest);
  }

  lemma ReceiptReplays(k: Keys, id: int, owner: Owner, expiry: int, duration: int, children: seq<EnqueueRequest>, now: int)
    requires Receipt(k, id, owner, expiry) && id !in k.tasks
    ensures FinalizeScript(k, id, owner, expiry, duration, children, now) == (k, true)
  {
  }

  lemma WorldReplays(w: World, id: int, owner: Owner, expiry: int, duration: int, children: seq<EnqueueRequest>,
                     now: int, between: seq<Step>, again: seq<EnqueueRequest>, duration': int, later: int)
    requires WorldOk(w) && HoldsLease(w.keys, id, owner, expiry, now)
    requires var s := Step(now, FinalizeAction(id, owner, expiry, duration, children));
             Enabled(w, s) && Runs(Do(w, s), between)
    ensures var k := After(Do(w, Step(now, FinalizeAction(id, owner, expiry, duration, children))), between).keys;
            FinalizeScript(k, id, owner, expiry, duration', again, later) == (k, true)
  {
    var s := Step(now, FinalizeAction(id, owner, expiry, duration, children));
    FinalizeLeavesReceipt(w.keys, id, owner, expiry, duration, children, now, w.latest);
    StepKeeps(w, s);
    RunKeepsCopy(Do(w, s), between, id);
    ReceiptReplays(After(Do(w, s), between).keys, id, owner, expiry, duration', again, later);
  }

  /** Once the holder has finalized a task, a repetition of the call, after whatever
      else ran and with whatever children, answers ok and creates nothing. */
  lemma FinalizeReplays(past: seq<Step>, id: int, owner: Owner, expiry: int, duration: int,
                        children: seq<EnqueueRequest>, now: int, between: seq<Step>, again: seq<EnqueueRequest>,
                        duration': int, later: int)
    requires Runs(START, past) && HoldsLease(After(START, past).keys, id, owner, expiry, now)
    requires var s := Step(now, FinalizeAction(id, owner, expiry, duration, children));
             Enabled(After(START, past), s) && Runs(Do(After(START, past), s), between)
    ensures var s := Step(now, FinalizeAction(id, owner, expiry, duration, children));
            var k := After(Do(After(START, past), s), between).keys;
            FinalizeScript(k, id, owner, expiry, duration', again, later) == (k, true)
  {
    RunKeeps(START, past);
    WorldReplays(After(START, past), id, owner, expiry, duration, children, now, between, again, duration', later);
  }

  /** A matching expired lease that stays behind found the script full. */
  lemma ExpiredAreServed(k: Keys, b: Batch, now: int, x: int)
    requires Walks(k, b, now) && x in Claimed(k, b).leased && Claimed(k, b).leased[x] <= now
    requires Matches(Claimed(k, b).tasks, x, b.classes) && x !in Second(k, b)
    ensures |LeaseBatch(k, b).1| >= b.limit
  {
    var i :| 0 <= i < |b.expired| && b.expired[i] == x;
    PicksGreedy(Claimed(k, b).tasks, b.expired, b.classes, b.limit - |First(k, b)|, i);
  }
}
