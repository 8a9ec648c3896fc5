/** The index invariant of the Redis queue, kept by every script. */
module RedisIndex {
  import opened Numbers
  import opened Options
  import opened QueueTypes
  import opened RedisQueue

  predicate HasFailed(h: Hash) {
    Or(h.failures, 0) > 0
  }

  function Failing(tasks: map<int, Hash>): (s: set<int>) {
    set id | id in tasks && HasFailed(tasks[id])
  }

  /** A hash every script can read: each field that is compared was written. */
  predicate WellFormed(h: Hash) {
    && h.taskClass.Some? && h.priority.Some?
    && h.failures.Some? && h.failures.value >= 0
    && (h.owner == Some(Yield) ==> h.expires.Some?)
  }

  /** One task and the indexes.  `latest` is the newest clock reading so far: an
      unleased task has no expiry, or one that was over a full hour before. */
  predicate TaskOk(k: Keys, id: int, latest: int)
    requires id in k.tasks
  {
    var h := k.tasks[id];
    && WellFormed(h)
    && 1 <= id <= k.nextId && id !in k.archived
    && id in k.active && k.active[id] == ActiveScore(h.priority.value, id)
    && (id in k.leased <==> id !in k.unleased)
    && (id in k.leased ==> h.expires == Some(k.leased[id]))
    && (id in k.unleased ==> k.unleased[id] == k.active[id])
    && (id in k.unleased && h.expires.Some? ==> h.expires.value <= latest - AWAKEN_WINDOW)
  }

  ghost predicate TasksOk(k: Keys, latest: int) {
    forall id :: id in k.tasks ==> TaskOk(k, id, latest)
  }

  predicate NoStrays(k: Keys) {
    k.active.Keys <= k.tasks.Keys && k.unleased.Keys <= k.tasks.Keys && k.leased.Keys <= k.tasks.Keys
  }

  ghost predicate ArchiveOk(k: Keys) {
    && k.archive.Keys == k.archived.Keys
    && k.archivedCount == |k.archived|
    && k.nextId >= 0
    && (forall id :: id in k.archived ==> 1 <= id <= k.nextId)
  }

  ghost predicate IndexOk(k: Keys, latest: int) {
    TasksOk(k, latest) && NoStrays(k) && ArchiveOk(k) && k.failed == |Failing(k.tasks)|
  }

  /** What the invariant says of the indexes as sets. */
  lemma ActiveIsTasks(k: Keys, latest: int)
    requires TasksOk(k, latest) && NoStrays(k)
    ensures k.active.Keys == k.tasks.Keys
  {
    forall id | id in k.tasks.Keys ensures id in k.active.Keys {
      assert TaskOk(k, id, latest);
    }
  }

  lemma LeasesPartition(k: Keys, latest: int)
    requires TasksOk(k, latest) && NoStrays(k)
    ensures k.unleased.Keys + k.leased.Keys == k.tasks.Keys && k.unleased.Keys !! k.leased.Keys
  {
    forall id | id in k.tasks.Keys ensures id in k.leased.Keys <==> id !in k.unleased.Keys {
      assert TaskOk(k, id, latest);
    }
  }

  // ---------------------------------------------------------------------
  // Counting
  // ---------------------------------------------------------------------

  lemma FailingUpdated(tasks: map<int, Hash>, id: int, h: Hash)
    ensures |Failing(tasks[id := h])|
            == |Failing(tasks)| - (if id in tasks && HasFailed(tasks[id]) then 1 else 0) + (if HasFailed(h) then 1 else 0)
  {
    var rest := Failing(tasks) - {id};
    if HasFailed(h) {
      assert Failing(tasks[id := h]) == rest + {id};
    } else {
      assert Failing(tasks[id := h]) == rest;
    }
  }

  lemma FailingRemoved(tasks: map<int, Hash>, id: int)
    requires id in tasks
    ensures |Failing(tasks - {id})| == |Failing(tasks)| - (if HasFailed(tasks[id]) then 1 else 0)
  {
    assert Failing(tasks - {id}) == Failing(tasks) - {id};
  }

  lemma OneMore<V>(m: map<int, V>, id: int, v: V)
    ensures m[id := v].Keys == m.Keys + {id}
    ensures id !in m ==> |m[id := v]| == |m| + 1
  {
  }

  // ---------------------------------------------------------------------
  // The scripts keep the invariant
  // ---------------------------------------------------------------------

  /** A fresh id was handed out and its task is written. */
  lemma InsertKeeps(k: Keys, id: int, req: EnqueueRequest, priority: int, latest: int)
    requires IndexOk(k, latest) && 1 <= id <= k.nextId && id !in k.tasks && id !in k.archived
    ensures IndexOk(Insert(k, id, req, priority), latest)
  {
    FailingUpdated(k.tasks, id, NewHash(req, priority));
  }

  lemma BumpKeeps(k: Keys, latest: int)
    requires IndexOk(k, latest)
    ensures IndexOk(k.(nextId := k.nextId + 1), latest)
    ensures k.nextId + 1 !in k.tasks && k.nextId + 1 !in k.archived
  {
    var k' := k.(nextId := k.nextId + 1);
    forall id | id in k'.tasks ensures TaskOk(k', id, latest) {
      assert TaskOk(k, id, latest);
    }
  }

  lemma CreateKeeps(k: Keys, req: EnqueueRequest, priority: int, latest: int)
    requires IndexOk(k, latest)
    ensures IndexOk(Create(k, req, priority), latest)
  {
    BumpKeeps(k, latest);
    InsertKeeps(k.(nextId := k.nextId + 1), k.nextId + 1, req, priority, latest);
  }

  lemma {:induction false} CreateAllKeeps(k: Keys, children: seq<EnqueueRequest>, priority: int, latest: int)
    requires IndexOk(k, latest)
    ensures IndexOk(CreateAll(k, children, priority), latest)
    decreases |children|
  {
    if children == [] {
    } else {
      var child := children[|children| - 1];
      CreateAllKeeps(k, children[..|children| - 1], priority, latest);
      CreateKeeps(CreateAll(k, children[..|children| - 1], priority), child, Or(child.priority, priority), latest);
    }
  }

  lemma EventKeeps(k: Keys, event: EventId, req: EnqueueRequest, latest: int)
    requires IndexOk(k, latest)
    ensures IndexOk(AcceptEvent(k, event, req).0, latest)
  {
    if event !in k.inbox {
      var k' := Create(k, req, Or(req.priority, PRIORITY_DEFAULT));
      CreateKeeps(k, req, Or(req.priority, PRIORITY_DEFAULT), latest);
      SameTasks(k', AcceptEvent(k, event, req).0, latest);
    }
  }

  /** The inbox is no part of the invariant. */
  lemma SameTasks(k: Keys, k': Keys, latest: int)
    requires IndexOk(k, latest) && k' == k.(inbox := k'.inbox)
    ensures IndexOk(k', latest)
  {
    forall id | id in k'.tasks ensures TaskOk(k', id, latest) {
      assert TaskOk(k, id, latest);
    }
  }

  lemma ArchiveKeeps(k: Keys, id: int, result: Result, duration: int, now: int, latest: int)
    requires IndexOk(k, latest) && id in k.tasks
    ensures IndexOk(Archive(k, id, result, duration, now), latest)
  {
    assert TaskOk(k, id, latest);
    FailingRemoved(k.tasks, id);
    ArchiveGrows(k, Archive(k, id, result, duration, now), id, Copy(k.tasks[id], result, duration, now), now);
    RestOk(k, Archive(k, id, result, duration, now), id, latest);
  }

  lemma ArchiveGrows(k: Keys, k': Keys, id: int, copy: Copy, now: int)
    requires ArchiveOk(k) && id !in k.archived && 1 <= id <= k.nextId && k'.nextId == k.nextId
    requires k'.archived == k.archived[id := copy] && k'.archive == k.archive[id := now]
    requires k'.archivedCount == k.archivedCount + 1
    ensures ArchiveOk(k') && k'.archived.Keys == k.archived.Keys + {id}
  {
    OneMore(k.archived, id, copy);
    OneMore(k.archive, id, now);
  }

  lemma RestOk(k: Keys, k': Keys, id: int, latest: int)
    requires TasksOk(k, latest) && NoStrays(k) && k'.nextId == k.nextId
    requires k'.tasks == k.tasks - {id} && k'.active == k.active - {id}
    requires k'.unleased == k.unleased - {id} && k'.leased == k.leased - {id}
    requires k'.archived.Keys == k.archived.Keys + {id}
    ensures TasksOk(k', latest) && NoStrays(k')
  {
    forall x | x in k'.tasks ensures TaskOk(k', x, latest) {
      assert TaskOk(k, x, latest);
    }
  }

  /** An existing task is filed under `leased` with a new expiry. */
  lemma ParkKeeps(k: Keys, id: int, h: Hash, expires: int, failed: int, latest: int)
    requires IndexOk(k, latest) && id in k.tasks
    requires WellFormed(h.(expires := Some(expires))) && h.priority == k.tasks[id].priority
    requires failed == k.failed - (if HasFailed(k.tasks[id]) then 1 else 0) + (if HasFailed(h) then 1 else 0)
    ensures IndexOk(Park(k, id, h, expires).(failed := failed), latest)
  {
    var k' := Park(k, id, h, expires).(failed := failed);
    assert TaskOk(k, id, latest);
    FailingUpdated(k.tasks, id, h.(expires := Some(expires)));
    forall x | x in k'.tasks ensures TaskOk(k', x, latest) {
      assert x in k.tasks && TaskOk(k, x, latest);
    }
  }

  lemma RetryKeeps(k: Keys, id: int, wait: int, now: int, latest: int)
    requires IndexOk(k, latest) && id in k.tasks
    ensures IndexOk(Retry(k, id, wait, now), latest)
  {
    assert TaskOk(k, id, latest);
    ParkKeeps(k, id, FailedOnce(k, id, now), now + wait, CountFailure(k, id), latest);
  }

  /** The pipeline of Yield does not look whether the task exists: the indexes
      stay consistent exactly when it does. */
  lemma YieldKeeps(k: Keys, id: int, duration: int, now: int, latest: int)
    requires IndexOk(k, latest)
    ensures IndexOk(YieldTask(k, id, duration, now), latest) <==> id in k.tasks
  {
    var k' := YieldTask(k, id, duration, now);
    if id in k.tasks {
      assert TaskOk(k, id, latest);
      ParkKeeps(k, id, Get(k.tasks, id).(owner := Some(Yield)), now + Max(YIELD_MINIMUM, duration), k.failed, latest);
    } else {
      assert !TaskOk(k', id, latest);
    }
  }

  lemma GrantKeeps(k: Keys, id: int, owner: Owner, expires: int, latest: int)
    requires IndexOk(k, latest) && id in k.tasks
    ensures IndexOk(Grant(k.(unleased := k.unleased - {id}), id, owner, expires), latest)
  {
    assert TaskOk(k, id, latest);
    ParkKeeps(k, id, k.tasks[id].(owner := Some(owner)), expires, k.failed, latest);
  }

  /** Taking over an expired lease leaves `unleased` alone. */
  lemma GrantInPlace(k: Keys, id: int, owner: Owner, expires: int, latest: int)
    requires IndexOk(k, latest) && id in k.tasks && id !in k.unleased
    ensures IndexOk(Grant(k, id, owner, expires), latest)
  {
    GrantKeeps(k, id, owner, expires, latest);
    assert k.unleased - {id} == k.unleased;
  }

  lemma WakeOneKeeps(k: Keys, id: int, epochAgo: int, latest: int)
    requires IndexOk(k, latest) && epochAgo <= latest - AWAKEN_WINDOW
    ensures IndexOk(WakeOne(k, id, epochAgo), latest)
  {
    if Wakes(k.tasks, id, epochAgo) {
      var k' := WakeOne(k, id, epochAgo);
      assert TaskOk(k, id, latest);
      FailingUpdated(k.tasks, id, k.tasks[id].(expires := Some(epochAgo)));
      forall x | x in k'.tasks ensures TaskOk(k', x, latest) {
        assert x in k.tasks && TaskOk(k, x, latest);
      }
    }
  }

  lemma {:induction false} WakeKeeps(k: Keys, ids: seq<int>, epochAgo: int, latest: int)
    requires IndexOk(k, latest) && epochAgo <= latest - AWAKEN_WINDOW
    ensures IndexOk(Wake(k, ids, epochAgo).0, latest)
    decreases |ids|
  {
    if ids == [] {
    } else {
      WakeKeeps(k, ids[..|ids| - 1], epochAgo, latest);
      WakeOneKeeps(Wake(k, ids[..|ids| - 1], epochAgo).0, ids[|ids| - 1], epochAgo, latest);
    }
  }

  /** Whoever passes the fence holds a task of `leased`: no unleased task has an
      expiry that any clock less than an hour behind could take for live. */
  lemma HeldIsLeased(k: Keys, id: int, owner: Owner, expiry: int, now: int, latest: int)
    requires IndexOk(k, latest) && HoldsLease(k, id, owner, expiry, now) && now >= latest - AWAKEN_WINDOW
    ensures id in k.leased && k.leased[id] == expiry && id !in k.unleased
  {
    assert TaskOk(k, id, latest);
  }

  lemma RenewKeeps(k: Keys, id: int, owner: Owner, expiry: int, duration: int, now: int, latest: int)
    requires IndexOk(k, latest) && now >= latest - AWAKEN_WINDOW
    ensures IndexOk(RenewScript(k, id, owner, expiry, duration, now).0, latest)
  {
    if HoldsLease(k, id, owner, expiry, now) {
      var extended := Max(expiry, now + duration);
      HeldIsLeased(k, id, owner, expiry, now, latest);
      assert TaskOk(k, id, latest);
      ParkKeeps(k, id, k.tasks[id], extended, k.failed, latest);
      RenewParks(k, id, owner, expiry, duration, now);
    }
  }

  lemma RenewParks(k: Keys, id: int, owner: Owner, expiry: int, duration: int, now: int)
    requires HoldsLease(k, id, owner, expiry, now) && id in k.tasks && id !in k.unleased
    ensures RenewScript(k, id, owner, expiry, duration, now).0
            == Park(k, id, k.tasks[id], Max(expiry, now + duration)).(failed := k.failed)
  {
    assert k.unleased - {id} == k.unleased;
  }

  lemma FinalizeKeeps(k: Keys, id: int, owner: Owner, expiry: int, duration: int,
                      children: seq<EnqueueRequest>, now: int, latest: int)
    requires IndexOk(k, latest)
    ensures IndexOk(FinalizeScript(k, id, owner, expiry, duration, children, now).0, latest)
  {
    if HoldsLease(k, id, owner, expiry, now) {
      var priority := Or(k.tasks[id].priority, PRIORITY_DEFAULT);
      CreateAllKeeps(k, children, priority, latest);
      ArchiveKeeps(CreateAll(k, children, priority), id, Success, duration, now, latest);
    }
  }

  lemma ResolveKeeps(k: Keys, id: int, owner: Owner, expiry: int, outcome: Outcome, wait: int, now: int, latest: int)
    requires IndexOk(k, latest)
    ensures IndexOk(ResolveScript(k, id, owner, expiry, outcome, wait, now).0, latest)
  {
    if HoldsLease(k, id, owner, expiry, now) {
      match outcome
      case Fails => ArchiveKeeps(k, id, Failure, 0, now, latest);
      case Retries => RetryKeeps(k, id, wait, now, latest);
      case Yields => YieldKeeps(k, id, wait, now, latest);
    }
  }

  // ---------------------------------------------------------------------
  // Leasing
  // ---------------------------------------------------------------------

  lemma {:induction false} PicksAreMatches(tasks: map<int, Hash>, order: seq<int>, classes: seq<string>, limit: int)
    ensures forall id :: id in Picks(tasks, order, classes, limit) ==> id in order && Matches(tasks, id, classes)
    decreases |order|
  {
    if order == [] {
    } else {
      PicksAreMatches(tasks, order[..|order| - 1], classes, limit);
    }
  }

  /** Claimed ids were unleased; nothing but their lease changes. */
  lemma {:induction false} ClaimKeeps(k: Keys, ids: seq<int>, owner: Owner, expires: int, latest: int)
    requires IndexOk(k, latest) && forall id :: id in ids ==> id in k.tasks
    ensures var k' := Claim(k, ids, owner, expires);
            IndexOk(k', latest) && k'.tasks.Keys == k.tasks.Keys && k'.nextId == k.nextId
    decreases |ids|
  {
    if ids == [] {
    } else {
      ClaimKeeps(k, ids[..|ids| - 1], owner, expires, latest);
      GrantKeeps(Claim(k, ids[..|ids| - 1], owner, expires), ids[|ids| - 1], owner, expires, latest);
    }
  }

  lemma {:induction false} ReclaimKeeps(k: Keys, ids: seq<int>, owner: Owner, expires: int, latest: int)
    requires IndexOk(k, latest) && forall id :: id in ids ==> id in k.tasks && id !in k.unleased
    ensures var k' := Reclaim(k, ids, owner, expires);
            IndexOk(k', latest) && k'.tasks.Keys == k.tasks.Keys && k'.unleased == k.unleased && k'.nextId == k.nextId
    decreases |ids|
  {
    if ids == [] {
    } else {
      ReclaimKeeps(k, ids[..|ids| - 1], owner, expires, latest);
      GrantInPlace(Reclaim(k, ids[..|ids| - 1], owner, expires), ids[|ids| - 1], owner, expires, latest);
    }
  }

  lemma LeaseKeeps(k: Keys, b: Batch, now: int, latest: int)
    requires IndexOk(k, latest) && Walks(k, b, now)
    ensures IndexOk(LeaseBatch(k, b).0, latest)
  {
    var k', rest := Claimed(k, b), b.limit - |First(k, b)|;
    PicksAreMatches(k.tasks, b.ranked, b.classes, b.limit);
    ClaimKeeps(k, First(k, b), b.owner, b.expires, latest);
    PicksAreMatches(k'.tasks, b.expired, b.classes, rest);
    forall id | id in Second(k, b) ensures id in k'.tasks && id !in k'.unleased {
      assert id in k'.leased;
      assert TaskOk(k', id, latest);
    }
    ReclaimKeeps(k', Second(k, b), b.owner, b.expires, latest);
  }
}
