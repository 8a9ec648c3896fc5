/** Runs of the Redis queue: every script is atomic, `Enqueue` reserves its id in
    a command of its own, and the clock each caller reads may lag the newest
    reading by up to an hour. */
module RedisRuns {
  import opened Numbers
  import opened Options
  import opened QueueTypes
  import opened RedisQueue
  import opened RedisIndex

  /** `pending` holds ids that were reserved and not yet written. */
  datatype World = World(keys: Keys, latest: int, pending: set<int>)

  datatype Action =
    | ReserveAction
    | InsertAction(id: int, req: EnqueueRequest)
    | EventAction(event: EventId, req: EnqueueRequest)
    | LeaseAction(batch: Batch)
    | ArchiveAction(id: int, result: Result, duration: int)
    | FailAction(id: int, wait: int)
    | YieldAction(id: int, duration: int)
    | AwakenAction(ids: seq<int>)
    | FinalizeAction(id: int, owner: Owner, expiry: int, duration: int, children: seq<EnqueueRequest>)
    | RenewAction(id: int, owner: Owner, expiry: int, duration: int)
    | ResolveAction(id: int, owner: Owner, expiry: int, outcome: Outcome, wait: int)

  datatype Step = Step(now: int, action: Action)

  const START := World(EMPTY_KEYS, 0, {})

  ghost predicate Enabled(w: World, s: Step) {
    && s.now >= w.latest - AWAKEN_WINDOW
    && match s.action {
         case InsertAction(id, _) => id in w.pending
         case LeaseAction(batch) => Walks(w.keys, batch, s.now)
         case YieldAction(id, _) => id in w.keys.tasks
         case _ => true
       }
  }

  ghost function Perform(k: Keys, a: Action, now: int): (r: Keys) {
    match a
    case ReserveAction => k.(nextId := k.nextId + 1)
    case InsertAction(id, req) => Insert(k, id, req, Or(req.priority, PRIORITY_DEFAULT))
    case EventAction(event, req) => AcceptEvent(k, event, req).0
    case LeaseAction(batch) => LeaseBatch(k, batch).0
    case ArchiveAction(id, result, duration) => if id in k.tasks then Archive(k, id, result, duration, now) else k
    case FailAction(id, wait) => if id in k.tasks then Retry(k, id, wait, now) else k
    case YieldAction(id, duration) => YieldTask(k, id, duration, now)
    case AwakenAction(ids) => Wake(k, ids, now - AWAKEN_WINDOW).0
    case FinalizeAction(id, owner, expiry, duration, children) =>
      FinalizeScript(k, id, owner, expiry, duration, children, now).0
    case RenewAction(id, owner, expiry, duration) => RenewScript(k, id, owner, expiry, duration, now).0
    case ResolveAction(id, owner, expiry, outcome, wait) => ResolveScript(k, id, owner, expiry, outcome, wait, now).0
  }

  ghost function Waiting(w: World, a: Action): (r: set<int>) {
    match a
    case ReserveAction => w.pending + {w.keys.nextId + 1}
    case InsertAction(id, _) => w.pending - {id}
    case _ => w.pending
  }

  ghost function Do(w: World, s: Step): (r: World) {
    World(Perform(w.keys, s.action, s.now), Max(w.latest, s.now), Waiting(w, s.action))
  }

  ghost predicate Runs(w: World, steps: seq<Step>)
    decreases |steps|
  {
    steps == [] || (Enabled(w, steps[0]) && Runs(Do(w, steps[0]), steps[1..]))
  }

  ghost function After(w: World, steps: seq<Step>): (r: World)
    decreases |steps|
  {
    if steps == [] then w else After(Do(w, steps[0]), steps[1..])
  }

  // ---------------------------------------------------------------------
  // Reserved ids stay unused
  // ---------------------------------------------------------------------

  ghost predicate Known(k: Keys, id: int) {
    id in k.tasks || id in k.archived
  }

  /** Ids appear only by being handed out. */
  ghost predicate OnlyNew(k: Keys, k': Keys) {
    k.nextId <= k'.nextId && forall id :: Known(k', id) ==> Known(k, id) || k.nextId < id <= k'.nextId
  }

  lemma {:induction false} CreateAllOnlyNew(k: Keys, children: seq<EnqueueRequest>, priority: int)
    ensures OnlyNew(k, CreateAll(k, children, priority))
    decreases |children|
  {
    if children == [] {
    } else {
      CreateAllOnlyNew(k, children[..|children| - 1], priority);
    }
  }

  lemma {:induction false} WakeOnlyNew(k: Keys, ids: seq<int>, epochAgo: int)
    ensures var k' := Wake(k, ids, epochAgo).0;
            k'.nextId == k.nextId && k'.tasks.Keys == k.tasks.Keys && k'.archived == k.archived
    decreases |ids|
  {
    if ids == [] {
    } else {
      WakeOnlyNew(k, ids[..|ids| - 1], epochAgo);
    }
  }

  lemma {:induction false} ClaimOnlyNew(k: Keys, ids: seq<int>, owner: Owner, expires: int)
    requires forall id :: id in ids ==> id in k.tasks
    ensures var k' := Claim(k, ids, owner, expires);
            k'.nextId == k.nextId && k'.tasks.Keys == k.tasks.Keys && k'.archived == k.archived
    decreases |ids|
  {
    if ids == [] {
    } else {
      ClaimOnlyNew(k, ids[..|ids| - 1], owner, expires);
    }
  }

  lemma {:induction false} ReclaimOnlyNew(k: Keys, ids: seq<int>, owner: Owner, expires: int)
    requires forall id :: id in ids ==> id in k.tasks
    ensures var k' := Reclaim(k, ids, owner, expires);
            k'.nextId == k.nextId && k'.tasks.Keys == k.tasks.Keys && k'.archived == k.archived
    decreases |ids|
  {
    if ids == [] {
    } else {
      ReclaimOnlyNew(k, ids[..|ids| - 1], owner, expires);
    }
  }

  lemma FirstAreTasks(k: Keys, b: Batch)
    requires NoStrays(k) && Ranked(k.unleased, b.ranked)
    ensures forall id :: id in First(k, b) ==> id in k.tasks
  {
    PicksAreMatches(k.tasks, b.ranked, b.classes, b.limit);
  }

  lemma SecondAreTasks(k': Keys, b: Batch, now: int, limit: int)
    requires NoStrays(k') && Expired(k', now, b.expired)
    ensures forall id :: id in Picks(k'.tasks, b.expired, b.classes, limit) ==> id in k'.tasks
  {
    PicksAreMatches(k'.tasks, b.expired, b.classes, limit);
  }

  lemma LeaseOnlyNew(k: Keys, b: Batch, now: int)
    requires NoStrays(k) && NoStrays(Claimed(k, b)) && Walks(k, b, now)
    ensures OnlyNew(k, LeaseBatch(k, b).0)
  {
    FirstAreTasks(k, b);
    ClaimOnlyNew(k, First(k, b), b.owner, b.expires);
    SecondAreTasks(Claimed(k, b), b, now, b.limit - |First(k, b)|);
    ReclaimOnlyNew(Claimed(k, b), Second(k, b), b.owner, b.expires);
  }

  lemma FinalizeOnlyNew(k: Keys, id: int, owner: Owner, expiry: int, duration: int,
                        children: seq<EnqueueRequest>, now: int)
    ensures OnlyNew(k, FinalizeScript(k, id, owner, expiry, duration, children, now).0)
  {
    if HoldsLease(k, id, owner, expiry, now) {
      CreateAllOnlyNew(k, children, Or(k.tasks[id].priority, PRIORITY_DEFAULT));
    }
  }

  lemma ResolveOnlyNew(k: Keys, id: int, owner: Owner, expiry: int, outcome: Outcome, wait: int, now: int)
    ensures OnlyNew(k, ResolveScript(k, id, owner, expiry, outcome, wait, now).0)
  {
  }

  lemma PerformOnlyNew(w: World, s: Step)
    requires IndexOk(w.keys, w.latest) && Enabled(w, s) && !s.action.InsertAction?
    ensures OnlyNew(w.keys, Perform(w.keys, s.action, s.now))
  {
    match s.action
    case LeaseAction(batch) =>
      FirstAreTasks(w.keys, batch);
      ClaimKeeps(w.keys, First(w.keys, batch), batch.owner, batch.expires, w.latest);
      LeaseOnlyNew(w.keys, batch, s.now);
    case AwakenAction(ids) => WakeOnlyNew(w.keys, ids, s.now - AWAKEN_WINDOW);
    case FinalizeAction(id, owner, expiry, duration, children) =>
      FinalizeOnlyNew(w.keys, id, owner, expiry, duration, children, s.now);
    case ResolveAction(id, owner, expiry, outcome, wait) =>
      ResolveOnlyNew(w.keys, id, owner, expiry, outcome, wait, s.now);
    case _ =>
  }

  // ---------------------------------------------------------------------
  // The invariant over runs
  // ---------------------------------------------------------------------

  ghost predicate PendingOk(k: Keys, pending: set<int>) {
    forall id :: id in pending ==> 1 <= id <= k.nextId && !Known(k, id)
  }

  ghost predicate WorldOk(w: World) {
    IndexOk(w.keys, w.latest) && PendingOk(w.keys, w.pending)
  }

  lemma LatestGrows(k: Keys, latest: int, latest': int)
    requires IndexOk(k, latest) && latest <= latest'
    ensures IndexOk(k, latest')
  {
    forall id | id in k.tasks ensures TaskOk(k, id, latest') {
      assert TaskOk(k, id, latest);
    }
  }

  lemma PendingKept(w: World, s: Step)
    requires WorldOk(w) && Enabled(w, s)
    ensures PendingOk(Perform(w.keys, s.action, s.now), Waiting(w, s.action))
  {
    if !s.action.InsertAction? {
      PerformOnlyNew(w, s);
    }
    if s.action.ReserveAction? {
      BumpKeeps(w.keys, w.latest);
    }
  }

  lemma IndexKept(w: World, s: Step, latest: int)
    requires IndexOk(w.keys, latest) && PendingOk(w.keys, w.pending) && Enabled(w, s)
    requires latest == Max(w.latest, s.now)
    ensures IndexOk(Perform(w.keys, s.action, s.now), latest)
  {
    var k, now := w.keys, s.now;
    match s.action
    case ReserveAction => BumpKeeps(k, latest);
    case InsertAction(id, req) => InsertKeeps(k, id, req, Or(req.priority, PRIORITY_DEFAULT), latest);
    case EventAction(event, req) => EventKeeps(k, event, req, latest);
    case LeaseAction(batch) => LeaseKeeps(k, batch, now, latest);
    case ArchiveAction(id, result, duration) =>
      if id in k.tasks {
        ArchiveKeeps(k, id, result, duration, now, latest);
      }
    case FailAction(id, wait) =>
      if id in k.tasks {
        RetryKeeps(k, id, wait, now, latest);
      }
    case YieldAction(id, duration) => YieldKeeps(k, id, duration, now, latest);
    case AwakenAction(ids) => WakeKeeps(k, ids, now - AWAKEN_WINDOW, latest);
    case FinalizeAction(id, owner, expiry, duration, children) =>
      FinalizeKeeps(k, id, owner, expiry, duration, children, now, latest);
    case RenewAction(id, owner, expiry, duration) => RenewKeeps(k, id, owner, expiry, duration, now, latest);
    case ResolveAction(id, owner, expiry, outcome, wait) =>
      ResolveKeeps(k, id, owner, expiry, outcome, wait, now, latest);
  }

  lemma StepKeeps(w: World, s: Step)
    requires WorldOk(w) && Enabled(w, s)
    ensures WorldOk(Do(w, s))
  {
    PendingKept(w, s);
    LatestGrows(w.keys, w.latest, Max(w.latest, s.now));
    IndexKept(w, s, Max(w.latest, s.now));
  }

  lemma {:induction false} RunKeeps(w: World, steps: seq<Step>)
    requires WorldOk(w) && Runs(w, steps)
    ensures WorldOk(After(w, steps))
    decreases |steps|
  {
    if steps == [] {
    } else {
      StepKeeps(w, steps[0]);
      RunKeeps(Do(w, steps[0]), steps[1..]);
    }
  }

  /** In every reachable state the indexes partition the task hashes, agree with
      them on every expiry, and both counters count. */
  lemma IndexInvariant(steps: seq<Step>)
    requires Runs(START, steps)
    ensures var k := After(START, steps).keys;
            && k.active.Keys == k.tasks.Keys
            && k.unleased.Keys + k.leased.Keys == k.tasks.Keys && k.unleased.Keys !! k.leased.Keys
            && (forall id :: id in k.leased ==> k.tasks[id].expires == Some(k.leased[id]))
            && k.failed == |Failing(k.tasks)|
            && k.archive.Keys == k.archived.Keys && k.archivedCount == |k.archived|
  {
    var w := After(START, steps);
    RunKeeps(START, steps);
    ActiveIsTasks(w.keys, w.latest);
    LeasesPartition(w.keys, w.latest);
    LeasedScores(w.keys, w.latest);
  }

  lemma LeasedScores(k: Keys, latest: int)
    requires IndexOk(k, latest)
    ensures forall id :: id in k.leased ==> id in k.tasks && k.tasks[id].expires == Some(k.leased[id])
  {
    forall id | id in k.leased ensures id in k.tasks && k.tasks[id].expires == Some(k.leased[id]) {
      assert TaskOk(k, id, latest);
    }
  }

  /** No clock that lags by at most an hour sees a live lease on an unleased task. */
  lemma UnleasedIsFree(steps: seq<Step>, id: int, now: int)
    requires Runs(START, steps) && id in After(START, steps).keys.unleased
    requires now >= After(START, steps).latest - AWAKEN_WINDOW
    ensures var k := After(START, steps).keys;
            id in k.tasks && (k.tasks[id].expires.Some? ==> k.tasks[id].expires.value <= now)
  {
    var w := After(START, steps);
    RunKeeps(START, steps);
    assert TaskOk(w.keys, id, w.latest);
  }

  // ---------------------------------------------------------------------
  // What a lease script hands out
  // ---------------------------------------------------------------------

  /** A matching id that was passed over came after every pick, and the limit was reached. */
  lemma {:induction false} PicksGreedy(tasks: map<int, Hash>, order: seq<int>, classes: seq<string>, limit: int, i: nat)
    requires i < |order| && Matches(tasks, order[i], classes) && order[i] !in Picks(tasks, order, classes, limit)
    ensures |Picks(tasks, order, classes, limit)| >= limit
    ensures forall id :: id in Picks(tasks, order, classes, limit) ==> id in order[..i]
    decreases |order|
  {
    var n := |order| - 1;
    if i == n {
      PicksAreMatches(tasks, order[..n], classes, limit);
    } else {
      PicksGreedy(tasks, order[..n], classes, limit, i);
      assert order[..n][..i] == order[..i];
    }
  }

  lemma LowestScoresFirst(k: Keys, b: Batch, now: int, x: int, y: int)
    requires Walks(k, b, now)
    requires x in k.unleased && Matches(k.tasks, x, b.classes) && x !in First(k, b) && y in First(k, b)
    ensures y in k.unleased && k.unleased[y] <= k.unleased[x]
    ensures |First(k, b)| >= b.limit && Second(k, b) == []
  {
    var i :| 0 <= i < |b.ranked| && b.ranked[i] == x;
    PicksAreMatches(k.tasks, b.ranked, b.classes, b.limit);
    PicksGreedy(k.tasks, b.ranked, b.classes, b.limit, i);
    var j :| 0 <= j < |b.ranked[..i]| && b.ranked[..i][j] == y;
    assert b.ranked[j] == y && j < i;
    NothingPicked(Claimed(k, b).tasks, b.expired, b.classes, b.limit - |First(k, b)|);
  }

  /** Unleased tasks go out by priority and id: a matching task that stays behind
      is not more urgent than any that was handed out, and the script was full. */
  lemma MostUrgentFirst(k: Keys, b: Batch, now: int, latest: int, x: int, y: int)
    requires IndexOk(k, latest) && k.nextId < SCORE_STEP && Walks(k, b, now)
    requires x in k.unleased && Matches(k.tasks, x, b.classes) && x !in First(k, b) && y in First(k, b)
    ensures y in k.unleased && !Before(k.tasks, x, y)
    ensures |First(k, b)| >= b.limit && Second(k, b) == []
  {
    LowestScoresFirst(k, b, now, x, y);
    ScoresAreUrgency(k, latest, x, y);
  }

  /** While ids stay below the step, `unleased` is scored by priority and id. */
  lemma ScoresAreUrgency(k: Keys, latest: int, x: int, y: int)
    requires IndexOk(k, latest) && k.nextId < SCORE_STEP && x in k.unleased && y in k.unleased
    ensures k.unleased[x] < k.unleased[y] <==> Before(k.tasks, x, y)
  {
    assert TaskOk(k, x, latest) && TaskOk(k, y, latest);
    ScoreOrders(k.tasks[x].priority.value, x, k.tasks[y].priority.value, y);
  }

  lemma {:induction false} NothingPicked(tasks: map<int, Hash>, order: seq<int>, classes: seq<string>, limit: int)
    requires limit <= 0
    ensures Picks(tasks, order, classes, limit) == []
    decreases |order|
  {
    if order == [] {
    } else {
      NothingPicked(tasks, order[..|order| - 1], classes, limit);
    }
  }

  /** Expired leases are taken over only once no matching unleased task is left. */
  lemma UnleasedFirst(k: Keys, b: Batch, now: int, x: int)
    requires Walks(k, b, now) && Second(k, b) != []
    requires x in k.unleased && Matches(k.tasks, x, b.classes)
    ensures x in First(k, b)
  {
    if x !in First(k, b) {
      var i :| 0 <= i < |b.ranked| && b.ranked[i] == x;
      PicksGreedy(k.tasks, b.ranked, b.classes, b.limit, i);
      NothingPicked(Claimed(k, b).tasks, b.expired, b.classes, b.limit - |First(k, b)|);
    }
  }

  lemma {:induction false} ClaimAt(k: Keys, ids: seq<int>, owner: Owner, expires: int, id: int)
    ensures var k' := Claim(k, ids, owner, expires);
            && Get(k'.tasks, id) == (if id in ids then Get(k.tasks, id).(owner := Some(owner), expires := Some(expires))
                                     else Get(k.tasks, id))
            && (id in ids ==> id in k'.leased && k'.leased[id] == expires && id !in k'.unleased)
            && (id !in ids ==> (id in k'.leased <==> id in k.leased) && (id in k'.unleased <==> id in k.unleased))
            && (id !in ids && id in k.leased ==> k'.leased[id] == k.leased[id])
    decreases |ids|
  {
    if ids == [] {
    } else {
      ClaimAt(k, ids[..|ids| - 1], owner, expires, id);
      assert id in ids <==> id in ids[..|ids| - 1] || id == ids[|ids| - 1];
    }
  }

  lemma {:induction false} ReclaimAt(k: Keys, ids: seq<int>, owner: Owner, expires: int, id: int)
    ensures Get(Reclaim(k, ids, owner, expires).tasks, id)
            == if id in ids then Get(k.tasks, id).(owner := Some(owner), expires := Some(expires)) else Get(k.tasks, id)
    decreases |ids|
  {
    if ids == [] {
    } else {
      ReclaimAt(k, ids[..|ids| - 1], owner, expires, id);
      assert id in ids <==> id in ids[..|ids| - 1] || id == ids[|ids| - 1];
    }
  }

  /** Exactly the returned tasks change, to the caller's lease, and each of them
      was unleased or expired. */
  lemma LeaseEffect(k: Keys, b: Batch, now: int, id: int)
    requires Walks(k, b, now) && b.expires > now
    ensures var (k', ids) := LeaseBatch(k, b);
            && Get(k'.tasks, id) == (if id in ids then Get(k.tasks, id).(owner := Some(b.owner), expires := Some(b.expires))
                                     else Get(k.tasks, id))
            && (id in ids ==> Matches(k.tasks, id, b.classes)
                              && (id in k.unleased || (id in k.leased && k.leased[id] <= now)))
  {
    var k', rest := Claimed(k, b), b.limit - |First(k, b)|;
    ClaimAt(k, First(k, b), b.owner, b.expires, id);
    ReclaimAt(k', Second(k, b), b.owner, b.expires, id);
    PicksAreMatches(k.tasks, b.ranked, b.classes, b.limit);
    PicksAreMatches(k'.tasks, b.expired, b.classes, rest);
  }

  /** A positive lease duration makes the batch at most `limit` distinct tasks. */
  lemma LeaseDistinct(k: Keys, b: Batch, now: int)
    requires Walks(k, b, now) && b.expires > now && b.limit > 0
    ensures |LeaseBatch(k, b).1| <= b.limit && Distinct(LeaseBatch(k, b).1)
  {
    var k', rest := Claimed(k, b), b.limit - |First(k, b)|;
    PicksDistinct(k.tasks, b.ranked, b.classes, b.limit);
    PicksDistinct(k'.tasks, b.expired, b.classes, rest);
    PicksAreMatches(k'.tasks, b.expired, b.classes, rest);
    forall id | id in Second(k, b) ensures id !in First(k, b) {
      ClaimAt(k, First(k, b), b.owner, b.expires, id);
    }
    DistinctJoin(First(k, b), Second(k, b));
  }

  lemma DistinctJoin(a: seq<int>, b: seq<int>)
    requires Distinct(a) && Distinct(b) && forall id :: id in b ==> id !in a
    ensures Distinct(a + b)
  {
    forall i, j | 0 <= i < j < |a + b| ensures (a + b)[i] != (a + b)[j] {
      if i < |a| <= j {
        assert b[j - |a|] in b && a[i] in a;
      }
    }
  }

  lemma {:induction false} PicksDistinct(tasks: map<int, Hash>, order: seq<int>, classes: seq<string>, limit: int)
    requires Distinct(order)
    ensures Distinct(Picks(tasks, order, classes, limit))
    decreases |order|
  {
    if order == [] {
    } else {
      var n := |order| - 1;
      PicksDistinct(tasks, order[..n], classes, limit);
      PicksAreMatches(tasks, order[..n], classes, limit);
      assert order[n] !in order[..n];
    }
  }

  // ---------------------------------------------------------------------
  // A lease script can always run
  // ---------------------------------------------------------------------

  lemma Pick(ids: set<int>) returns (x: int)
    requires ids != {}
    ensures x in ids
  {
    assert exists y :: y in ids by {
      if forall y :: y !in ids {
        assert false;
      }
    }
    x :| x in ids;
  }

  lemma {:induction false} Highest(z: Index, ids: set<int>) returns (m: int)
    requires ids != {} && ids <= z.Keys
    ensures m in ids && forall id :: id in ids ==> z[id] <= z[m]
    decreases |ids|
  {
    var x := Pick(ids);
    m := x;
    if ids - {x} != {} {
      var other := Highest(z, ids - {x});
      m := if z[other] > z[x] then other else x;
    }
    assert forall id :: id in ids ==> id == x || id in ids - {x};
  }

  lemma {:induction false} Ranking(z: Index, ids: set<int>) returns (order: seq<int>)
    requires ids <= z.Keys
    ensures Distinct(order) && (forall id :: id in order <==> id in ids)
    ensures forall i, j :: 0 <= i < j < |order| ==> order[i] in z && order[j] in z && z[order[i]] <= z[order[j]]
    decreases |ids|
  {
    if ids == {} {
      order := [];
    } else {
      var m := Highest(z, ids);
      var before := Ranking(z, ids - {m});
      forall i | 0 <= i < |before| ensures before[i] in ids && before[i] != m {
        assert before[i] in before;
      }
      order := before + [m];
    }
  }

  lemma {:induction false} LeastUrgent(tasks: map<int, Hash>, ids: set<int>) returns (m: int)
    requires ids != {}
    ensures m in ids && forall id :: id in ids && id != m ==> Before(tasks, id, m)
    decreases |ids|
  {
    var x := Pick(ids);
    m := x;
    if ids - {x} != {} {
      var other := LeastUrgent(tasks, ids - {x});
      m := if Before(tasks, x, other) then other else x;
    }
    assert forall id :: id in ids ==> id == x || id in ids - {x};
  }

  lemma {:induction false} Urgency(tasks: map<int, Hash>, ids: set<int>) returns (order: seq<int>)
    ensures Distinct(order) && (forall id :: id in order <==> id in ids)
    ensures forall i, j :: 0 <= i < j < |order| ==> Before(tasks, order[i], order[j])
    decreases |ids|
  {
    if ids == {} {
      order := [];
    } else {
      var m := LeastUrgent(tasks, ids);
      var before := Urgency(tasks, ids - {m});
      forall i | 0 <= i < |before| ensures before[i] in ids && before[i] != m {
        assert before[i] in before;
      }
      order := before + [m];
    }
  }

  /** Whatever the state, there are orderings the script can walk. */
  lemma LeasePossible(k: Keys, limit: int, owner: Owner, expires: int, classes: seq<string>, now: int) returns (b: Batch)
    ensures b == Batch(limit, owner, expires, classes, b.ranked, b.expired) && Walks(k, b, now)
  {
    var ranked := Ranking(k.unleased, k.unleased.Keys);
    b := Batch(limit, owner, expires, classes, ranked, []);
    var k' := Claimed(k, b);
    var expired := Urgency(k'.tasks, set id | id in k'.leased && k'.leased[id] <= now);
    b := b.(expired := expired);
    assert Claimed(k, b) == k';
  }
}
