/** The Redis task queue: one hash per task, sorted-set indexes over the ids and
    two counters.  Every script is one function of the key space; the class
    performs it command by command. */
module RedisQueue {
  import opened Numbers
  import opened Options
  import opened QueueTypes

  /** A task hash; `None` is a field that was never written or is blank. */
  datatype Hash = Hash(taskClass: Option<string>, priority: Option<int>, owner: Option<Owner>,
                       expires: Option<int>, failures: Option<int>, failureTime: Option<int>)

  const NO_HASH := Hash(None, None, None, None, None, None)

  datatype Copy = Copy(hash: Hash, result: Result, duration: int, epoch: int)

  /** A sorted set: its members and their scores. */
  type Index = map<int, int>

  datatype Keys = Keys(tasks: map<int, Hash>, archived: map<int, Copy>,
                       active: Index, unleased: Index, leased: Index, archive: Index,
                       nextId: int, failed: int, archivedCount: int,
                       inbox: map<EventId, (EnqueueRequest, int)>)

  const EMPTY_KEYS := Keys(map[], map[], map[], map[], map[], map[], 0, 0, 0, map[])

  const SCORE_STEP := 1_000_000_000_000

  function ActiveScore(priority: int, id: int): (score: int) {
    priority * SCORE_STEP + id
  }

  /** The score orders by priority first and id second as long as ids stay below
      the step. */
  lemma ScoreOrders(p: int, a: int, q: int, b: int)
    requires 0 <= a < SCORE_STEP && 0 <= b < SCORE_STEP
    ensures ActiveScore(p, a) < ActiveScore(q, b) <==> p < q || (p == q && a < b)
  {
    if p < q {
      assert p * SCORE_STEP + SCORE_STEP <= q * SCORE_STEP;
    } else if q < p {
      assert q * SCORE_STEP + SCORE_STEP <= p * SCORE_STEP;
    }
  }

  /** The scores of all tasks with ids below `n` are in the order of urgency. */
  ghost predicate ScoresOrder(n: int) {
    forall p, a, q, b :: 0 <= a < n && 0 <= b < n ==>
      (ActiveScore(p, a) < ActiveScore(q, b) <==> p < q || (p == q && a < b))
  }

  /** The step is exactly how many ids the score can tell apart from priorities. */
  lemma ScoreOrdersIff(n: int)
    requires n >= 1
    ensures ScoresOrder(n) <==> n <= SCORE_STEP
  {
    if n <= SCORE_STEP {
      forall p, a, q, b | 0 <= a < n && 0 <= b < n
        ensures ActiveScore(p, a) < ActiveScore(q, b) <==> p < q || (p == q && a < b)
      {
        ScoreOrders(p, a, q, b);
      }
    } else {
      assert !(ActiveScore(0, SCORE_STEP) < ActiveScore(1, 0));
    }
  }

  // ---------------------------------------------------------------------
  // The commands
  // ---------------------------------------------------------------------

  /** HGETALL: a missing key reads as an empty hash. */
  function Get(tasks: map<int, Hash>, id: int): (h: Hash) {
    if id in tasks then tasks[id] else NO_HASH
  }

  function Or(f: Option<int>, d: int): (v: int) {
    if f.Some? then f.value else d
  }

  // ---------------------------------------------------------------------
  // Creating tasks
  // ---------------------------------------------------------------------

  function NewHash(req: EnqueueRequest, priority: int): (h: Hash) {
    Hash(Some(req.taskClass), Some(priority), None, Delay(req), Some(0), None)
  }

  /** A new task enters `active`, and `leased` or `unleased` by its delay. */
  function Insert(k: Keys, id: int, req: EnqueueRequest, priority: int): (r: Keys) {
    var score := ActiveScore(priority, id);
    k.(tasks := k.tasks[id := NewHash(req, priority)],
       active := k.active[id := score],
       leased := if Delay(req).Some? then k.leased[id := Delay(req).value] else k.leased,
       unleased := if Delay(req).Some? then k.unleased else k.unleased[id := score])
  }

  function Create(k: Keys, req: EnqueueRequest, priority: int): (r: Keys) {
    Insert(k.(nextId := k.nextId + 1), k.nextId + 1, req, priority)
  }

  function CreateAll(k: Keys, children: seq<EnqueueRequest>, priority: int): (r: Keys)
    ensures k.tasks.Keys <= r.tasks.Keys
    decreases |children|
  {
    if children == [] then k
    else var child := children[|children| - 1];
         Create(CreateAll(k, children[..|children| - 1], priority), child, Or(child.priority, priority))
  }

  datatype EventAnswer = Refused | Accepted(id: int)

  function AcceptEvent(k: Keys, event: EventId, req: EnqueueRequest): (r: (Keys, EventAnswer)) {
    if event in k.inbox then
      (k, if k.inbox[event].0 == req then Accepted(k.inbox[event].1) else Refused)
    else
      (Create(k, req, Or(req.priority, PRIORITY_DEFAULT)).(inbox := k.inbox[event := (req, k.nextId + 1)]),
       Accepted(k.nextId + 1))
  }

  // ---------------------------------------------------------------------
  // Leasing
  // ---------------------------------------------------------------------

  predicate Matches(tasks: map<int, Hash>, id: int, classes: seq<string>) {
    var c := Get(tasks, id).taskClass;
    classes == [] || (c.Some? && c.value in classes)
  }

  /** The first `limit` matching ids of an ordering. */
  function Picks(tasks: map<int, Hash>, order: seq<int>, classes: seq<string>, limit: int): (ids: seq<int>)
    ensures |ids| <= |order| && (limit >= 0 ==> |ids| <= limit)
    decreases |order|
  {
    if order == [] then []
    else var ids := Picks(tasks, order[..|order| - 1], classes, limit);
         var id := order[|order| - 1];
         if |ids| < limit && Matches(tasks, id, classes) then ids + [id] else ids
  }

  function Grant(k: Keys, id: int, owner: Owner, expires: int): (r: Keys) {
    k.(tasks := k.tasks[id := Get(k.tasks, id).(owner := Some(owner), expires := Some(expires))],
       leased := k.leased[id := expires])
  }

  /** Phase 1 takes from `unleased`. */
  function Claim(k: Keys, ids: seq<int>, owner: Owner, expires: int): (r: Keys)
    decreases |ids|
  {
    if ids == [] then k
    else var id := ids[|ids| - 1];
         var k' := Claim(k, ids[..|ids| - 1], owner, expires);
         Grant(k'.(unleased := k'.unleased - {id}), id, owner, expires)
  }

  /** Phase 2 takes over expired leases in place. */
  function Reclaim(k: Keys, ids: seq<int>, owner: Owner, expires: int): (r: Keys)
    decreases |ids|
  {
    if ids == [] then k
    else Grant(Reclaim(k, ids[..|ids| - 1], owner, expires), ids[|ids| - 1], owner, expires)
  }

  ghost predicate Distinct(s: seq<int>) {
    forall i, j :: 0 <= i < j < |s| ==> s[i] != s[j]
  }

  /** ZRANGE: all members by ascending score; equal scores come in any order. */
  ghost predicate Ranked(z: Index, order: seq<int>) {
    && Distinct(order)
    && (forall id :: id in order <==> id in z)
    && (forall i, j :: 0 <= i < j < |order| ==> z[order[i]] <= z[order[j]])
  }

  predicate Before(tasks: map<int, Hash>, a: int, b: int) {
    var p, q := Or(Get(tasks, a).priority, PRIORITY_DEFAULT), Or(Get(tasks, b).priority, PRIORITY_DEFAULT);
    p < q || (p == q && a < b)
  }

  /** The expired leases, most urgent first. */
  ghost predicate Expired(k: Keys, now: int, order: seq<int>) {
    && Distinct(order)
    && (forall id :: id in order <==> id in k.leased && k.leased[id] <= now)
    && (forall i, j :: 0 <= i < j < |order| ==> Before(k.tasks, order[i], order[j]))
  }

  /** One lease script, given the two orderings it walks. */
  datatype Batch = Batch(limit: int, owner: Owner, expires: int, classes: seq<string>,
                         ranked: seq<int>, expired: seq<int>)

  function First(k: Keys, b: Batch): (ids: seq<int>) {
    Picks(k.tasks, b.ranked, b.classes, b.limit)
  }

  function Claimed(k: Keys, b: Batch): (r: Keys) {
    Claim(k, First(k, b), b.owner, b.expires)
  }

  function Second(k: Keys, b: Batch): (ids: seq<int>) {
    Picks(Claimed(k, b).tasks, b.expired, b.classes, b.limit - |First(k, b)|)
  }

  function LeaseBatch(k: Keys, b: Batch): (r: (Keys, seq<int>)) {
    (Reclaim(Claimed(k, b), Second(k, b), b.owner, b.expires), First(k, b) + Second(k, b))
  }

  /** The orderings are the ones Redis answers with. */
  ghost predicate Walks(k: Keys, b: Batch, now: int) {
    Ranked(k.unleased, b.ranked) && Expired(Claimed(k, b), now, b.expired)
  }

  // ---------------------------------------------------------------------
  // Finishing, failing and yielding
  // ---------------------------------------------------------------------

  function Archive(k: Keys, id: int, result: Result, duration: int, now: int): (r: Keys)
    requires id in k.tasks
  {
    k.(archived := k.archived[id := Copy(k.tasks[id], result, duration, now)],
       active := k.active - {id}, unleased := k.unleased - {id}, leased := k.leased - {id},
       tasks := k.tasks - {id},
       archive := k.archive[id := now],
       archivedCount := k.archivedCount + 1,
       failed := if Or(k.tasks[id].failures, 0) > 0 then k.failed - 1 else k.failed)
  }

  /** Reset the lease of a task and file it under `leased`. */
  function Park(k: Keys, id: int, h: Hash, expires: int): (r: Keys) {
    k.(tasks := k.tasks[id := h.(expires := Some(expires))],
       unleased := k.unleased - {id},
       leased := k.leased[id := expires])
  }

  function FailedOnce(k: Keys, id: int, now: int): (h: Hash) {
    var h := Get(k.tasks, id);
    h.(failures := Some(Or(h.failures, 0) + 1), failureTime := Some(now), owner := None)
  }

  function CountFailure(k: Keys, id: int): (n: int) {
    if Or(Get(k.tasks, id).failures, 0) == 0 then k.failed + 1 else k.failed
  }

  function Retry(k: Keys, id: int, wait: int, now: int): (r: Keys) {
    Park(k, id, FailedOnce(k, id, now), now + wait).(failed := CountFailure(k, id))
  }

  /** HSET on a missing key creates it, so this is total. */
  function YieldTask(k: Keys, id: int, duration: int, now: int): (r: Keys) {
    Park(k, id, Get(k.tasks, id).(owner := Some(Yield)), now + Max(YIELD_MINIMUM, duration))
  }

  predicate Wakes(tasks: map<int, Hash>, id: int, epochAgo: int) {
    var h := Get(tasks, id);
    h.owner == Some(Yield) && h.expires.Some? && h.expires.value > epochAgo && h.failures == Some(0)
  }

  function WakeOne(k: Keys, id: int, epochAgo: int): (r: Keys) {
    if Wakes(k.tasks, id, epochAgo) then
      var h := Get(k.tasks, id);
      k.(tasks := k.tasks[id := h.(expires := Some(epochAgo))],
         leased := k.leased - {id},
         unleased := k.unleased[id := ActiveScore(Or(h.priority, PRIORITY_DEFAULT), id)])
    else k
  }

  /** The ids in the order given, and how many were awakened. */
  function Wake(k: Keys, ids: seq<int>, epochAgo: int): (r: (Keys, nat))
    decreases |ids|
  {
    if ids == [] then (k, 0)
    else var (k', n) := Wake(k, ids[..|ids| - 1], epochAgo);
         var id := ids[|ids| - 1];
         (WakeOne(k', id, epochAgo), if Wakes(k'.tasks, id, epochAgo) then n + 1 else n)
  }

  // ---------------------------------------------------------------------
  // The fenced scripts
  // ---------------------------------------------------------------------

  predicate Owns(h: Hash, owner: Owner, expiry: int) {
    h.owner == Some(owner) && h.expires == Some(expiry)
  }

  predicate HoldsLease(k: Keys, id: int, owner: Owner, expiry: int, now: int) {
    id in k.tasks && Owns(k.tasks[id], owner, expiry) && expiry > now
  }

  function FinalizeScript(k: Keys, id: int, owner: Owner, expiry: int, duration: int,
                          children: seq<EnqueueRequest>, now: int): (r: (Keys, bool))
  {
    if HoldsLease(k, id, owner, expiry, now) then
      (Archive(CreateAll(k, children, Or(k.tasks[id].priority, PRIORITY_DEFAULT)), id, Success, duration, now), true)
    else
      (k, id !in k.tasks && id in k.archived && Owns(k.archived[id].hash, owner, expiry)
          && k.archived[id].result == Success)
  }

  function RenewScript(k: Keys, id: int, owner: Owner, expiry: int, duration: int, now: int): (r: (Keys, Option<int>)) {
    if HoldsLease(k, id, owner, expiry, now) then
      var extended := Max(expiry, now + duration);
      (k.(tasks := k.tasks[id := k.tasks[id].(expires := Some(extended))], leased := k.leased[id := extended]), Some(extended))
    else (k, None)
  }

  datatype Outcome = Fails | Retries | Yields

  function ResolveScript(k: Keys, id: int, owner: Owner, expiry: int, outcome: Outcome, wait: int, now: int):
    (r: (Keys, bool))
  {
    if !HoldsLease(k, id, owner, expiry, now) then (k, false)
    else match outcome
      case Fails => (Archive(k, id, Failure, 0, now), true)
      case Retries => (Retry(k, id, wait, now), true)
      case Yields => (YieldTask(k, id, wait, now), true)
  }

  // ---------------------------------------------------------------------
  // The scripts, command by command
  // ---------------------------------------------------------------------

  class RedisStore {
    var tasks: map<int, Hash>
    var archived: map<int, Copy>
    var active: Index
    var unleased: Index
    var leased: Index
    var archive: Index
    var nextId: int
    var failed: int
    var archivedCount: int
    var inbox: map<EventId, (EnqueueRequest, int)>

    ghost function View(): (k: Keys)
      reads this
    {
      Keys(tasks, archived, active, unleased, leased, archive, nextId, failed, archivedCount, inbox)
    }

    constructor ()
      ensures View() == EMPTY_KEYS
    {
      tasks, archived := map[], map[];
      active, unleased, leased, archive := map[], map[], map[], map[];
      nextId, failed, archivedCount := 0, 0, 0;
      inbox := map[];
    }

    method NextTaskId() returns (id: int)
      modifies this
      ensures id == old(nextId) + 1 && View() == old(View()).(nextId := id)
    {
      nextId := nextId + 1;
      id := nextId;
    }

    /** The transactional pipeline that writes a task under a reserved id. */
    method WriteTask(id: int, req: EnqueueRequest, priority: int)
      modifies this
      ensures View() == Insert(old(View()), id, req, priority)
    {
      var score := ActiveScore(priority, id);
      tasks := tasks[id := NewHash(req, priority)];
      active := active[id := score];
      if req.delayUntil.Some? && req.delayUntil.value > 0 {
        leased := leased[id := req.delayUntil.value];
      } else {
        unleased := unleased[id := score];
      }
    }

    method EnqueueEvent(event: EventId, req: EnqueueRequest) returns (answer: EventAnswer)
      modifies this
      ensures (View(), answer) == AcceptEvent(old(View()), event, req)
    {
      if event in inbox {
        if inbox[event].0 != req {
          return Refused;
        }
        return Accepted(inbox[event].1);
      }
      var id := NextTaskId();
      var priority := PRIORITY_DEFAULT;
      if req.priority.Some? {
        priority := req.priority.value;
      }
      WriteTask(id, req, priority);
      inbox := inbox[event := (req, id)];
      answer := Accepted(id);
    }

    method ClassMatches(id: int, classes: seq<string>) returns (ok: bool)
      ensures ok == Matches(tasks, id, classes)
    {
      if classes == [] {
        return true;
      }
      var c := Get(tasks, id).taskClass;
      for i := 0 to |classes|
        invariant c.None? || c.value !in classes[..i]
      {
        if c == Some(classes[i]) {
          return true;
        }
      }
      assert classes[..|classes|] == classes;
      return false;
    }

    method WriteLease(id: int, owner: Owner, expires: int)
      modifies this
      ensures View() == Grant(old(View()), id, owner, expires)
    {
      tasks := tasks[id := Get(tasks, id).(owner := Some(owner), expires := Some(expires))];
      leased := leased[id := expires];
    }

    method TryClaim(id: int, b: Batch) returns (taken: bool)
      modifies this
      ensures taken == Matches(old(tasks), id, b.classes)
      ensures View() == if taken then Grant(old(View()).(unleased := old(unleased) - {id}), id, b.owner, b.expires)
                        else old(View())
    {
      taken := ClassMatches(id, b.classes);
      if taken {
        unleased := unleased - {id};
        WriteLease(id, b.owner, b.expires);
      }
    }

    method TryReclaim(id: int, b: Batch) returns (taken: bool)
      modifies this
      ensures taken == Matches(old(tasks), id, b.classes)
      ensures View() == if taken then Grant(old(View()), id, b.owner, b.expires) else old(View())
    {
      taken := ClassMatches(id, b.classes);
      if taken {
        WriteLease(id, b.owner, b.expires);
      }
    }

    /** Phase 1 of the lease script. */
    method ClaimUnleased(b: Batch) returns (ids: seq<int>)
      modifies this
      ensures ids == First(old(View()), b) && View() == Claimed(old(View()), b)
    {
      ghost var k := View();
      ids := [];
      var i := 0;
      while i < |b.ranked| && |ids| < b.limit
        invariant 0 <= i <= |b.ranked|
        invariant ids == Picks(k.tasks, b.ranked[..i], b.classes, b.limit)
        invariant View() == Claim(k, ids, b.owner, b.expires)
      {
        var id := b.ranked[i];
        ClaimStep(k, b, i, ids);
        var taken := TryClaim(id, b);
        if taken {
          ids := ids + [id];
        }
        i := i + 1;
      }
      PicksFull(k.tasks, b.ranked, b.classes, b.limit, i);
    }

    /** Phase 2: expired leases, most urgent first. */
    method TakeExpired(b: Batch, limit: int) returns (ids: seq<int>)
      modifies this
      ensures ids == Picks(old(tasks), b.expired, b.classes, limit)
      ensures View() == Reclaim(old(View()), ids, b.owner, b.expires)
    {
      ghost var k := View();
      ids := [];
      var i := 0;
      while i < |b.expired| && |ids| < limit
        invariant 0 <= i <= |b.expired|
        invariant ids == Picks(k.tasks, b.expired[..i], b.classes, limit)
        invariant View() == Reclaim(k, ids, b.owner, b.expires)
      {
        var id := b.expired[i];
        ReclaimStep(k, b, limit, i, ids);
        var taken := TryReclaim(id, b);
        if taken {
          ids := ids + [id];
        }
        i := i + 1;
      }
      PicksFull(k.tasks, b.expired, b.classes, limit, i);
    }

    method Lease(b: Batch) returns (ids: seq<int>)
      modifies this
      ensures (View(), ids) == LeaseBatch(old(View()), b)
    {
      ids := ClaimUnleased(b);
      var more := TakeExpired(b, b.limit - |ids|);
      ids := ids + more;
    }

    method Unindex(id: int)
      modifies this
      ensures View() == old(View()).(active := old(active) - {id}, unleased := old(unleased) - {id},
                                     leased := old(leased) - {id})
    {
      active := active - {id};
      unleased := unleased - {id};
      leased := leased - {id};
    }

    /** Copy the hash to the archive, then drop it from every index. */
    method MoveToArchive(id: int, result: Result, duration: int, now: int)
      requires id in tasks
      modifies this
      ensures View() == Archive(old(View()), id, result, duration, now)
    {
      var h := tasks[id];
      archived := archived[id := Copy(h, result, duration, now)];
      Unindex(id);
      archive := archive[id := now];
      archivedCount := archivedCount + 1;
      if Or(h.failures, 0) > 0 {
        failed := failed - 1;
      }
      tasks := tasks - {id};
    }

    method ArchiveTask(id: int, result: Result, duration: int, now: int) returns (ok: bool)
      modifies this
      ensures ok <==> id in old(tasks)
      ensures View() == if ok then Archive(old(View()), id, result, duration, now) else old(View())
    {
      ok := id in tasks;
      if ok {
        MoveToArchive(id, result, duration, now);
      }
    }

    method FailTask(id: int, wait: int, now: int) returns (ok: bool)
      modifies this
      ensures ok <==> id in old(tasks)
      ensures View() == if ok then Retry(old(View()), id, wait, now) else old(View())
    {
      ok := id in tasks;
      if ok {
        RecordFailure(id, wait, now);
      }
    }

    method RecordFailure(id: int, wait: int, now: int)
      modifies this
      ensures View() == Retry(old(View()), id, wait, now)
    {
      var before := Or(Get(tasks, id).failures, 0);
      tasks := tasks[id := Get(tasks, id).(failures := Some(before + 1), failureTime := Some(now),
                                           owner := None, expires := Some(now + wait))];
      unleased := unleased - {id};
      leased := leased[id := now + wait];
      if before == 0 {
        failed := failed + 1;
      }
    }

    method Yield(id: int, duration: int, now: int)
      modifies this
      ensures View() == YieldTask(old(View()), id, duration, now)
    {
      var wait := duration;
      if wait < YIELD_MINIMUM {
        wait := YIELD_MINIMUM;
      }
      tasks := tasks[id := Get(tasks, id).(owner := Some(Owner.Yield), expires := Some(now + wait))];
      unleased := unleased - {id};
      leased := leased[id := now + wait];
    }

    method Awaken(ids: seq<int>, now: int) returns (count: nat)
      modifies this
      ensures (View(), count) == Wake(old(View()), ids, now - AWAKEN_WINDOW)
    {
      ghost var k := View();
      var epochAgo := now - AWAKEN_WINDOW;
      count := 0;
      for i := 0 to |ids|
        invariant (View(), count) == Wake(k, ids[..i], epochAgo)
      {
        var h := Get(tasks, ids[i]);
        assert ids[..i + 1][..i] == ids[..i];
        if h.owner == Some(Owner.Yield) && h.expires.Some? && h.expires.value > epochAgo && Or(h.failures, 1) == 0 {
          tasks := tasks[ids[i] := h.(expires := Some(epochAgo))];
          leased := leased - {ids[i]};
          unleased := unleased[ids[i] := ActiveScore(Or(h.priority, PRIORITY_DEFAULT), ids[i])];
          count := count + 1;
        }
      }
      assert ids[..|ids|] == ids;
    }

    method Finalize(id: int, owner: Owner, expiry: int, duration: int, children: seq<EnqueueRequest>, now: int)
      returns (ok: bool)
      modifies this
      ensures (View(), ok) == FinalizeScript(old(View()), id, owner, expiry, duration, children, now)
    {
      if id !in tasks {
        return id in archived && Owns(archived[id].hash, owner, expiry) && archived[id].result == Success;
      }
      if !Owns(tasks[id], owner, expiry) || expiry <= now {
        return false;
      }
      CreateChildren(children, Or(tasks[id].priority, PRIORITY_DEFAULT));
      MoveToArchive(id, Success, duration, now);
      ok := true;
    }

    method CreateChildren(children: seq<EnqueueRequest>, priority: int)
      modifies this
      ensures View() == CreateAll(old(View()), children, priority)
    {
      ghost var k := View();
      for i := 0 to |children|
        invariant View() == CreateAll(k, children[..i], priority)
      {
        assert children[..i + 1][..i] == children[..i];
        var childId := NextTaskId();
        WriteTask(childId, children[i], Or(children[i].priority, priority));
      }
      assert children[..|children|] == children;
    }

    method Renew(id: int, owner: Owner, expiry: int, duration: int, now: int) returns (r: Option<int>)
      modifies this
      ensures (View(), r) == RenewScript(old(View()), id, owner, expiry, duration, now)
    {
      if !Owns(Get(tasks, id), owner, expiry) || expiry <= now {
        return None;
      }
      var extended := Max(expiry, now + duration);
      tasks := tasks[id := tasks[id].(expires := Some(extended))];
      leased := leased[id := extended];
      r := Some(extended);
    }

    method Resolve(id: int, owner: Owner, expiry: int, outcome: Outcome, wait: int, now: int) returns (ok: bool)
      modifies this
      ensures (View(), ok) == ResolveScript(old(View()), id, owner, expiry, outcome, wait, now)
    {
      if !Owns(Get(tasks, id), owner, expiry) || expiry <= now {
        return false;
      }
      match outcome {
        case Fails => MoveToArchive(id, Failure, 0, now);
        case Retries => RecordFailure(id, wait, now);
        case Yields => Yield(id, wait, now);
      }
      ok := true;
    }
  }

  lemma PickNext(tasks: map<int, Hash>, order: seq<int>, classes: seq<string>, limit: int, i: nat)
    requires i < |order|
    ensures var ids := Picks(tasks, order[..i], classes, limit);
            Picks(tasks, order[..i + 1], classes, limit)
            == if |ids| < limit && Matches(tasks, order[i], classes) then ids + [order[i]] else ids
  {
    assert order[..i + 1][..i] == order[..i];
  }

  /** Once the limit is reached, or the order walked, the picks are final. */
  lemma {:induction false} PicksFull(tasks: map<int, Hash>, order: seq<int>, classes: seq<string>, limit: int, i: nat)
    requires i <= |order| && (i == |order| || |Picks(tasks, order[..i], classes, limit)| >= limit)
    ensures Picks(tasks, order, classes, limit) == Picks(tasks, order[..i], classes, limit)
    decreases |order| - i
  {
    if i == |order| {
      assert order[..i] == order;
    } else {
      PickNext(tasks, order, classes, limit, i);
      PicksFull(tasks, order, classes, limit, i + 1);
    }
  }

  lemma ClaimNext(k: Keys, ids: seq<int>, owner: Owner, expires: int, id: int)
    ensures var k' := Claim(k, ids, owner, expires);
            Claim(k, ids + [id], owner, expires) == Grant(k'.(unleased := k'.unleased - {id}), id, owner, expires)
  {
    assert (ids + [id])[..|ids|] == ids;
  }

  lemma ReclaimNext(k: Keys, ids: seq<int>, owner: Owner, expires: int, id: int)
    ensures Reclaim(k, ids + [id], owner, expires) == Grant(Reclaim(k, ids, owner, expires), id, owner, expires)
  {
    assert (ids + [id])[..|ids|] == ids;
  }

  /** One turn of the loop of phase 1. */
  lemma ClaimStep(k: Keys, b: Batch, i: nat, ids: seq<int>)
    requires i < |b.ranked| && ids == Picks(k.tasks, b.ranked[..i], b.classes, b.limit) && |ids| < b.limit
    ensures var id, k' := b.ranked[i], Claim(k, ids, b.owner, b.expires);
            && Matches(k'.tasks, id, b.classes) == Matches(k.tasks, id, b.classes)
            && Picks(k.tasks, b.ranked[..i + 1], b.classes, b.limit)
               == (if Matches(k.tasks, id, b.classes) then ids + [id] else ids)
            && Claim(k, ids + [id], b.owner, b.expires)
               == Grant(k'.(unleased := k'.unleased - {id}), id, b.owner, b.expires)
  {
    ClaimKeepsClasses(k, ids, b.owner, b.expires, b.ranked[i]);
    PickNext(k.tasks, b.ranked, b.classes, b.limit, i);
    ClaimNext(k, ids, b.owner, b.expires, b.ranked[i]);
  }

  /** One turn of the loop of phase 2. */
  lemma ReclaimStep(k: Keys, b: Batch, limit: int, i: nat, ids: seq<int>)
    requires i < |b.expired| && ids == Picks(k.tasks, b.expired[..i], b.classes, limit) && |ids| < limit
    ensures var id, k' := b.expired[i], Reclaim(k, ids, b.owner, b.expires);
            && Matches(k'.tasks, id, b.classes) == Matches(k.tasks, id, b.classes)
            && Picks(k.tasks, b.expired[..i + 1], b.classes, limit)
               == (if Matches(k.tasks, id, b.classes) then ids + [id] else ids)
            && Reclaim(k, ids + [id], b.owner, b.expires) == Grant(k', id, b.owner, b.expires)
  {
    ReclaimKeepsClasses(k, ids, b.owner, b.expires, b.expired[i]);
    PickNext(k.tasks, b.expired, b.classes, limit, i);
    ReclaimNext(k, ids, b.owner, b.expires, b.expired[i]);
  }

  lemma {:induction false} ClaimKeepsClasses(k: Keys, ids: seq<int>, owner: Owner, expires: int, id: int)
    ensures Get(Claim(k, ids, owner, expires).tasks, id).taskClass == Get(k.tasks, id).taskClass
    decreases |ids|
  {
    if ids == [] {
    } else {
      ClaimKeepsClasses(k, ids[..|ids| - 1], owner, expires, id);
    }
  }

  lemma {:induction false} ReclaimKeepsClasses(k: Keys, ids: seq<int>, owner: Owner, expires: int, id: int)
    ensures Get(Reclaim(k, ids, owner, expires).tasks, id).taskClass == Get(k.tasks, id).taskClass
    decreases |ids|
  {
    if ids == [] {
    } else {
      ReclaimKeepsClasses(k, ids[..|ids| - 1], owner, expires, id);
    }
  }
}
