/** The MySQL task queue: the active and archive tables, the id counter and the
    event inbox.  Each transaction is one function of the database; the class
    performs it row by row. */
module QueueStore {
  import opened Numbers
  import opened Options
  import opened QueueTypes

  type TaskId = nat

  datatype Spec = Spec(taskClass: string, data: string, priority: int, objectPHID: string, containerPHID: string)

  datatype Task = Task(spec: Spec, owner: Option<Owner>, expires: Option<int>, failureCount: nat,
                       failureTime: Option<int>, created: int, modified: int)

  datatype Archived = Archived(task: Task, result: Result, duration: int, epoch: int)

  /** The unique receipt of an event; SHA-256 is taken to be injective, so the
      stored digest is the request itself. */
  datatype Receipt = Receipt(request: EnqueueRequest, response: (TaskId, Task))

  datatype Db = Db(active: map<TaskId, Task>, archive: map<TaskId, Archived>, counter: nat,
                   inbox: map<EventId, Receipt>)

  const EMPTY := Db(map[], map[], 0, map[])

  /** A particular ownership window. */
  datatype Lease = Lease(task: TaskId, owner: Owner, expires: int)

  // ---------------------------------------------------------------------
  // Enqueue
  // ---------------------------------------------------------------------

  function NewTask(req: EnqueueRequest, now: int): (t: Task) {
    var priority := if req.priority.Some? then req.priority.value else PRIORITY_DEFAULT;
    Task(Spec(req.taskClass, req.data, priority, req.objectPHID, req.containerPHID),
         None, Delay(req), 0, None, now, now)
  }

  /** The counter row is bumped and read back in the inserting transaction. */
  function Enqueue(db: Db, req: EnqueueRequest, now: int): (r: Db) {
    db.(active := db.active[db.counter + 1 := NewTask(req, now)], counter := db.counter + 1)
  }

  /** A child without a priority inherits its parent's. */
  function Inherit(child: EnqueueRequest, priority: int): (r: EnqueueRequest) {
    if child.priority.None? then child.(priority := Some(priority)) else child
  }

  function EnqueueAll(db: Db, children: seq<EnqueueRequest>, priority: int, now: int): (r: Db)
    ensures db.active.Keys <= r.active.Keys
    decreases |children|
  {
    if children == [] then db
    else Enqueue(EnqueueAll(db, children[..|children| - 1], priority, now),
                 Inherit(children[|children| - 1], priority), now)
  }

  datatype EventReply = Conflict | Created(id: TaskId, task: Task)

  function EnqueueEvent(db: Db, event: EventId, req: EnqueueRequest, now: int): (r: (Db, EventReply)) {
    if event in db.inbox then
      var receipt := db.inbox[event];
      if receipt.request != req then (db, Conflict) else (db, Created(receipt.response.0, receipt.response.1))
    else
      var id, task := db.counter + 1, NewTask(req, now);
      (Enqueue(db, req, now).(inbox := db.inbox[event := Receipt(req, (id, task))]), Created(id, task))
  }

  // ---------------------------------------------------------------------
  // Lease
  // ---------------------------------------------------------------------

  function Members(ids: seq<TaskId>): (s: set<TaskId>) {
    set id | id in ids
  }

  /** A row that a lease takes: one nobody has leased or delayed, or one whose lease
      or delay is over. */
  ghost predicate Offered(t: Task, id: TaskId, seenNew: seq<TaskId>, seenExpired: seq<TaskId>, now: int) {
    || (id in seenNew && t.owner == None && t.expires == None)
    || (id in seenExpired && t.expires.Some? && t.expires.value < now)
  }

  /** Exactly the offered rows go to the owner, until the given time. */
  ghost predicate Serves(db: Db, r: Db, seenNew: seq<TaskId>, second: seq<TaskId>, owner: Owner, leaseExp: int, now: int) {
    && r.active.Keys == db.active.Keys
    && forall id :: id in db.active ==>
         r.active[id] == if Offered(db.active[id], id, seenNew, second, now)
                         then db.active[id].(owner := Some(owner), expires := Some(leaseExp)) else db.active[id]
  }

  /** Every offered row is among the leases returned. */
  ghost predicate HandsOut(db: Db, leases: seq<Lease>, seenNew: seq<TaskId>, second: seq<TaskId>, owner: Owner,
                           leaseExp: int, now: int)
  {
    forall id :: id in db.active && Offered(db.active[id], id, seenNew, second, now) ==>
      Lease(id, owner, leaseExp) in leases
  }

  /** What LIMIT leaves of a selection. */
  function AtMost(ids: seq<TaskId>, limit: nat): (r: seq<TaskId>)
    ensures r <= ids && |r| == Min(|ids|, limit)
  {
    if limit < |ids| then ids[..limit] else ids
  }

  predicate Unleased(t: Task) {
    t.owner.None? && t.expires.None?
  }

  predicate ExpiredBefore(t: Task, now: int) {
    t.expires.Some? && t.expires.value < now
  }

  function Grant(t: Task, owner: Owner, expires: int): (r: Task) {
    t.(owner := Some(owner), expires := Some(expires))
  }

  /** The first UPDATE: rows among `ids` that nobody has leased or delayed. */
  function TakeNew(db: Db, ids: set<TaskId>, owner: Owner, expires: int): (r: Db) {
    db.(active := map id | id in db.active ::
          if id in ids && Unleased(db.active[id]) then Grant(db.active[id], owner, expires) else db.active[id])
  }

  /** The second UPDATE: rows among `ids` whose lease has run out. */
  function TakeExpired(db: Db, ids: set<TaskId>, owner: Owner, expires: int, now: int): (r: Db) {
    db.(active := map id | id in db.active ::
          if id in ids && ExpiredBefore(db.active[id], now) then Grant(db.active[id], owner, expires)
          else db.active[id])
  }

  predicate Eligible(t: Task, now: Option<int>) {
    if now.None? then Unleased(t) else ExpiredBefore(t, now.value)
  }

  /** The rows an UPDATE changes. */
  function Affected(active: map<TaskId, Task>, ids: set<TaskId>, now: Option<int>): (r: set<TaskId>) {
    set id | id in ids && id in active && Eligible(active[id], now)
  }

  /** Either UPDATE; `now` is None for the unleased one. */
  function Taken(db: Db, ids: set<TaskId>, owner: Owner, expires: int, now: Option<int>): (r: Db) {
    if now.None? then TakeNew(db, ids, owner, expires) else TakeExpired(db, ids, owner, expires, now.value)
  }

  function TakenRow(t: Task, listed: bool, owner: Owner, expires: int, now: Option<int>): (r: Task) {
    if listed && Eligible(t, now) then Grant(t, owner, expires) else t
  }

  /** The rows the final SELECT may return. */
  predicate Fetchable(db: Db, id: TaskId, owner: Owner, now: int) {
    && id in db.active && db.active[id].owner == Some(owner)
    && db.active[id].expires.Some? && db.active[id].expires.value > now
  }

  /** A lease as the caller receives it: the row it holds now. */
  ghost predicate Granted(db: Db, l: Lease, owner: Owner, now: int) {
    && l.owner == owner && l.expires > now
    && l.task in db.active && db.active[l.task].owner == Some(owner) && db.active[l.task].expires == Some(l.expires)
  }

  /** Every listed row the owner holds is returned. */
  ghost predicate AllFetched(db: Db, leases: seq<Lease>, ids: seq<TaskId>, owner: Owner, now: int) {
    forall id :: id in ids && Fetchable(db, id, owner, now) ==> Lease(id, owner, db.active[id].expires.value) in leases
  }

  ghost predicate NoneTwice(leases: seq<Lease>) {
    forall i, j :: 0 <= i < j < |leases| ==> leases[i] != leases[j]
  }

  // ---------------------------------------------------------------------
  // The fenced routes
  // ---------------------------------------------------------------------

  /** `lockExecution` finds the row and the row is this window's. */
  predicate Holds(db: Db, l: Lease, now: int) {
    && l.task in db.active
    && db.active[l.task].owner == Some(l.owner)
    && db.active[l.task].expires == Some(l.expires)
    && l.expires > now
  }

  function Archive(db: Db, id: TaskId, result: Result, duration: int, now: int): (r: Db)
    requires id in db.active
  {
    db.(archive := db.archive[id := Archived(db.active[id].(modified := now), result, duration, now)],
        active := db.active - {id})
  }

  /** The archive still knows the lease under which the task succeeded. */
  predicate Replays(db: Db, l: Lease) {
    && l.task !in db.active && l.task in db.archive
    && var a := db.archive[l.task];
    && a.task.owner == Some(l.owner) && a.task.expires == Some(l.expires) && a.result == Success
  }

  function Finalize(db: Db, l: Lease, followups: seq<EnqueueRequest>, duration: int, now: int): (r: (Db, bool))
  {
    if Holds(db, l, now) then
      (Archive(EnqueueAll(db, followups, db.active[l.task].spec.priority, now), l.task, Success, duration, now), true)
    else (db, Replays(db, l))
  }

  function Renew(db: Db, l: Lease, duration: int, now: int): (r: (Db, Option<int>)) {
    if Holds(db, l, now) then
      var expiry := if now + duration < l.expires then l.expires else now + duration;
      (db.(active := db.active[l.task := db.active[l.task].(expires := Some(expiry))]), Some(expiry))
    else (db, None)
  }

  datatype Resolution = Fail | Retry(wait: int) | YieldFor(duration: int)

  function Released(t: Task, how: Resolution, now: int): (r: Task)
    requires !how.Fail?
  {
    match how
    case Retry(wait) =>
      t.(failureCount := t.failureCount + 1, failureTime := Some(now), owner := None,
         expires := Some(now + wait), modified := now)
    case YieldFor(duration) =>
      t.(owner := Some(Yield), expires := Some(now + (if duration < YIELD_MINIMUM then YIELD_MINIMUM else duration)),
         modified := now)
  }

  function Resolve(db: Db, l: Lease, how: Resolution, now: int): (r: (Db, bool)) {
    if !Holds(db, l, now) then (db, false)
    else if how.Fail? then (Archive(db, l.task, Failure, 0, now), true)
    else (db.(active := db.active[l.task := Released(db.active[l.task], how, now)]), true)
  }

  // ---------------------------------------------------------------------
  // The routes without a fence
  // ---------------------------------------------------------------------

  /** Complete, Cancel and a permanent Fail. */
  function ArchiveTask(db: Db, id: TaskId, result: Result, duration: int, now: int): (r: (Db, bool)) {
    if id in db.active then (Archive(db, id, result, duration, now), true) else (db, false)
  }

  /** A temporary Fail, and Yield, whoever holds the task. */
  function Release(db: Db, id: TaskId, how: Resolution, now: int): (r: Db)
    requires !how.Fail?
  {
    if id in db.active then db.(active := db.active[id := Released(db.active[id], how, now)]) else db
  }

  predicate Awakenable(t: Task, epochAgo: int) {
    t.owner == Some(Yield) && t.expires.Some? && t.expires.value > epochAgo && t.failureCount == 0
  }

  function Awaken(db: Db, ids: set<TaskId>, now: int): (r: Db) {
    var epochAgo := now - AWAKEN_WINDOW;
    db.(active := map id | id in db.active ::
          if id in ids && Awakenable(db.active[id], epochAgo) then db.active[id].(expires := Some(epochAgo))
          else db.active[id])
  }

  // ---------------------------------------------------------------------
  // Every id is in exactly one table
  // ---------------------------------------------------------------------

  ghost predicate Conserved(db: Db) {
    && db.active.Keys !! db.archive.Keys
    && (forall id: TaskId :: 1 <= id <= db.counter <==> id in db.active || id in db.archive)
  }

  /** What every transaction does to the ids: new ones are active, archived ones
      stay archived as they are. */
  ghost predicate IdsKept(db: Db, r: Db) {
    && db.counter <= r.counter
    && (forall id :: id in db.archive ==> id in r.archive && r.archive[id] == db.archive[id])
  }

  /** Enqueueing children changes nothing but the counter and fresh rows. */
  lemma {:induction false} EnqueueAllKeeps(db: Db, children: seq<EnqueueRequest>, priority: int, now: int)
    ensures var r := EnqueueAll(db, children, priority, now);
            && r.counter == db.counter + |children|
            && r.archive == db.archive && r.inbox == db.inbox
            && (forall id :: id in db.active && id <= db.counter ==> r.active[id] == db.active[id])
            && (forall id :: id in r.active <==> id in db.active || db.counter < id <= db.counter + |children|)
    decreases |children|
  {
    if children == [] {
    } else {
      EnqueueAllKeeps(db, children[..|children| - 1], priority, now);
    }
  }

  /** The children get consecutive ids, in order. */
  lemma {:induction false} ChildAt(db: Db, children: seq<EnqueueRequest>, priority: int, now: int, i: nat)
    requires i < |children|
    ensures var r := EnqueueAll(db, children, priority, now);
            && db.counter + 1 + i in r.active
            && r.active[db.counter + 1 + i] == NewTask(Inherit(children[i], priority), now)
    decreases |children|
  {
    var init := children[..|children| - 1];
    EnqueueAllKeeps(db, init, priority, now);
    if i < |init| {
      ChildAt(db, init, priority, now, i);
    }
  }

  lemma EnqueueConserves(db: Db, req: EnqueueRequest, now: int)
    requires Conserved(db)
    ensures Conserved(Enqueue(db, req, now)) && IdsKept(db, Enqueue(db, req, now))
  {
  }

  lemma {:induction false} EnqueueAllConserves(db: Db, children: seq<EnqueueRequest>, priority: int, now: int)
    requires Conserved(db)
    ensures Conserved(EnqueueAll(db, children, priority, now)) && IdsKept(db, EnqueueAll(db, children, priority, now))
    decreases |children|
  {
    if children == [] {
    } else {
      EnqueueAllConserves(db, children[..|children| - 1], priority, now);
    }
  }

  lemma ArchiveConserves(db: Db, id: TaskId, result: Result, duration: int, now: int)
    requires Conserved(db) && id in db.active
    ensures Conserved(Archive(db, id, result, duration, now)) && IdsKept(db, Archive(db, id, result, duration, now))
  {
  }

  lemma FinalizeConserves(db: Db, l: Lease, followups: seq<EnqueueRequest>, duration: int, now: int)
    requires Conserved(db)
    ensures Conserved(Finalize(db, l, followups, duration, now).0)
    ensures IdsKept(db, Finalize(db, l, followups, duration, now).0)
  {
    if Holds(db, l, now) {
      var priority := db.active[l.task].spec.priority;
      EnqueueAllConserves(db, followups, priority, now);
      ArchiveConserves(EnqueueAll(db, followups, priority, now), l.task, Success, duration, now);
    }
  }

  lemma ResolveConserves(db: Db, l: Lease, how: Resolution, now: int)
    requires Conserved(db)
    ensures Conserved(Resolve(db, l, how, now).0) && IdsKept(db, Resolve(db, l, how, now).0)
  {
    if Holds(db, l, now) && how.Fail? {
      ArchiveConserves(db, l.task, Failure, 0, now);
    }
  }

  /** Only the rows of the active table change, and none appears or goes. */
  ghost predicate RowsOnly(db: Db, r: Db) {
    r.active.Keys == db.active.Keys && r.archive == db.archive && r.counter == db.counter && r.inbox == db.inbox
  }

  lemma RowsOnlyConserves(db: Db, r: Db)
    requires Conserved(db) && RowsOnly(db, r)
    ensures Conserved(r) && IdsKept(db, r)
  {
    assert forall id :: id in r.active <==> id in db.active;
  }

  // ---------------------------------------------------------------------
  // The implementation
  // ---------------------------------------------------------------------

  class Store {
    var active: map<TaskId, Task>
    var archive: map<TaskId, Archived>
    var counter: nat
    var inbox: map<EventId, Receipt>

    function View(): (db: Db)
      reads this
    {
      Db(active, archive, counter, inbox)
    }

    constructor ()
      ensures View() == EMPTY
    {
      active, archive, counter, inbox := map[], map[], 0, map[];
    }

    method NextCounterValue() returns (id: TaskId)
      modifies this`counter
      ensures id == counter == old(counter) + 1
    {
      counter := counter + 1;
      return counter;
    }

    method EnqueueInTx(req: EnqueueRequest, now: int) returns (id: TaskId, task: Task)
      modifies this
      ensures View() == Enqueue(old(View()), req, now)
      ensures id == old(counter) + 1 && task == NewTask(req, now)
    {
      var priority := PRIORITY_DEFAULT;
      if req.priority.Some? {
        priority := req.priority.value;
      }
      id := NextCounterValue();
      var leaseExpires := None;
      if req.delayUntil.Some? && req.delayUntil.value > 0 {
        leaseExpires := req.delayUntil;
      }
      task := Task(Spec(req.taskClass, req.data, priority, req.objectPHID, req.containerPHID),
                   None, leaseExpires, 0, None, now, now);
      active := active[id := task];
    }

    /** The unique receipt is written in the transaction that enqueues. */
    method EnqueueEventInTx(event: EventId, req: EnqueueRequest, now: int) returns (reply: EventReply)
      modifies this
      ensures (View(), reply) == EnqueueEvent(old(View()), event, req, now)
    {
      if event in inbox {
        var receipt := inbox[event];
        if receipt.request != req {
          return Conflict;
        }
        return Created(receipt.response.0, receipt.response.1);
      }
      var id, task := EnqueueInTx(req, now);
      inbox := inbox[event := Receipt(req, (id, task))];
      return Created(id, task);
    }

    /** None when the row is missing or belongs to another window. */
    method LockExecution(l: Lease, now: int) returns (row: Option<Task>)
      ensures row == if Holds(View(), l, now) then Some(active[l.task]) else None
    {
      if l.task !in active {
        return None;
      }
      var t := active[l.task];
      if t.owner != Some(l.owner) || t.expires.None? || t.expires.value != l.expires || l.expires <= now {
        return None;
      }
      return Some(t);
    }

    method ArchiveRow(id: TaskId, result: Result, duration: int, now: int)
      requires id in active
      modifies this
      ensures View() == Archive(old(View()), id, result, duration, now)
    {
      archive := archive[id := Archived(active[id].(modified := now), result, duration, now)];
      active := active - {id};
    }

    method FinalizeTask(l: Lease, followups: seq<EnqueueRequest>, duration: int, now: int) returns (ok: bool)
      modifies this
      ensures (View(), ok) == Finalize(old(View()), l, followups, duration, now)
    {
      var row := LockExecution(l, now);
      if row.None? {
        if l.task in active || l.task !in archive {
          return false;
        }
        var a := archive[l.task];
        return a.task.owner == Some(l.owner) && a.task.expires == Some(l.expires) && a.result == Success;
      }
      ghost var was := View();
      var priority := row.value.spec.priority;
      for i := 0 to |followups|
        invariant View() == EnqueueAll(was, followups[..i], priority, now)
      {
        var child := followups[i];
        if child.priority.None? {
          child := child.(priority := Some(priority));
        }
        assert followups[..i + 1][..i] == followups[..i];
        var _, _ := EnqueueInTx(child, now);
      }
      assert followups[..|followups|] == followups;
      ArchiveRow(l.task, Success, duration, now);
      return true;
    }

    method RenewTask(l: Lease, duration: int, now: int) returns (expiry: Option<int>)
      modifies this
      ensures (View(), expiry) == Renew(old(View()), l, duration, now)
    {
      var row := LockExecution(l, now);
      if row.None? {
        return None;
      }
      var e := now + duration;
      if e < l.expires {
        e := l.expires;
      }
      active := active[l.task := row.value.(expires := Some(e))];
      return Some(e);
    }

    method ResolveTask(l: Lease, how: Resolution, now: int) returns (ok: bool)
      modifies this
      ensures (View(), ok) == Resolve(old(View()), l, how, now)
    {
      var row := LockExecution(l, now);
      if row.None? {
        return false;
      }
      var t := row.value;
      match how {
        case Fail =>
          ArchiveRow(l.task, Failure, 0, now);
        case Retry(wait) =>
          active := active[l.task := t.(failureCount := t.failureCount + 1, failureTime := Some(now),
                                        owner := None, expires := Some(now + wait), modified := now)];
        case YieldFor(duration) =>
          var d := duration;
          if d < YIELD_MINIMUM {
            d := YIELD_MINIMUM;
          }
          active := active[l.task := t.(owner := Some(Yield), expires := Some(now + d), modified := now)];
      }
      return true;
    }

    /** One conditional UPDATE, row by row over the selected ids; `now` is None
        for the unleased phase. */
    method TakeRows(ids: seq<TaskId>, owner: Owner, expires: int, now: Option<int>) returns (taken: nat)
      modifies this`active
      ensures View() == Taken(old(View()), Members(ids), owner, expires, now)
      ensures taken == |Affected(old(active), Members(ids), now)| <= |ids|
    {
      ghost var was := active;
      var done: set<TaskId> := {};
      taken := 0;
      for i := 0 to |ids|
        invariant active.Keys == was.Keys && done == Members(ids[..i])
        invariant taken == |Affected(was, done, now)| <= i
        invariant forall id :: id in active ==> active[id] == TakenRow(was[id], id in done, owner, expires, now)
      {
        MembersNext(ids, i);
        AffectedNext(was, done, ids[i], now);
        if ids[i] !in done && ids[i] in active && Eligible(active[ids[i]], now) {
          active := active[ids[i] := Grant(active[ids[i]], owner, expires)];
          taken := taken + 1;
        }
        done := done + {ids[i]};
      }
      assert ids[..|ids|] == ids;
      TakenRows(old(View()), active, Members(ids), owner, expires, now);
    }

    /** The final SELECT: rows among `ids` that this owner now holds. */
    method FetchLeased(ids: seq<TaskId>, owner: Owner, now: int, limit: nat) returns (leases: seq<Lease>)
      ensures |leases| <= limit && NoneTwice(leases)
      ensures forall l :: l in leases ==> l.task in ids && Granted(View(), l, owner, now)
      ensures |leases| < limit ==> AllFetched(View(), leases, ids, owner, now)
    {
      leases := [];
      for i := 0 to |ids|
        invariant |leases| <= limit && NoneTwice(leases)
        invariant forall l :: l in leases ==> l.task in ids && Granted(View(), l, owner, now)
        invariant |leases| < limit ==> forall k :: 0 <= k < i && Fetchable(View(), ids[k], owner, now) ==>
            Lease(ids[k], owner, active[ids[k]].expires.value) in leases
      {
        if |leases| < limit && Fetchable(View(), ids[i], owner, now) {
          var l := Lease(ids[i], owner, active[ids[i]].expires.value);
          if l !in leases {
            leases := leases + [l];
          }
        }
      }
    }

    /** The two UPDATEs of `Lease` over what its two SELECTs saw. */
    method LeaseRows(max: nat, owner: Owner, leaseExp: int, now: int, seenNew: seq<TaskId>, seenExpired: seq<TaskId>)
      returns (second: seq<TaskId>)
      requires |seenNew| <= max
      modifies this`active
      ensures View() == TakeExpired(TakeNew(old(View()), Members(seenNew), owner, leaseExp),
                                    Members(second), owner, leaseExp, now)
      ensures second <= seenExpired
      ensures |second| == Min(|seenExpired|, max - |Affected(old(active), Members(seenNew), None)|)
      ensures leaseExp > now ==> Serves(old(View()), View(), seenNew, second, owner, leaseExp, now)
    {
      var leased := TakeRows(seenNew, owner, leaseExp, None);
      second := AtMost(seenExpired, max - leased);
      var _ := TakeRows(second, owner, leaseExp, Some(now));
      if leaseExp > now {
        LeaseServes(old(View()), View(), seenNew, second, owner, leaseExp, now);
      }
    }

    /** The three statements of `Lease`. */
    method LeaseTasks(limit: int, owner: Owner, leaseDuration: int, now: int,
                      seenNew: seq<TaskId>, seenExpired: seq<TaskId>)
      returns (leases: seq<Lease>, ghost ids: seq<TaskId>, ghost expiredIds: seq<TaskId>)
      requires |seenNew| <= if limit <= 0 then 1 else limit
      modifies this`active
      ensures View() == TakeExpired(TakeNew(old(View()), Members(seenNew), owner, now + leaseDuration),
                                    Members(expiredIds), owner, now + leaseDuration, now)
      ensures expiredIds <= seenExpired && ids == seenNew + expiredIds
      ensures |expiredIds| == Min(|seenExpired|, (if limit <= 0 then 1 else limit)
                                                 - |Affected(old(active), Members(seenNew), None)|)
      ensures |leases| <= (if limit <= 0 then 1 else limit) && NoneTwice(leases)
      ensures forall l :: l in leases ==> l.task in ids && Granted(View(), l, owner, now)
      ensures |leases| < (if limit <= 0 then 1 else limit) ==> AllFetched(View(), leases, ids, owner, now)
      ensures leaseDuration > 0 ==> Serves(old(View()), View(), seenNew, expiredIds, owner, now + leaseDuration, now)
      ensures leaseDuration > 0 && |leases| < (if limit <= 0 then 1 else limit) ==>
                HandsOut(old(View()), leases, seenNew, expiredIds, owner, now + leaseDuration, now)
    {
      var max := if limit <= 0 then 1 else limit;
      var second := LeaseRows(max, owner, now + leaseDuration, now, seenNew, seenExpired);
      var all := seenNew + second;
      leases := FetchLeased(all, owner, now, max);
      ids, expiredIds := all, second;
      if leaseDuration > 0 && |leases| < max {
        ServedAreHandedOut(old(View()), View(), leases, seenNew, second, owner, now + leaseDuration, now);
      }
    }

    method ArchiveUnfenced(id: TaskId, result: Result, duration: int, now: int) returns (ok: bool)
      modifies this
      ensures (View(), ok) == ArchiveTask(old(View()), id, result, duration, now)
    {
      if id !in active {
        return false;
      }
      ArchiveRow(id, result, duration, now);
      return true;
    }
  }

  lemma LeaseServes(db: Db, r: Db, seenNew: seq<TaskId>, second: seq<TaskId>, owner: Owner, leaseExp: int, now: int)
    requires r == TakeExpired(TakeNew(db, Members(seenNew), owner, leaseExp), Members(second), owner, leaseExp, now)
    requires leaseExp > now
    ensures Serves(db, r, seenNew, second, owner, leaseExp, now)
  {
  }

  lemma ServedAreHandedOut(db: Db, r: Db, leases: seq<Lease>, seenNew: seq<TaskId>, second: seq<TaskId>, owner: Owner,
                           leaseExp: int, now: int)
    requires Serves(db, r, seenNew, second, owner, leaseExp, now) && leaseExp > now
    requires AllFetched(r, leases, seenNew + second, owner, now)
    ensures HandsOut(db, leases, seenNew, second, owner, leaseExp, now)
  {
    forall id | id in db.active && Offered(db.active[id], id, seenNew, second, now)
      ensures Lease(id, owner, leaseExp) in leases
    {
      assert id in seenNew + second && Fetchable(r, id, owner, now);
    }
  }

  lemma TakenRows(db: Db, active: map<TaskId, Task>, ids: set<TaskId>, owner: Owner, expires: int, now: Option<int>)
    requires active.Keys == db.active.Keys
    requires forall id :: id in active ==> active[id] == TakenRow(db.active[id], id in ids, owner, expires, now)
    ensures active == Taken(db, ids, owner, expires, now).active
  {
  }

  lemma MembersNext(ids: seq<TaskId>, i: nat)
    requires i < |ids|
    ensures Members(ids[..i + 1]) == Members(ids[..i]) + {ids[i]}
  {
    assert forall x :: x in ids[..i + 1] <==> x in ids[..i] || x == ids[i];
  }

  lemma AffectedNext(active: map<TaskId, Task>, done: set<TaskId>, id: TaskId, now: Option<int>)
    ensures |Affected(active, done + {id}, now)|
            == |Affected(active, done, now)| + (if id !in done && id in active && Eligible(active[id], now) then 1 else 0)
  {
    if id !in done && id in active && Eligible(active[id], now) {
      assert Affected(active, done + {id}, now) == Affected(active, done, now) + {id};
    } else {
      assert Affected(active, done + {id}, now) == Affected(active, done, now);
    }
  }
}
