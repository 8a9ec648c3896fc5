/** The trigger scheduler: snapshots of due triggers, plans computed elsewhere,
    and the transaction that applies a plan only to the snapshot it was made for. */
module Scheduler {
  import opened Options
  import opened QueueTypes
  import Q = QueueStore

  type TriggerId = int

  datatype Role = Php | Paused | Gorge

  datatype DatabaseId = DatabaseId(text: string)

  datatype Control = Control(owner: Role, epoch: int, databaseId: DatabaseId)

  datatype Event = Event(id: int, last: Option<int>, next: Option<int>)

  datatype Schedule = Schedule(version: int, retryAfter: int)

  datatype Db = Db(control: Control, triggers: map<TriggerId, int>, events: map<TriggerId, Event>,
                   schedules: map<TriggerId, Schedule>, eventIds: int, queue: Q.Db)

  datatype Snapshot = Snapshot(id: TriggerId, version: int, ownerEpoch: int, event: Event,
                               scheduledVersion: int, now: int, databaseId: DatabaseId)

  /** `wellFormed` says whether the task's data is valid JSON. */
  datatype Plan = Plan(protocol: int, id: TriggerId, version: int, fire: bool, next: Option<int>,
                       task: Option<EnqueueRequest>, wellFormed: bool)

  const NO_EVENT := Event(0, None, None)
  const DATABASE_ID_LENGTH := 36
  const MAX_EPOCH := 4294967295
  const RETRY_DELAY := 30

  function EventOf(db: Db, id: TriggerId): (e: Event) {
    if id in db.events then db.events[id] else NO_EVENT
  }

  function ScheduledOf(db: Db, id: TriggerId): (v: int) {
    if id in db.schedules then db.schedules[id].version else 0
  }

  /** What the candidate query reads of one trigger. */
  function Observe(db: Db, id: TriggerId, now: int): (s: Snapshot)
    requires id in db.triggers
  {
    Snapshot(id, db.triggers[id], db.control.epoch, EventOf(db, id), ScheduledOf(db, id), now, db.control.databaseId)
  }

  /** The candidates: new versions and due events of triggers not backing off. */
  predicate Candidate(db: Db, id: TriggerId, now: int) {
    && db.control.owner == Gorge
    && id in db.triggers
    && (id in db.schedules ==> db.schedules[id].retryAfter <= now)
    && (id !in db.schedules || db.schedules[id].version != db.triggers[id]
        || (EventOf(db, id).next.Some? && EventOf(db, id).next.value <= now))
  }

  predicate Due(s: Snapshot) {
    s.scheduledVersion == s.version && s.event.next.Some? && s.event.next.value <= s.now
  }

  predicate ValidPlan(s: Snapshot, p: Plan) {
    && p.protocol == 1 && p.id == s.id && p.version == s.version && (p.fire <==> Due(s))
    && (p.next.Some? ==> 0 < p.next.value <= MAX_EPOCH && (p.fire ==> p.next.value > s.event.next.value))
    && (if p.fire then p.task.Some? && p.task.value.taskClass != "" && p.wellFormed else p.task.None?)
  }

  /** The snapshot is still what the locked rows say. */
  predicate Current(db: Db, s: Snapshot) {
    && db.control.owner == Gorge && db.control.epoch == s.ownerEpoch
    && db.control.databaseId == s.databaseId && |db.control.databaseId.text| == DATABASE_ID_LENGTH
    && s.id in db.triggers && db.triggers[s.id] == s.version
    && EventOf(db, s.id) == s.event
    && ScheduledOf(db, s.id) == s.scheduledVersion
  }

  datatype Reply = Applied | Conflict | Invalid

  /** The event row keeps its id when it exists and gets a new one otherwise. */
  function WriteEvent(db: Db, id: TriggerId, last: Option<int>, next: Option<int>): (r: Db) {
    if id in db.events then db.(events := db.events[id := Event(db.events[id].id, last, next)])
    else db.(events := db.events[id := Event(db.eventIds + 1, last, next)], eventIds := db.eventIds + 1)
  }

  function Apply(db: Db, s: Snapshot, p: Plan, now: int): (r: (Db, Reply)) {
    if !ValidPlan(s, p) then (db, Invalid)
    else if !Current(db, s) then (db, Conflict)
    else
      var queued := if p.fire then db.(queue := Q.Enqueue(db.queue, p.task.value, now)) else db;
      var clocked := WriteEvent(queued, s.id, if p.fire then s.event.next else s.event.last, p.next);
      (clocked.(schedules := db.schedules[s.id := Schedule(s.version, 0)]), Applied)
  }

  /** The retry delay of a failed plan; a stale failure changes nothing. */
  function Failed(db: Db, s: Snapshot, now: int): (r: Db) {
    if Current(db, s) then
      var version := if s.id in db.schedules then db.schedules[s.id].version else s.scheduledVersion;
      db.(schedules := db.schedules[s.id := Schedule(version, now + RETRY_DELAY)])
    else db
  }

  /** One candidate of a tick; `None` is a plan that could not be fetched. */
  function TickOne(db: Db, s: Snapshot, p: Option<Plan>, now: int): (r: Db) {
    if p.None? || Apply(db, s, p.value, now).1 == Invalid then Failed(db, s, now)
    else Apply(db, s, p.value, now).0
  }

  function TickAll(db: Db, snaps: seq<Snapshot>, plans: seq<Option<Plan>>, now: int): (r: Db)
    requires |plans| == |snaps|
    decreases |snaps|
  {
    if snaps == [] then db
    else TickAll(TickOne(db, snaps[0], plans[0], now), snaps[1..], plans[1..], now)
  }

  // ---------------------------------------------------------------------
  // What is applied, and what comes of it
  // ---------------------------------------------------------------------

  /** The plan is for this snapshot; it fires exactly a due event, with a task and to a
      later epoch, and otherwise only sets the clock. */
  ghost predicate Answers(p: Plan, s: Snapshot) {
    var due := s.scheduledVersion == s.version && s.event.next.Some? && s.event.next.value <= s.now;
    && p.protocol == 1 && p.id == s.id && p.version == s.version
    && (due ==> p.fire && p.task.Some? && p.task.value.taskClass != "" && p.wellFormed)
    && (!due ==> !p.fire && p.task == None)
    && (p.next.Some? ==> 1 <= p.next.value <= 4_294_967_295)
    && (due && p.next.Some? ==> p.next.value > s.event.next.value)
  }

  /** Every row the snapshot was taken from still reads the same. */
  ghost predicate Unchanged(db: Db, s: Snapshot) {
    && db.control.owner == Gorge && db.control.epoch == s.ownerEpoch
    && db.control.databaseId == s.databaseId && |s.databaseId.text| == 36
    && s.id in db.triggers && db.triggers[s.id] == s.version
    && (if s.id in db.events then db.events[s.id] == s.event else s.event == Event(0, None, None))
    && (if s.id in db.schedules then db.schedules[s.id].version == s.scheduledVersion else s.scheduledVersion == 0)
  }

  lemma ApplyDecides(db: Db, s: Snapshot, p: Plan, now: int)
    ensures var (r, reply) := Apply(db, s, p, now);
            && (reply == Applied <==> Answers(p, s) && Unchanged(db, s))
            && (reply == Invalid <==> !Answers(p, s))
            && (reply != Applied ==> r == db)
  {
  }

  /** A candidate that was just read is applied whatever its plan, as long as that
      answers it; then it is a candidate again from its next epoch on. */
  lemma CandidateIsApplied(db: Db, id: TriggerId, p: Plan, now: int, later: int)
    requires Candidate(db, id, now) && |db.control.databaseId.text| == 36 && Answers(p, Observe(db, id, now)) && later >= 0
    ensures var (r, reply) := Apply(db, Observe(db, id, now), p, now);
            && reply == Applied
            && (Candidate(r, id, later) <==> p.next.Some? && p.next.value <= later)
  {
  }

  /** A failure delays the trigger by exactly half a minute and changes nothing else,
      and only while it is the snapshot's. */
  lemma FailureDelays(db: Db, s: Snapshot, now: int, later: int)
    ensures !Unchanged(db, s) ==> Failed(db, s, now) == db
    ensures Unchanged(db, s) ==>
              var r := Failed(db, s, now);
              && s.id in r.schedules && r.schedules[s.id] == Schedule(s.scheduledVersion, now + 30)
              && r == db.(schedules := db.schedules[s.id := r.schedules[s.id]])
              && (Candidate(r, s.id, later) <==>
                    && now + 30 <= later
                    && (s.scheduledVersion != s.version || (s.event.next.Some? && s.event.next.value <= later)))
  {
  }

  // ---------------------------------------------------------------------
  // The store, row by row
  // ---------------------------------------------------------------------

  class Store {
    var control: Control
    var triggers: map<TriggerId, int>
    var events: map<TriggerId, Event>
    var schedules: map<TriggerId, Schedule>
    var eventIds: int
    var queue: Q.Db

    ghost function View(): (db: Db)
      reads this
    {
      Db(control, triggers, events, schedules, eventIds, queue)
    }

    method LockSchedule(s: Snapshot) returns (ok: bool)
      ensures ok == Current(View(), s)
    {
      if control.owner != Gorge || control.epoch != s.ownerEpoch
         || control.databaseId != s.databaseId || |control.databaseId.text| != DATABASE_ID_LENGTH {
        return false;
      }
      if s.id !in triggers || triggers[s.id] != s.version {
        return false;
      }
      var id, last, next := 0, None, None;
      if s.id in events {
        id, last, next := events[s.id].id, events[s.id].last, events[s.id].next;
      }
      if id != s.event.id || last != s.event.last || next != s.event.next {
        return false;
      }
      var scheduled := 0;
      if s.id in schedules {
        scheduled := schedules[s.id].version;
      }
      return scheduled == s.scheduledVersion;
    }

    method ApplySchedule(s: Snapshot, p: Plan, now: int) returns (reply: Reply)
      modifies this
      ensures (View(), reply) == Apply(old(View()), s, p, now)
    {
      if !ValidPlan(s, p) {
        return Invalid;
      }
      var ok := LockSchedule(s);
      if !ok {
        return Conflict;
      }
      var last := s.event.last;
      if p.fire {
        queue := Q.Enqueue(queue, p.task.value, now);
        last := s.event.next;
      }
      if s.id in events {
        events := events[s.id := Event(events[s.id].id, last, p.next)];
      } else {
        eventIds := eventIds + 1;
        events := events[s.id := Event(eventIds, last, p.next)];
      }
      schedules := schedules[s.id := Schedule(s.version, 0)];
      reply := Applied;
    }

    method ScheduleFailed(s: Snapshot, now: int)
      modifies this
      ensures View() == Failed(old(View()), s, now)
    {
      var ok := LockSchedule(s);
      if ok {
        if s.id in schedules {
          schedules := schedules[s.id := schedules[s.id].(retryAfter := now + RETRY_DELAY)];
        } else {
          schedules := schedules[s.id := Schedule(s.scheduledVersion, now + RETRY_DELAY)];
        }
      }
    }

    /** One cycle over the candidates; conflicts are dropped, other failures back off. */
    method Tick(snaps: seq<Snapshot>, plans: seq<Option<Plan>>, now: int)
      requires |plans| == |snaps|
      modifies this
      ensures View() == TickAll(old(View()), snaps, plans, now)
    {
      ghost var db := View();
      for i := 0 to |snaps|
        invariant TickAll(View(), snaps[i..], plans[i..], now) == TickAll(db, snaps, plans, now)
      {
        assert snaps[i..][1..] == snaps[i + 1..] && plans[i..][1..] == plans[i + 1..];
        var failed := plans[i].None?;
        if !failed {
          var reply := ApplySchedule(snaps[i], plans[i].value, now);
          failed := reply == Invalid;
        }
        if failed {
          ScheduleFailed(snaps[i], now);
        }
      }
    }
  }
}
