/** Runs of the image cache: any number of Transform calls, interleaved at the
    two critical sections; computations may fail and waiters may give up. */
module ImageCacheRuns {
  import opened Options
  import opened ImageCache

  type CallId = int

  datatype Call =
    | Waiting(key: Key, leader: CallId)
    | Computing(key: Key, arrived: int)
    | Answered(key: Key, result: Result)
    | Failed(key: Key)

  /** `landed` is what each finished computation came to; `computed` is every
      result ever computed, with its key. */
  datatype World = World(cache: Shelf, calls: map<CallId, Call>, landed: map<CallId, Option<Result>>,
                         computed: set<(Key, Result)>)

  datatype Step =
    | ArriveStep(id: CallId, key: Key, now: int)
    | SucceedStep(id: CallId, result: Result, kept: Entries)
    | BreakStep(id: CallId)
    | ReceiveStep(id: CallId)
    | GiveUpStep(id: CallId)

  ghost predicate Enabled(w: World, s: Step) {
    match s
    case ArriveStep(id, _, _) => id !in w.calls
    case SucceedStep(id, result, kept) =>
      && id in w.calls && w.calls[id].Computing?
      && |result.data| <= MAX_BYTES && MakesRoom(w.cache, kept, |result.data|)
    case BreakStep(id) => id in w.calls && w.calls[id].Computing?
    case ReceiveStep(id) => id in w.calls && w.calls[id].Waiting? && w.calls[id].leader in w.landed
    case GiveUpStep(id) => id in w.calls && w.calls[id].Waiting?
  }

  /** What the first critical section makes of a call. */
  ghost function CallAt(c: Shelf, hit: Option<Result>, key: Key, now: int): (r: Call) {
    if hit.Some? then Answered(key, hit.value)
    else if key in c.flights then Waiting(key, c.flights[key])
    else Computing(key, now)
  }

  ghost function DoArrive(w: World, id: CallId, key: Key, now: int): (r: World) {
    var (cache, hit) := Arrive(w.cache, id, key, now);
    w.(cache := cache, calls := w.calls[id := CallAt(w.cache, hit, key, now)])
  }

  ghost function DoSucceed(w: World, id: CallId, result: Result, kept: Entries): (r: World)
    requires id in w.calls && w.calls[id].Computing?
  {
    var key := w.calls[id].key;
    World(Landed(w.cache, key, Some(result), w.calls[id].arrived, kept), w.calls[id := Answered(key, result)],
          w.landed[id := Some(result)], w.computed + {(key, result)})
  }

  ghost function DoBreak(w: World, id: CallId): (r: World)
    requires id in w.calls && w.calls[id].Computing?
  {
    var key := w.calls[id].key;
    w.(cache := Landed(w.cache, key, None, w.calls[id].arrived, w.cache.entries),
       calls := w.calls[id := Failed(key)], landed := w.landed[id := None])
  }

  ghost function Do(w: World, s: Step): (r: World)
    requires Enabled(w, s)
  {
    match s
    case ArriveStep(id, key, now) => DoArrive(w, id, key, now)
    case SucceedStep(id, result, kept) => DoSucceed(w, id, result, kept)
    case BreakStep(id) => DoBreak(w, id)
    case ReceiveStep(id) =>
      var call := w.calls[id];
      var outcome := w.landed[call.leader];
      w.(calls := w.calls[id := if outcome.Some? then Answered(call.key, outcome.value) else Failed(call.key)])
    case GiveUpStep(id) => w.(calls := w.calls[id := Failed(w.calls[id].key)])
  }

  ghost predicate Runs(w: World, steps: seq<Step>)
    decreases |steps|
  {
    steps == [] || (Enabled(w, steps[0]) && Runs(Do(w, steps[0]), steps[1..]))
  }

  ghost function After(w: World, steps: seq<Step>): (r: World)
    requires Runs(w, steps)
    decreases |steps|
  {
    if steps == [] then w else After(Do(w, steps[0]), steps[1..])
  }

  /** A computation that succeeds can always land. */
  lemma CanLand(w: World, id: CallId, result: Result) returns (kept: Entries)
    requires id in w.calls && w.calls[id].Computing? && |result.data| <= MAX_BYTES
    ensures Enabled(w, SucceedStep(id, result, kept))
  {
    kept := RoomExists(w.cache, |result.data|);
  }

  // ---------------------------------------------------------------------
  // The budget
  // ---------------------------------------------------------------------

  /** The counter is what the entries weigh, and within the budget. */
  ghost predicate BudgetOk(c: Shelf) {
    c.bytes == Total(c.entries) && c.bytes <= CACHE_BUDGET && |c.entries| <= MAX_ENTRIES
  }

  lemma ShrunkTotal(c: Shelf, kept: Entries)
    requires c.bytes == Total(c.entries) && Within(kept, c.entries)
    ensures Shrunk(c, kept).bytes == Total(kept)
  {
    TotalSplits(c.entries, kept);
  }

  lemma {:induction false} WithinCount(kept: Entries, m: Entries)
    requires Within(kept, m)
    ensures |kept| <= |m|
    decreases |m|
  {
    if k :| k in m && k !in kept {
      Smaller(m, k);
      WithinCount(kept, m - {k});
    } else {
      assert kept == m;
    }
  }

  lemma PurgeBudget(c: Shelf, now: int)
    requires BudgetOk(c)
    ensures BudgetOk(Shrunk(c, Unexpired(c.entries, now)))
  {
    var left := Unexpired(c.entries, now);
    ShrunkTotal(c, left);
    TotalSplits(c.entries, left);
    WithinCount(left, c.entries);
  }

  lemma TouchBudget(c: Shelf, key: Key, now: int)
    requires BudgetOk(c) && key in c.entries
    ensures BudgetOk(c.(entries := Touched(c.entries, key, now)))
  {
    TouchKeepsTotal(c.entries, key, now);
    SameKeys(Touched(c.entries, key, now), c.entries);
  }

  lemma SameKeys(a: Entries, b: Entries)
    requires a.Keys == b.Keys
    ensures |a| == |b|
  {
    assert |a| == |a.Keys| && |b| == |b.Keys|;
  }

  lemma ArriveBudget(c: Shelf, id: CallId, key: Key, now: int)
    requires BudgetOk(c)
    ensures BudgetOk(Arrive(c, id, key, now).0)
  {
    var left := Shrunk(c, Unexpired(c.entries, now));
    PurgeBudget(c, now);
    if key in left.entries {
      TouchBudget(left, key, now);
    }
  }

  /** Storing is safe because an entry for the key cannot be there already. */
  lemma StoreBudget(c: Shelf, key: Key, result: Result, now: int, kept: Entries, stored: Entries)
    requires c.bytes == Total(c.entries) && key !in c.entries && |result.data| <= MAX_BYTES
    requires Within(kept, c.entries) && Fits(c, kept, |result.data|)
    requires stored == kept[key := Entry(result, now + TTL, now)]
    ensures Shrunk(c, kept).bytes + |result.data| == Total(stored)
    ensures Total(stored) <= CACHE_BUDGET && |stored| <= MAX_ENTRIES
  {
    ShrunkTotal(c, kept);
    TotalWith(kept, key, Entry(result, now + TTL, now));
    OneMore(kept, key, Entry(result, now + TTL, now));
    assert kept == map[] ==> Total(kept) == 0;
  }

  lemma OneMore(m: Entries, key: Key, e: Entry)
    requires key !in m
    ensures |m[key := e]| == |m| + 1
  {
  }

  lemma LandBudget(c: Shelf, key: Key, result: Result, now: int, kept: Entries)
    requires BudgetOk(c) && key !in c.entries && |result.data| <= MAX_BYTES
    requires Within(kept, c.entries) && Fits(c, kept, |result.data|)
    ensures BudgetOk(Landed(c, key, Some(result), now, kept))
  {
    StoreBudget(c, key, result, now, kept, kept[key := Entry(result, now + TTL, now)]);
  }

  // ---------------------------------------------------------------------
  // One flight per key
  // ---------------------------------------------------------------------

  ghost predicate Computes(calls: map<CallId, Call>, id: CallId, key: Key) {
    id in calls && calls[id].Computing? && calls[id].key == key
  }

  /** Flights are exactly the running computations, and never for a cached key. */
  ghost predicate FlightsOk(entries: Entries, flights: map<Key, CallId>, calls: map<CallId, Call>) {
    && (forall key :: key in flights ==> key !in entries && Computes(calls, flights[key], key))
    && (forall id, key :: Computes(calls, id, key) ==> key in flights && flights[key] == id)
  }

  ghost predicate CallOk(w: World, id: CallId)
    requires id in w.calls
  {
    match w.calls[id]
    case Computing(_, _) => id !in w.landed
    case Answered(key, result) => (key, result) in w.computed
    case Waiting(key, leader) =>
      && leader in w.calls && w.calls[leader].key == key
      && (leader in w.landed || w.calls[leader].Computing?)
    case Failed(_) => true
  }

  ghost predicate CallsOk(w: World) {
    && (forall id :: id in w.calls ==> CallOk(w, id))
    && (forall id :: id in w.landed ==> id in w.calls && !w.calls[id].Computing?)
    && (forall id :: id in w.landed && w.landed[id].Some? ==> (w.calls[id].key, w.landed[id].value) in w.computed)
  }

  ghost predicate EntriesOk(entries: Entries, computed: set<(Key, Result)>) {
    forall key :: key in entries ==> (key, entries[key].result) in computed
  }

  /** All of the invariant but the budget. */
  ghost predicate ProtocolOk(w: World) {
    && FlightsOk(w.cache.entries, w.cache.flights, w.calls)
    && CallsOk(w)
    && EntriesOk(w.cache.entries, w.computed)
  }

  ghost predicate WorldOk(w: World) {
    BudgetOk(w.cache) && ProtocolOk(w)
  }

  lemma ArriveFlights(entries: Entries, entries': Entries, flights: map<Key, CallId>, flights': map<Key, CallId>,
                      calls: map<CallId, Call>, id: CallId, call: Call)
    requires FlightsOk(entries, flights, calls) && id !in calls && entries'.Keys <= entries.Keys
    requires if call.Computing? then call.key !in entries' && call.key !in flights && flights' == flights[call.key := id]
             else flights' == flights
    ensures FlightsOk(entries', flights', calls[id := call])
  {
    var calls' := calls[id := call];
    forall k | k in flights' ensures k !in entries' && Computes(calls', flights'[k], k) {
      if k in flights {
        assert Computes(calls, flights[k], k);
      }
    }
    forall x, k | Computes(calls', x, k) ensures k in flights' && flights'[k] == x {
      if x != id {
        assert Computes(calls, x, k);
      }
    }
  }

  /** What is known of the other calls outlives a step of `id`. */
  lemma OthersOk(w: World, w': World, id: CallId)
    requires CallsOk(w) && w.computed <= w'.computed
    requires w'.calls.Keys == w.calls.Keys + {id} && forall x :: x in w.calls && x != id ==> w'.calls[x] == w.calls[x]
    requires id in w.calls ==> w'.calls[id].key == w.calls[id].key
    requires w.landed.Keys <= w'.landed.Keys <= w.landed.Keys + {id}
    requires id in w.calls && w.calls[id].Computing? ==> id in w'.landed
    ensures forall x :: x in w.calls && x != id ==> CallOk(w', x)
  {
    forall x | x in w.calls && x != id ensures CallOk(w', x) {
      assert CallOk(w, x);
    }
  }

  lemma ArriveCalls(w: World, id: CallId, key: Key, now: int)
    requires ProtocolOk(w) && id !in w.calls
    ensures CallsOk(DoArrive(w, id, key, now))
  {
    var w' := DoArrive(w, id, key, now);
    OthersOk(w, w', id);
    if key in w.cache.flights {
      assert Computes(w.calls, w.cache.flights[key], key);
    }
    assert CallOk(w', id);
  }

  lemma ArriveEntries(c: Shelf, id: CallId, key: Key, now: int, computed: set<(Key, Result)>)
    requires EntriesOk(c.entries, computed)
    ensures EntriesOk(Arrive(c, id, key, now).0.entries, computed)
    ensures Arrive(c, id, key, now).0.entries.Keys <= c.entries.Keys
  {
  }

  lemma ArriveKeeps(w: World, id: CallId, key: Key, now: int)
    requires WorldOk(w) && id !in w.calls
    ensures WorldOk(DoArrive(w, id, key, now))
  {
    var w' := DoArrive(w, id, key, now);
    ArriveBudget(w.cache, id, key, now);
    ArriveEntries(w.cache, id, key, now, w.computed);
    ArriveFlights(w.cache.entries, w'.cache.entries, w.cache.flights, w'.cache.flights, w.calls, id, w'.calls[id]);
    ArriveCalls(w, id, key, now);
  }

  /** Ending the flight of `id` for `key`. */
  lemma LandFlights(entries: Entries, entries': Entries, flights: map<Key, CallId>,
                    calls: map<CallId, Call>, calls': map<CallId, Call>, id: CallId, key: Key)
    requires FlightsOk(entries, flights, calls) && Computes(calls, id, key)
    requires id in calls' && calls' == calls[id := calls'[id]] && !calls'[id].Computing?
    requires forall k :: k in entries' ==> k in entries || k == key
    ensures key !in entries && FlightsOk(entries', flights - {key}, calls')
  {
    forall k | k in flights - {key} ensures k !in entries' && Computes(calls', flights[k], k) {
      assert Computes(calls, flights[k], k);
    }
    forall x, k | Computes(calls', x, k) ensures k in flights - {key} && flights[k] == x {
      assert x != id && Computes(calls, x, k);
    }
  }

  lemma SucceedCalls(w: World, id: CallId, result: Result, kept: Entries)
    requires CallsOk(w) && id in w.calls && w.calls[id].Computing?
    ensures CallsOk(DoSucceed(w, id, result, kept))
  {
    var w' := DoSucceed(w, id, result, kept);
    OthersOk(w, w', id);
    assert CallOk(w, id);
    assert CallOk(w', id);
  }

  lemma SucceedEntries(entries: Entries, kept: Entries, key: Key, e: Entry, computed: set<(Key, Result)>)
    requires EntriesOk(entries, computed) && Within(kept, entries)
    ensures EntriesOk(kept[key := e], computed + {(key, e.result)})
  {
  }

  lemma SucceedProtocol(w: World, id: CallId, result: Result, kept: Entries)
    requires ProtocolOk(w) && id in w.calls && w.calls[id].Computing? && Within(kept, w.cache.entries)
    ensures w.calls[id].key !in w.cache.entries && ProtocolOk(DoSucceed(w, id, result, kept))
  {
    var w' := DoSucceed(w, id, result, kept);
    var key, now := w.calls[id].key, w.calls[id].arrived;
    assert Computes(w.calls, id, key);
    LandFlights(w.cache.entries, w'.cache.entries, w.cache.flights, w.calls, w'.calls, id, key);
    SucceedCalls(w, id, result, kept);
    SucceedEntries(w.cache.entries, kept, key, Entry(result, now + TTL, now), w.computed);
  }

  lemma SucceedKeeps(w: World, id: CallId, result: Result, kept: Entries)
    requires WorldOk(w) && id in w.calls && w.calls[id].Computing? && |result.data| <= MAX_BYTES
    requires Within(kept, w.cache.entries) && Fits(w.cache, kept, |result.data|)
    ensures WorldOk(DoSucceed(w, id, result, kept))
  {
    SucceedProtocol(w, id, result, kept);
    LandBudget(w.cache, w.calls[id].key, result, w.calls[id].arrived, kept);
  }

  lemma BreakCalls(w: World, id: CallId)
    requires CallsOk(w) && id in w.calls && w.calls[id].Computing?
    ensures CallsOk(DoBreak(w, id))
  {
    OthersOk(w, DoBreak(w, id), id);
    assert CallOk(w, id);
    assert CallOk(DoBreak(w, id), id);
  }

  lemma BreakKeeps(w: World, id: CallId)
    requires WorldOk(w) && id in w.calls && w.calls[id].Computing?
    ensures WorldOk(DoBreak(w, id))
  {
    var w' := DoBreak(w, id);
    assert Computes(w.calls, id, w.calls[id].key);
    BreakCalls(w, id);
    LandFlights(w.cache.entries, w.cache.entries, w.cache.flights, w.calls, w'.calls, id, w.calls[id].key);
  }

  lemma WaiterFlights(entries: Entries, flights: map<Key, CallId>, calls: map<CallId, Call>, id: CallId, call: Call)
    requires FlightsOk(entries, flights, calls) && id in calls && !calls[id].Computing? && !call.Computing?
    ensures FlightsOk(entries, flights, calls[id := call])
  {
    var calls' := calls[id := call];
    forall x, k | Computes(calls', x, k) ensures k in flights && flights[k] == x {
      assert Computes(calls, x, k);
    }
    forall k | k in flights ensures Computes(calls', flights[k], k) {
      assert Computes(calls, flights[k], k);
    }
  }

  lemma WaiterCalls(w: World, s: Step)
    requires CallsOk(w) && Enabled(w, s) && (s.ReceiveStep? || s.GiveUpStep?)
    ensures CallsOk(Do(w, s))
  {
    assert CallOk(w, s.id);
    OthersOk(w, Do(w, s), s.id);
    assert CallOk(Do(w, s), s.id);
  }

  lemma WaiterKeeps(w: World, s: Step)
    requires WorldOk(w) && Enabled(w, s) && (s.ReceiveStep? || s.GiveUpStep?)
    ensures WorldOk(Do(w, s))
  {
    WaiterCalls(w, s);
    WaiterFlights(w.cache.entries, w.cache.flights, w.calls, s.id, Do(w, s).calls[s.id]);
  }

  lemma StepKeeps(w: World, s: Step)
    requires WorldOk(w) && Enabled(w, s)
    ensures WorldOk(Do(w, s))
  {
    match s
    case ArriveStep(id, key, now) => ArriveKeeps(w, id, key, now);
    case SucceedStep(id, result, kept) => SucceedKeeps(w, id, result, kept);
    case BreakStep(id) => BreakKeeps(w, id);
    case ReceiveStep(_) => WaiterKeeps(w, s);
    case GiveUpStep(_) => WaiterKeeps(w, s);
  }

  lemma {:induction false} RunKeeps(w: World, steps: seq<Step>)
    requires WorldOk(w) && Runs(w, steps)
    ensures WorldOk(After(w, steps))
    decreases |steps|
  {
    if steps == [] {
    } else {
      StepKeeps(w, steps[0]);
      RunKeeps(Do(w, steps[0]), steps[1..]);
    }
  }

  // ---------------------------------------------------------------------
  // What every run promises
  // ---------------------------------------------------------------------

  /** No call has arrived yet; a new cache is one such world. */
  ghost predicate Start(w: World) {
    && w.calls == map[] && w.cache.flights == map[] && w.landed == map[]
    && BudgetOk(w.cache) && EntriesOk(w.cache.entries, w.computed)
  }

  lemma NewCacheStarts()
    ensures Start(World(Shelf(map[], 0, map[]), map[], map[], {}))
  {
    assert Total(map[]) == 0;
  }

  /** What the two sections add and subtract is always what the entries weigh,
      and never more than the budget. */
  lemma WithinBudget(start: World, steps: seq<Step>)
    requires Start(start) && Runs(start, steps)
    ensures var c := After(start, steps).cache;
            c.bytes == Total(c.entries) && c.bytes <= CACHE_BUDGET && |c.entries| <= MAX_ENTRIES
  {
    RunKeeps(start, steps);
  }

  /** Two running computations are never for the same key, nor for a cached one. */
  lemma SingleFlight(start: World, steps: seq<Step>, a: CallId, b: CallId)
    requires Start(start) && Runs(start, steps)
    requires var w := After(start, steps);
             a in w.calls && b in w.calls && w.calls[a].Computing? && w.calls[b].Computing?
    ensures var w := After(start, steps);
            (w.calls[a].key == w.calls[b].key ==> a == b) && w.calls[a].key !in w.cache.entries
  {
    RunKeeps(start, steps);
    var w := After(start, steps);
    assert Computes(w.calls, a, w.calls[a].key) && Computes(w.calls, b, w.calls[b].key);
  }

  /** Whatever the cache holds or a caller got was computed for its key. */
  lemma OnlyComputed(start: World, steps: seq<Step>, key: Key, id: CallId)
    requires Start(start) && Runs(start, steps)
    ensures var w := After(start, steps);
            && (key in w.cache.entries ==> (key, w.cache.entries[key].result) in w.computed)
            && (id in w.calls && w.calls[id].Answered? ==> (w.calls[id].key, w.calls[id].result) in w.computed)
  {
    RunKeeps(start, steps);
    var w := After(start, steps);
    if id in w.calls {
      assert CallOk(w, id);
    }
  }

  /** No waiter is left behind: its leader is still computing or has landed. */
  lemma WaitersHaveLeaders(start: World, steps: seq<Step>, id: CallId)
    requires Start(start) && Runs(start, steps)
    requires var w := After(start, steps); id in w.calls && w.calls[id].Waiting?
    ensures var w := After(start, steps);
            var leader := w.calls[id].leader;
            && leader in w.calls && w.calls[leader].key == w.calls[id].key
            && (w.calls[leader].Computing? || leader in w.landed)
  {
    RunKeeps(start, steps);
    assert CallOk(After(start, steps), id);
  }
}
