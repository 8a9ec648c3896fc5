/** The result cache of the image service: a byte and entry budget, expiry, least
    recently used eviction, and one computation per key in flight. */
module ImageCache {
  import opened Options

  /** Digest, recipe, animation policy and revisions. */
  datatype Key = Key(text: string)

  datatype Result = Result(data: string)

  datatype Entry = Entry(result: Result, expires: int, last: int)

  type Entries = map<Key, Entry>

  /** What the mutex guards; a flight is named by the call that computes. */
  datatype Shelf = Shelf(entries: Entries, bytes: int, flights: map<Key, int>)

  const CACHE_BUDGET := 67_108_864
  const MAX_BYTES := 16_777_216
  const MAX_ENTRIES := 32
  const TTL := 300_000_000_000

  function Size(e: Entry): (n: nat) {
    |e.result.data|
  }

  ghost function Total(m: Entries): (n: nat)
    decreases |m|
  {
    if m == map[] then 0 else var k :| k in m; Smaller(m, k); Size(m[k]) + Total(m - {k})
  }

  lemma Smaller(m: Entries, k: Key)
    requires k in m
    ensures |m - {k}| == |m| - 1
  {
    assert (m - {k}).Keys == m.Keys - {k};
    assert |(m - {k}).Keys| == |m.Keys| - 1;
  }

  lemma {:induction false} TotalWithout(m: Entries, k: Key)
    requires k in m
    ensures Total(m) == Size(m[k]) + Total(m - {k})
    decreases |m|
  {
    var x :| x in m && Total(m) == Size(m[x]) + Total(m - {x});
    if x != k {
      Smaller(m, x);
      Smaller(m, k);
      TotalWithout(m - {x}, k);
      TotalWithout(m - {k}, x);
      assert m - {x} - {k} == m - {k} - {x};
    }
  }

  lemma TotalWith(m: Entries, k: Key, e: Entry)
    requires k !in m
    ensures Total(m[k := e]) == Total(m) + Size(e)
  {
    TotalWithout(m[k := e], k);
    assert m[k := e] - {k} == m;
  }

  // ---------------------------------------------------------------------
  // Removing entries
  // ---------------------------------------------------------------------

  ghost predicate Within(kept: Entries, m: Entries) {
    forall k :: k in kept ==> k in m && kept[k] == m[k]
  }

  function Dropped(m: Entries, kept: Entries): (r: Entries) {
    map k | k in m && k !in kept :: m[k]
  }

  /** The entries go, and the counter goes down by the size of each of them. */
  ghost function Shrunk(c: Shelf, kept: Entries): (r: Shelf) {
    c.(entries := kept, bytes := c.bytes - Total(Dropped(c.entries, kept)))
  }

  lemma DropNothing(m: Entries)
    ensures Total(Dropped(m, m)) == 0
  {
    assert Dropped(m, m) == map[];
  }

  lemma DropOne(m: Entries, kept: Entries, k: Key)
    requires Within(kept, m) && k in kept
    ensures Total(Dropped(m, kept - {k})) == Total(Dropped(m, kept)) + Size(m[k])
  {
    assert Dropped(m, kept - {k}) == Dropped(m, kept)[k := m[k]];
    TotalWith(Dropped(m, kept), k, m[k]);
  }

  lemma {:induction false} TotalSplits(m: Entries, kept: Entries)
    requires Within(kept, m)
    ensures Total(m) == Total(kept) + Total(Dropped(m, kept))
    decreases |kept|
  {
    if kept == map[] {
      assert Dropped(m, kept) == m;
    } else {
      var k :| k in kept;
      Smaller(kept, k);
      TotalSplits(m, kept - {k});
      TotalWithout(kept, k);
      DropOne(m, kept, k);
    }
  }

  // ---------------------------------------------------------------------
  // Expiry and eviction
  // ---------------------------------------------------------------------

  function Unexpired(m: Entries, now: int): (r: Entries) {
    map k | k in m && now < m[k].expires :: m[k]
  }

  predicate Crowded(bytes: int, count: int, size: nat) {
    bytes + size > CACHE_BUDGET || count >= MAX_ENTRIES
  }

  /** Nothing kept was used before anything evicted. */
  ghost predicate OldestFirst(m: Entries, kept: Entries) {
    forall gone, k :: gone in m && gone !in kept && k in kept ==> m[gone].last <= kept[k].last
  }

  /** With one eviction fewer there would be no room. */
  ghost predicate Frugal(c: Shelf, kept: Entries, size: nat) {
    || kept == c.entries
    || |kept| + 1 >= 32
    || exists k :: k in c.entries && k !in kept && Shrunk(c, kept).bytes + Size(c.entries[k]) + size > CACHE_BUDGET
  }

  ghost predicate Fits(c: Shelf, kept: Entries, size: nat) {
    kept == map[] || (Shrunk(c, kept).bytes + size <= CACHE_BUDGET && |kept| < 32)
  }

  /** `kept` makes room for `size` more bytes and evicts no more than it must. */
  ghost predicate MakesRoom(c: Shelf, kept: Entries, size: nat) {
    Within(kept, c.entries) && OldestFirst(c.entries, kept) && Frugal(c, kept, size) && Fits(c, kept, size)
  }

  lemma EvictOldest(c: Shelf, kept: Entries, k: Key, size: nat)
    requires Within(kept, c.entries) && OldestFirst(c.entries, kept) && Crowded(Shrunk(c, kept).bytes, |kept|, size)
    requires k in kept && forall x :: x in kept ==> kept[k].last <= kept[x].last
    ensures Within(kept - {k}, c.entries) && OldestFirst(c.entries, kept - {k}) && Frugal(c, kept - {k}, size)
    ensures Shrunk(c, kept - {k}).bytes == Shrunk(c, kept).bytes - Size(kept[k])
  {
    Smaller(kept, k);
    DropOne(c.entries, kept, k);
    assert k in c.entries && k !in kept - {k};
  }

  lemma {:induction false} OldestOf(m: Entries, keys: set<Key>) returns (k: Key)
    requires keys != {} && keys <= m.Keys
    ensures k in keys && forall x :: x in keys ==> m[k].last <= m[x].last
    decreases |keys|
  {
    var y :| y in keys;
    k := y;
    if keys - {y} != {} {
      var other := OldestOf(m, keys - {y});
      k := if m[other].last < m[y].last then other else y;
    }
    assert forall x :: x in keys ==> x == y || x in keys - {y};
  }

  lemma {:induction false} EvictOn(c: Shelf, kept: Entries, size: nat) returns (r: Entries)
    requires Within(kept, c.entries) && OldestFirst(c.entries, kept) && Frugal(c, kept, size)
    ensures MakesRoom(c, r, size)
    decreases |kept|
  {
    if kept == map[] || !Crowded(Shrunk(c, kept).bytes, |kept|, size) {
      r := kept;
    } else {
      assert kept.Keys != {};
      var k := OldestOf(kept, kept.Keys);
      EvictOldest(c, kept, k, size);
      Smaller(kept, k);
      r := EvictOn(c, kept - {k}, size);
    }
  }

  /** Room can always be made. */
  lemma RoomExists(c: Shelf, size: nat) returns (kept: Entries)
    ensures MakesRoom(c, kept, size)
  {
    kept := EvictOn(c, c.entries, size);
  }

  // ---------------------------------------------------------------------
  // The two critical sections
  // ---------------------------------------------------------------------

  function Touched(m: Entries, key: Key, now: int): (r: Entries)
    requires key in m
  {
    m[key := m[key].(last := now)]
  }

  /** Expired entries go; then a hit, a flight to wait for, or a new flight. */
  ghost function Arrive(c: Shelf, id: int, key: Key, now: int): (r: (Shelf, Option<Result>)) {
    var left := Shrunk(c, Unexpired(c.entries, now));
    if key in left.entries then
      (left.(entries := Touched(left.entries, key, now)), Some(left.entries[key].result))
    else if key in c.flights then (left, None)
    else (left.(flights := c.flights[key := id]), None)
  }

  /** A success is stored in the room `kept` leaves; the flight ends either way. */
  ghost function Landed(c: Shelf, key: Key, outcome: Option<Result>, now: int, kept: Entries): (r: Shelf) {
    var stored :=
      if outcome.None? then c
      else var left := Shrunk(c, kept);
           left.(entries := kept[key := Entry(outcome.value, now + TTL, now)],
                 bytes := left.bytes + |outcome.value.data|);
    stored.(flights := c.flights - {key})
  }

  /** A call is served exactly a fresh entry of its key; otherwise it joins the flight
      of the key, or starts one.  Expired entries go, and nothing else changes. */
  lemma ArriveServes(c: Shelf, id: int, key: Key, now: int, k: Key)
    ensures var (r, hit) := Arrive(c, id, key, now);
            && hit == (if key in c.entries && now < c.entries[key].expires then Some(c.entries[key].result) else None)
            && (k in r.entries <==> k in c.entries && now < c.entries[k].expires)
            && (k in r.entries ==>
                  r.entries[k] == c.entries[k].(last := if k == key then now else c.entries[k].last))
            && (hit.Some? || key in c.flights ==> r.flights == c.flights)
            && (hit.None? && key !in c.flights ==> r.flights == c.flights[key := id])
  {
  }

  /** A success is the entry of its key, used now; a failure changes no entry.  The
      flight is over. */
  lemma LandStores(c: Shelf, key: Key, outcome: Option<Result>, now: int, kept: Entries, k: Key)
    requires Within(kept, c.entries)
    ensures var r := Landed(c, key, outcome, now, kept);
            && r.flights == c.flights - {key}
            && (outcome.None? ==> r.entries == c.entries && r.bytes == c.bytes)
            && (outcome.Some? ==> key in r.entries && r.entries[key].result == outcome.value && r.entries[key].last == now)
            && (outcome.Some? && k != key && k in r.entries ==> k in c.entries && r.entries[k] == c.entries[k])
            && (outcome.Some? && k in kept ==> k in r.entries)
  {
  }

  /** What has landed is served for five minutes, counted in nanoseconds from the start
      of the computation. */
  lemma ServedWhileFresh(c: Shelf, key: Key, result: Result, now: int, kept: Entries, id: int, later: int)
    ensures Arrive(Landed(c, key, Some(result), now, kept), id, key, later).1
            == if later < now + 300_000_000_000 then Some(result) else None
  {
  }

  class Cache {
    var entries: Entries
    var flights: map<Key, int>
    var bytes: int

    ghost function View(): (c: Shelf)
      reads this
    {
      Shelf(entries, bytes, flights)
    }

    constructor ()
      ensures View() == Shelf(map[], 0, map[])
    {
      entries, flights, bytes := map[], map[], 0;
    }

    method Purge(now: int)
      modifies this`entries, this`bytes
      ensures View() == Shrunk(old(View()), Unexpired(old(entries), now))
    {
      ghost var was := View();
      DropNothing(entries);
      var rest := entries.Keys;
      while rest != {}
        invariant rest <= entries.Keys && Within(entries, was.entries)
        invariant View() == Shrunk(was, entries)
        invariant forall k :: k in was.entries && k !in rest ==> (k in entries <==> now < was.entries[k].expires)
        decreases |rest|
      {
        var k :| k in rest;
        if now >= entries[k].expires {
          DropOne(was.entries, entries, k);
          Remove(k);
        }
        rest := rest - {k};
      }
      assert entries == Unexpired(was.entries, now);
    }

    method Remove(k: Key)
      requires k in entries
      modifies this`entries, this`bytes
      ensures entries == old(entries) - {k} && bytes == old(bytes) - Size(old(entries)[k])
    {
      bytes := bytes - |entries[k].result.data|;
      entries := entries - {k};
    }

    /** The least recently used entry; ties go to whichever comes first. */
    method Oldest() returns (oldest: Option<Key>)
      ensures oldest.None? <==> entries == map[]
      ensures oldest.Some? ==> oldest.value in entries
      ensures oldest.Some? ==> forall k :: k in entries ==> entries[oldest.value].last <= entries[k].last
    {
      oldest := None;
      var rest := entries.Keys;
      while rest != {}
        invariant rest <= entries.Keys
        invariant oldest.None? ==> rest == entries.Keys
        invariant oldest.Some? ==> oldest.value in entries
        invariant oldest.Some? ==>
          forall k :: k in entries && k !in rest ==> entries[oldest.value].last <= entries[k].last
        decreases |rest|
      {
        var k :| k in rest;
        if oldest.None? || entries[k].last < entries[oldest.value].last {
          oldest := Some(k);
        }
        rest := rest - {k};
      }
      assert oldest.None? ==> entries.Keys == {};
    }

    /** Evict until the budget holds or nothing is left. */
    method EvictFor(size: nat)
      modifies this`entries, this`bytes
      ensures View() == Shrunk(old(View()), entries) && MakesRoom(old(View()), entries, size)
    {
      ghost var was := View();
      DropNothing(entries);
      while Crowded(bytes, |entries|, size)
        invariant View() == Shrunk(was, entries)
        invariant Within(entries, was.entries) && OldestFirst(was.entries, entries) && Frugal(was, entries, size)
        decreases |entries|
      {
        var oldest := Oldest();
        if oldest.None? {
          break;
        }
        EvictOldest(was, entries, oldest.value, size);
        Smaller(entries, oldest.value);
        Remove(oldest.value);
      }
    }

    /** The first critical section; without a hit, `leader` names the flight. */
    method Lookup(id: int, key: Key, now: int) returns (hit: Option<Result>, leader: int)
      modifies this
      ensures (View(), hit) == Arrive(old(View()), id, key, now)
      ensures hit.None? ==> key in flights && leader == flights[key]
    {
      leader := id;
      Purge(now);
      if key in entries {
        var e := entries[key];
        entries := entries[key := e.(last := now)];
        return Some(e.result), leader;
      }
      if key in flights {
        return None, flights[key];
      }
      flights := flights[key := id];
      hit := None;
    }

    /** The second critical section. */
    method Land(key: Key, outcome: Option<Result>, now: int) returns (ghost kept: Entries)
      modifies this
      ensures View() == Landed(old(View()), key, outcome, now, kept)
      ensures outcome.Some? ==> MakesRoom(old(View()), kept, |outcome.value.data|)
    {
      kept := entries;
      if outcome.Some? {
        EvictFor(|outcome.value.data|);
        kept := entries;
        entries := entries[key := Entry(outcome.value, now + TTL, now)];
        bytes := bytes + |outcome.value.data|;
      }
      flights := flights - {key};
    }
  }

  lemma TouchKeepsTotal(m: Entries, key: Key, now: int)
    requires key in m
    ensures Total(Touched(m, key, now)) == Total(m)
  {
    TotalWithout(m, key);
    TotalWithout(Touched(m, key, now), key);
    assert Touched(m, key, now) - {key} == m - {key};
  }
}
