/** The per-client token bucket of the Conduit gateway: lazy refill, idle
    eviction and a cap on the number of buckets.  Time and tokens are reals. */
module RateLimit {

  datatype Client = Client(address: string)

  datatype Visitor = Visitor(tokens: real, lastSeen: real)

  datatype Config = Config(rps: int, burst: int, exempt: set<string>)

  type Visitors = map<Client, Visitor>

  const MAX_VISITORS := 100_000
  const IDLE_SECONDS := 600.0

  predicate Counted(c: Config, callName: string) {
    c.rps > 0 && callName !in c.exempt
  }

  function Min(a: real, b: real): (m: real) {
    if a < b then a else b
  }

  /** Tokens that `idle` seconds refill. */
  function Earned(c: Config, idle: real): (tokens: real) {
    idle * c.rps as real
  }

  /** The bucket of `v`, refilled up to `now`. */
  function Refilled(c: Config, v: Visitor, now: real): (tokens: real) {
    Min(v.tokens + Earned(c, now - v.lastSeen), c.burst as real)
  }

  /** A call on an existing bucket; a rejected call refills it too. */
  function Charge(c: Config, v: Visitor, now: real): (r: (Visitor, bool)) {
    var tokens := Refilled(c, v, now);
    if tokens < 1.0 then (Visitor(tokens, now), false) else (Visitor(tokens - 1.0, now), true)
  }

  function Admit(c: Config, vs: Visitors, ip: Client, callName: string, now: real): (r: (Visitors, bool)) {
    if !Counted(c, callName) then (vs, true)
    else if ip !in vs && |vs| >= MAX_VISITORS then (vs, false)
    else
      var v := if ip in vs then vs[ip] else Visitor(c.burst as real, now);
      var (v', ok) := Charge(c, v, now);
      (vs[ip := v'], ok)
  }

  /** Buckets untouched for more than ten minutes go. */
  function Evict(vs: Visitors, now: real): (r: Visitors) {
    map ip | ip in vs && vs[ip].lastSeen >= now - IDLE_SECONDS :: vs[ip]
  }

  class RateLimiter {
    const config: Config
    var visitors: Visitors

    constructor (config: Config)
      ensures this.config == config && visitors == map[]
    {
      this.config := config;
      visitors := map[];
    }

    method Allow(ip: Client, callName: string, now: real) returns (ok: bool)
      modifies this
      ensures (visitors, ok) == Admit(config, old(visitors), ip, callName, now)
    {
      if config.rps <= 0 || callName in config.exempt {
        return true;
      }
      ghost var was := visitors;
      if ip !in visitors {
        if |visitors| >= MAX_VISITORS {
          return false;
        }
        visitors := visitors[ip := Visitor(config.burst as real, now)];
      }
      var v := visitors[ip];
      var elapsed := now - v.lastSeen;
      var tokens := v.tokens + Earned(config, elapsed);
      if tokens > config.burst as real {
        tokens := config.burst as real;
      }
      ok := tokens >= 1.0;
      if ok {
        tokens := tokens - 1.0;
      }
      visitors := visitors[ip := Visitor(tokens, now)];
      assert visitors == was[ip := Visitor(tokens, now)];
    }

    /** One tick of the cleanup loop. */
    method Cleanup(now: real)
      modifies this
      ensures visitors == Evict(old(visitors), now)
    {
      ghost var was := visitors;
      var rest := visitors.Keys;
      while rest != {}
        invariant rest <= was.Keys && visitors.Keys <= was.Keys
        invariant forall ip :: ip in visitors ==> visitors[ip] == was[ip]
        invariant forall ip :: ip in rest ==> ip in visitors
        invariant forall ip :: ip in was && ip !in rest ==> (ip in visitors <==> was[ip].lastSeen >= now - IDLE_SECONDS)
        decreases |rest|
      {
        var ip :| ip in rest;
        if visitors[ip].lastSeen < now - IDLE_SECONDS {
          visitors := visitors - {ip};
        }
        rest := rest - {ip};
      }
    }
  }

  // ---------------------------------------------------------------------
  // Runs
  // ---------------------------------------------------------------------

  datatype Event = Call(ip: Client, callName: string, now: real) | Sweep(now: real)

  function Do(c: Config, vs: Visitors, e: Event): (r: Visitors) {
    match e
    case Call(ip, callName, now) => Admit(c, vs, ip, callName, now).0
    case Sweep(now) => Evict(vs, now)
  }

  function After(c: Config, vs: Visitors, es: seq<Event>): (r: Visitors)
    decreases |es|
  {
    if es == [] then vs else After(c, Do(c, vs, es[0]), es[1..])
  }

  /** The clock never runs backwards; all events lie in `[from, to]`. */
  ghost predicate Timed(es: seq<Event>, from: real, to: real)
    decreases |es|
  {
    if es == [] then from <= to else from <= es[0].now && Timed(es[1..], es[0].now, to)
  }

  predicate Admits(c: Config, vs: Visitors, e: Event, ip: Client) {
    e.Call? && e.ip == ip && Counted(c, e.callName) && Admit(c, vs, e.ip, e.callName, e.now).1
  }

  /** Rate-limited calls of `ip` that were let through. */
  function Admissions(c: Config, vs: Visitors, es: seq<Event>, ip: Client): (n: nat)
    decreases |es|
  {
    if es == [] then 0
    else (if Admits(c, vs, es[0], ip) then 1 else 0) + Admissions(c, Do(c, vs, es[0]), es[1..], ip)
  }

  // ---------------------------------------------------------------------
  // The invariant
  // ---------------------------------------------------------------------

  ghost predicate VisitorOk(c: Config, v: Visitor, now: real) {
    0.0 <= v.tokens <= c.burst as real && v.lastSeen <= now
  }

  ghost predicate BucketsOk(c: Config, vs: Visitors, now: real) {
    && |vs| <= MAX_VISITORS
    && (forall ip :: ip in vs ==> VisitorOk(c, vs[ip], now))
  }

  lemma EvictShrinks(vs: Visitors, now: real)
    ensures |Evict(vs, now)| <= |vs|
  {
    assert Evict(vs, now).Keys <= vs.Keys;
    Subset(Evict(vs, now).Keys, vs.Keys);
  }

  lemma {:induction false} Subset<T>(a: set<T>, b: set<T>)
    requires a <= b
    ensures |a| <= |b|
    decreases a
  {
    if a == {} {
    } else {
      var x :| x in a;
      Subset(a - {x}, b - {x});
    }
  }

  lemma EarnedBasics(c: Config, a: real, b: real)
    requires c.rps > 0 && a >= 0.0
    ensures Earned(c, a) >= 0.0 && Earned(c, 0.0) == 0.0
    ensures Earned(c, a + b) == Earned(c, a) + Earned(c, b)
  {
  }

  lemma RefillKeeps(c: Config, v: Visitor, now: real)
    requires c.rps > 0 && 0 <= c.burst && v.lastSeen <= now && 0.0 <= v.tokens
    ensures 0.0 <= Refilled(c, v, now) <= c.burst as real
  {
    EarnedBasics(c, now - v.lastSeen, 0.0);
  }

  lemma StepKeeps(c: Config, vs: Visitors, e: Event, from: real)
    requires 0 <= c.burst && BucketsOk(c, vs, from) && from <= e.now
    ensures BucketsOk(c, Do(c, vs, e), e.now)
  {
    match e
    case Sweep(now) => EvictShrinks(vs, now);
    case Call(ip, callName, now) =>
      if Counted(c, callName) {
        RefillKeeps(c, if ip in vs then vs[ip] else Visitor(c.burst as real, now), now);
      }
  }

  lemma {:induction false} RunKeeps(c: Config, vs: Visitors, es: seq<Event>, from: real, to: real)
    requires 0 <= c.burst && BucketsOk(c, vs, from) && Timed(es, from, to)
    ensures BucketsOk(c, After(c, vs, es), to)
    decreases |es|
  {
    if es == [] {
    } else {
      StepKeeps(c, vs, es[0], from);
      RunKeeps(c, Do(c, vs, es[0]), es[1..], es[0].now, to);
    }
  }

  // ---------------------------------------------------------------------
  // The bound
  // ---------------------------------------------------------------------

  /** What `ip` could still spend at `now`; a missing bucket counts as full. */
  ghost function Allowance(c: Config, vs: Visitors, ip: Client, now: real): (tokens: real) {
    if ip in vs then Refilled(c, vs[ip], now) else c.burst as real
  }

  /** An idle bucket has had time to fill, so forgetting it gives nothing away. */
  lemma EvictionIsFree(c: Config, vs: Visitors, ip: Client, now: real)
    requires 1 <= c.burst <= 600 * c.rps && BucketsOk(c, vs, now)
    ensures Allowance(c, Evict(vs, now), ip, now) == Allowance(c, vs, ip, now)
  {
    if ip in vs && vs[ip].lastSeen < now - IDLE_SECONDS {
      var extra := now - vs[ip].lastSeen - IDLE_SECONDS;
      EarnedBasics(c, extra, IDLE_SECONDS);
      assert extra + IDLE_SECONDS == now - vs[ip].lastSeen;
      assert c.burst as real <= (600 * c.rps) as real == Earned(c, IDLE_SECONDS);
    }
  }

  lemma WaitingEarns(c: Config, vs: Visitors, ip: Client, from: real, now: real)
    requires 1 <= c.burst && c.rps > 0 && BucketsOk(c, vs, from) && from <= now
    ensures Allowance(c, vs, ip, now) <= Allowance(c, vs, ip, from) + Earned(c, now - from)
  {
    EarnedBasics(c, now - from, 0.0);
    if ip in vs {
      EarnedBasics(c, now - from, from - vs[ip].lastSeen);
      assert (now - from) + (from - vs[ip].lastSeen) == now - vs[ip].lastSeen;
    }
  }

  lemma CallSpends(c: Config, vs: Visitors, e: Event, ip: Client)
    requires 1 <= c.burst && c.rps > 0 && e.Call? && BucketsOk(c, vs, e.now)
    ensures Allowance(c, Do(c, vs, e), ip, e.now) + (if Admits(c, vs, e, ip) then 1.0 else 0.0)
            <= Allowance(c, vs, ip, e.now)
  {
    if Counted(c, e.callName) && (e.ip in vs || |vs| < MAX_VISITORS) {
      var v := if e.ip in vs then vs[e.ip] else Visitor(c.burst as real, e.now);
      RefillKeeps(c, v, e.now);
      ChargeSpends(c, v, e.now);
    }
  }

  lemma ChargeSpends(c: Config, v: Visitor, now: real)
    requires 1 <= c.burst && c.rps > 0 && 0.0 <= Refilled(c, v, now)
    ensures var (v', ok) := Charge(c, v, now);
            Refilled(c, v', now) + (if ok then 1.0 else 0.0) <= Refilled(c, v, now)
  {
    EarnedBasics(c, 0.0, 0.0);
    assert now - Charge(c, v, now).0.lastSeen == 0.0;
  }

  lemma StepPays(c: Config, vs: Visitors, e: Event, ip: Client, from: real)
    requires 1 <= c.burst <= 600 * c.rps && BucketsOk(c, vs, from) && from <= e.now
    ensures Allowance(c, Do(c, vs, e), ip, e.now) + (if Admits(c, vs, e, ip) then 1.0 else 0.0)
            <= Allowance(c, vs, ip, from) + Earned(c, e.now - from)
  {
    WaitingEarns(c, vs, ip, from, e.now);
    if e.Call? {
      CallSpends(c, vs, e, ip);
    } else {
      EvictionIsFree(c, vs, ip, e.now);
    }
  }

  lemma {:induction false} SpendingBound(c: Config, vs: Visitors, es: seq<Event>, ip: Client, from: real, to: real)
    requires 1 <= c.burst <= 600 * c.rps && BucketsOk(c, vs, from) && Timed(es, from, to)
    ensures Admissions(c, vs, es, ip) as real <= Allowance(c, vs, ip, from) + Earned(c, to - from)
    decreases |es|
  {
    if es == [] {
      if ip in vs {
        RefillKeeps(c, vs[ip], from);
      }
      EarnedBasics(c, to - from, 0.0);
    } else {
      StepKeeps(c, vs, es[0], from);
      StepPays(c, vs, es[0], ip, from);
      SpendingBound(c, Do(c, vs, es[0]), es[1..], ip, es[0].now, to);
      EarnedSplits(c, from, es[0].now, to);
    }
  }

  lemma EarnedSplits(c: Config, from: real, now: real, to: real)
    requires c.rps > 0 && from <= now
    ensures Earned(c, to - from) == Earned(c, now - from) + Earned(c, to - now)
  {
    EarnedBasics(c, now - from, to - now);
    assert (now - from) + (to - now) == to - from;
  }

  /** After any history, a window of `to - from` seconds admits at most the burst
      and what the rate refills; there are never more buckets than the cap. */
  lemma WindowBound(c: Config, past: seq<Event>, es: seq<Event>, ip: Client, start: real, from: real, to: real)
    requires 1 <= c.burst <= 600 * c.rps && Timed(past, start, from) && Timed(es, from, to)
    ensures var vs := After(c, map[], past);
            && Admissions(c, vs, es, ip) as real <= c.burst as real + Earned(c, to - from)
            && |vs| <= MAX_VISITORS && |After(c, vs, es)| <= MAX_VISITORS
  {
    var vs := After(c, map[], past);
    RunKeeps(c, map[], past, start, from);
    SpendingBound(c, vs, es, ip, from, to);
    RunKeeps(c, vs, es, from, to);
  }

  // ---------------------------------------------------------------------
  // Why the burst must refill within the idle time
  // ---------------------------------------------------------------------

  function Calls(ip: Client, callName: string, now: real, n: nat): (es: seq<Event>)
    ensures |es| == n && forall i :: 0 <= i < n ==> es[i] == Call(ip, callName, now)
  {
    seq(n, _ => Call(ip, callName, now))
  }

  lemma {:induction false} Spends(c: Config, vs: Visitors, ip: Client, callName: string, now: real, n: nat)
    requires Counted(c, callName) && n <= c.burst && ip in vs && vs[ip] == Visitor(n as real, now)
    ensures Admissions(c, vs, Calls(ip, callName, now, n), ip) == n
    ensures After(c, vs, Calls(ip, callName, now, n)) == vs[ip := Visitor(0.0, now)]
  {
    var es := Calls(ip, callName, now, n);
    if n == 0 {
      assert es == [] && vs[ip := Visitor(0.0, now)] == vs;
    } else {
      EarnedBasics(c, 0.0, 0.0);
      assert Do(c, vs, es[0]) == vs[ip := Visitor((n - 1) as real, now)];
      assert es[1..] == Calls(ip, callName, now, n - 1);
      Spends(c, vs[ip := Visitor((n - 1) as real, now)], ip, callName, now, n - 1);
    }
  }

  /** A new client spends the whole burst at once. */
  lemma FreshBurst(c: Config, ip: Client, callName: string, now: real)
    requires Counted(c, callName) && c.burst >= 1
    ensures Admissions(c, map[], Calls(ip, callName, now, c.burst), ip) == c.burst
    ensures After(c, map[], Calls(ip, callName, now, c.burst)) == map[ip := Visitor(0.0, now)]
  {
    var es := Calls(ip, callName, now, c.burst);
    var full: Visitors := map[ip := Visitor(c.burst as real, now)];
    Spends(c, full, ip, callName, now, c.burst);
    assert full[ip := Visitor(0.0, now)] == map[ip := Visitor(0.0, now)];
    assert Do(c, map[], es[0]) == Do(c, full, es[0]);
  }

  lemma {:induction false} Concat(c: Config, vs: Visitors, a: seq<Event>, b: seq<Event>, ip: Client)
    ensures Admissions(c, vs, a + b, ip) == Admissions(c, vs, a, ip) + Admissions(c, After(c, vs, a), b, ip)
    decreases |a|
  {
    if a == [] {
      assert a + b == b;
    } else {
      assert (a + b)[1..] == a[1..] + b;
      Concat(c, Do(c, vs, a[0]), a[1..], b, ip);
    }
  }

  lemma {:induction false} TimedCalls(ip: Client, callName: string, now: real, n: nat, rest: seq<Event>, from: real, to: real)
    requires from <= now && Timed(rest, now, to)
    ensures Timed(Calls(ip, callName, now, n) + rest, from, to)
    decreases n
  {
    var es := Calls(ip, callName, now, n);
    if n == 0 {
      assert es + rest == rest;
      Earlier(rest, from, now, to);
    } else {
      assert (es + rest)[1..] == Calls(ip, callName, now, n - 1) + rest;
      TimedCalls(ip, callName, now, n - 1, rest, now, to);
    }
  }

  lemma Earlier(es: seq<Event>, from: real, now: real, to: real)
    requires from <= now && Timed(es, now, to)
    ensures Timed(es, from, to)
  {
  }

  /** Two bursts around an eviction, in a window whose refill is less than one. */
  function TwoBursts(c: Config, ip: Client, callName: string, now: real): (es: seq<Event>)
    requires c.burst >= 0
  {
    Calls(ip, callName, 0.0, c.burst) + ([Sweep(now)] + Calls(ip, callName, now, c.burst))
  }

  lemma TwoBurstsAdmitted(c: Config, ip: Client, callName: string, now: real)
    requires Counted(c, callName) && c.burst >= 1 && now > IDLE_SECONDS
    ensures Admissions(c, map[], TwoBursts(c, ip, callName, now), ip) == 2 * c.burst
    ensures Timed(TwoBursts(c, ip, callName, now), 0.0, now)
  {
    var first, second := Calls(ip, callName, 0.0, c.burst), Calls(ip, callName, now, c.burst);
    FreshBurst(c, ip, callName, 0.0);
    FreshBurst(c, ip, callName, now);
    Concat(c, map[], first, [Sweep(now)] + second, ip);
    assert Evict(map[ip := Visitor(0.0, 0.0)], now) == map[];
    assert ([Sweep(now)] + second)[1..] == second;
    TimedCalls(ip, callName, now, c.burst, [], now, now);
    assert second + [] == second;
    TimedCalls(ip, callName, 0.0, c.burst, [Sweep(now)] + second, 0.0, now);
  }

  /** A moment after the idle time, when the refill is still less than the burst. */
  lemma ShortOfRefill(c: Config) returns (now: real)
    requires c.rps > 0 && c.burst > 600 * c.rps
    ensures now > IDLE_SECONDS && Earned(c, now) < c.burst as real
  {
    var rate := c.rps as real;
    now := IDLE_SECONDS + 0.5 / rate;
    assert Earned(c, now) == IDLE_SECONDS * rate + 0.5;
    assert c.burst as real >= (600 * c.rps) as real + 1.0;
  }

  /** The bound holds of every window exactly when an evicted bucket would have
      been full again. */
  lemma BoundIffRefilled(c: Config, ip: Client, callName: string)
    requires Counted(c, callName) && c.burst >= 1
    ensures c.burst <= 600 * c.rps <==>
            forall es: seq<Event>, to: real :: Timed(es, 0.0, to) ==>
              Admissions(c, map[], es, ip) as real <= c.burst as real + Earned(c, to)
  {
    if c.burst <= 600 * c.rps {
      forall es: seq<Event>, to: real | Timed(es, 0.0, to)
        ensures Admissions(c, map[], es, ip) as real <= c.burst as real + Earned(c, to)
      {
        SpendingBound(c, map[], es, ip, 0.0, to);
        assert to - 0.0 == to;
      }
    } else {
      var now := ShortOfRefill(c);
      TwoBurstsAdmitted(c, ip, callName, now);
    }
  }

  /** Exempt calls, and all calls without a rate, pass and leave no trace; a new client
      is turned away while the map is full. */
  lemma AdmitOtherwise(c: Config, vs: Visitors, ip: Client, callName: string, now: real)
    ensures c.rps <= 0 || callName in c.exempt ==> Admit(c, vs, ip, callName, now) == (vs, true)
    ensures c.rps > 0 && callName !in c.exempt && ip !in vs && |vs| >= 100_000 ==>
              Admit(c, vs, ip, callName, now) == (vs, false)
  {
  }

  // ---------------------------------------------------------------------
  // Nobody is turned away too early
  // ---------------------------------------------------------------------

  /** The events from the `k`-th on lie between `t` and `to`, those before up to `t`. */
  ghost predicate Window(es: seq<Event>, k: nat, start: real, t: real, to: real) {
    k <= |es| && Timed(es[..k], start, t) && Timed(es[k..], t, to)
  }

  /** What `ip` was let through in the window from the `k`-th event on. */
  ghost function Used(c: Config, es: seq<Event>, k: nat, ip: Client): (n: nat)
    requires k <= |es|
  {
    Admissions(c, After(c, map[], es[..k]), es[k..], ip)
  }

  lemma {:induction false} AfterConcat(c: Config, vs: Visitors, a: seq<Event>, b: seq<Event>)
    ensures After(c, vs, a + b) == After(c, After(c, vs, a), b)
    decreases |a|
  {
    if a == [] {
      assert a + b == b;
    } else {
      assert (a + b)[1..] == a[1..] + b;
      AfterConcat(c, Do(c, vs, a[0]), a[1..], b);
    }
  }

  lemma AfterLast(c: Config, es: seq<Event>, e: Event)
    ensures After(c, map[], es + [e]) == Do(c, After(c, map[], es), e)
  {
    AfterConcat(c, map[], es, [e]);
    assert [e][1..] == [];
  }

  lemma UsedLast(c: Config, es: seq<Event>, e: Event, k: nat, ip: Client)
    requires k <= |es|
    ensures Used(c, es + [e], k, ip) == Used(c, es, k, ip) + (if Admits(c, After(c, map[], es), e, ip) then 1 else 0)
  {
    assert (es + [e])[..k] == es[..k] && (es + [e])[k..] == es[k..] + [e];
    var vs := After(c, map[], es[..k]);
    Concat(c, vs, es[k..], [e], ip);
    AfterConcat(c, map[], es[..k], es[k..]);
    assert es[..k] + es[k..] == es && [e][1..] == [];
  }

  lemma {:induction false} TimedConcat(a: seq<Event>, b: seq<Event>, from: real, t: real, to: real)
    requires Timed(a, from, t) && Timed(b, t, to)
    ensures Timed(a + b, from, to)
    decreases |a|
  {
    if a == [] {
      assert a + b == b;
      Earlier(b, from, t, to);
    } else {
      assert (a + b)[1..] == a[1..] + b;
      TimedConcat(a[1..], b, a[0].now, t, to);
    }
  }

  lemma {:induction false} TimedLast(es: seq<Event>, e: Event, from: real, to: real)
    requires Timed(es + [e], from, to)
    ensures Timed(es, from, e.now) && from <= e.now <= to
    decreases |es|
  {
    if es == [] {
      assert es + [e] == [e] && [e][1..] == [];
    } else {
      assert (es + [e])[1..] == es[1..] + [e];
      TimedLast(es[1..], e, es[0].now, to);
    }
  }

  lemma {:induction false} TimedLater(es: seq<Event>, from: real, to: real, later: real)
    requires Timed(es, from, to) && to <= later
    ensures Timed(es, from, later)
    decreases |es|
  {
    if es == [] {
    } else {
      TimedLater(es[1..], es[0].now, to, later);
    }
  }

  lemma TimedOne(e: Event, from: real, to: real)
    requires from <= e.now <= to
    ensures Timed([e], from, to)
  {
    assert [e][1..] == [];
  }

  /** A call takes exactly one token from the client it lets through, and nothing
      from anyone else; an eviction takes nothing. */
  lemma StepTakesOne(c: Config, vs: Visitors, e: Event, ip: Client)
    requires 1 <= c.burst && c.rps > 0 && BucketsOk(c, vs, e.now)
    ensures Allowance(c, Do(c, vs, e), ip, e.now) + (if Admits(c, vs, e, ip) then 1.0 else 0.0)
            >= Allowance(c, vs, ip, e.now)
  {
    EarnedBasics(c, 0.0, 0.0);
    if ip in vs {
      RefillKeeps(c, vs[ip], e.now);
    }
    if e.Call? && e.ip == ip && Counted(c, e.callName) && (ip in vs || |vs| < MAX_VISITORS) {
      var v := if ip in vs then vs[ip] else Visitor(c.burst as real, e.now);
      RefillKeeps(c, v, e.now);
      assert e.now - Charge(c, v, e.now).0.lastSeen == 0.0;
      assert e.now - e.now == 0.0;
    }
  }

  /** Waiting earns at the full rate, until the bucket is full. */
  lemma WaitingFills(c: Config, vs: Visitors, ip: Client, from: real, now: real)
    requires 1 <= c.burst && c.rps > 0 && BucketsOk(c, vs, from) && from <= now
    ensures Allowance(c, vs, ip, now) == c.burst as real
            || Allowance(c, vs, ip, now) >= Allowance(c, vs, ip, from) + Earned(c, now - from)
  {
    if ip in vs {
      EarnedBasics(c, now - from, from - vs[ip].lastSeen);
      assert (now - from) + (from - vs[ip].lastSeen) == now - vs[ip].lastSeen;
    }
  }

  /** Since some moment, the client has had the burst and all that was refilled, less
      what it used. */
  lemma {:induction false} NothingWithheld(c: Config, es: seq<Event>, ip: Client, start: real, to: real)
    returns (k: nat, t: real)
    requires 1 <= c.burst && c.rps > 0 && Timed(es, start, to)
    ensures Window(es, k, start, t, to)
    ensures Allowance(c, After(c, map[], es), ip, to) >= c.burst as real + Earned(c, to - t) - Used(c, es, k, ip) as real
    decreases |es|
  {
    if es == [] {
      k, t := 0, to;
      assert es[..0] == [] && es[0..] == [];
      EarnedBasics(c, 0.0, 0.0);
      assert to - to == 0.0;
    } else {
      var init, e := es[..|es| - 1], es[|es| - 1];
      assert es == init + [e];
      TimedLast(init, e, start, to);
      k, t := NothingWithheld(c, init, ip, start, e.now);
      k, t := WithheldNext(c, init, e, ip, start, to, k, t);
    }
  }

  lemma WithheldNext(c: Config, init: seq<Event>, e: Event, ip: Client, start: real, to: real, k: nat, t: real)
    returns (k': nat, t': real)
    requires 1 <= c.burst && c.rps > 0 && Timed(init + [e], start, to) && Window(init, k, start, t, e.now)
    requires Allowance(c, After(c, map[], init), ip, e.now)
             >= c.burst as real + Earned(c, e.now - t) - Used(c, init, k, ip) as real
    ensures Window(init + [e], k', start, t', to)
    ensures Allowance(c, After(c, map[], init + [e]), ip, to)
            >= c.burst as real + Earned(c, to - t') - Used(c, init + [e], k', ip) as real
  {
    var es, vs := init + [e], After(c, map[], init);
    TimedLast(init, e, start, to);
    RunKeeps(c, map[], init, start, e.now);
    StepTakesOne(c, vs, e, ip);
    StepKeeps(c, vs, e, e.now);
    AfterLast(c, init, e);
    WaitingFills(c, Do(c, vs, e), ip, e.now, to);
    if Allowance(c, Do(c, vs, e), ip, to) == c.burst as real {
      k', t' := |es|, to;
      assert es[..k'] == es && es[k'..] == [];
      EarnedBasics(c, 0.0, 0.0);
      assert to - to == 0.0;
    } else {
      k', t' := k, t;
      UsedLast(c, init, e, k, ip);
      WindowStart(init, k, start, t, e.now);
      EarnedSplits(c, t, e.now, to);
      TimedOne(e, e.now, to);
      TimedConcat(init[k..], [e], t, e.now, to);
      assert es[..k] == init[..k] && es[k..] == init[k..] + [e];
    }
  }

  lemma {:induction false} TimedOrder(es: seq<Event>, from: real, to: real)
    requires Timed(es, from, to)
    ensures from <= to
    decreases |es|
  {
    if es == [] {
    } else {
      TimedOrder(es[1..], es[0].now, to);
    }
  }

  lemma WindowStart(es: seq<Event>, k: nat, start: real, t: real, to: real)
    requires Window(es, k, start, t, to)
    ensures start <= t <= to
  {
    TimedOrder(es[..k], start, t);
    TimedOrder(es[k..], t, to);
  }

  /** No window up to `now` is used up. */
  ghost predicate RoomInAll(c: Config, es: seq<Event>, ip: Client, start: real, now: real) {
    forall k: nat, t: real :: Window(es, k, start, t, now) ==>
      Used(c, es, k, ip) as real + 1.0 <= c.burst as real + Earned(c, now - t)
  }

  /** After any history, a rate-limited call of a client that has a bucket, or finds
      room for one, is let through exactly when no window ending now would exceed
      the burst and its refill. */
  lemma AdmittedExactlyWhen(c: Config, es: seq<Event>, ip: Client, callName: string, start: real, now: real)
    requires 1 <= c.burst <= 600 * c.rps && Timed(es, start, now) && Counted(c, callName)
    requires ip in After(c, map[], es) || |After(c, map[], es)| < MAX_VISITORS
    ensures Admit(c, After(c, map[], es), ip, callName, now).1 <==> RoomInAll(c, es, ip, start, now)
  {
    var vs := After(c, map[], es);
    RunKeeps(c, map[], es, start, now);
    var k, t := NothingWithheld(c, es, ip, start, now);
    EarnedBasics(c, 0.0, 0.0);
    assert now - now == 0.0;
    if Admit(c, vs, ip, callName, now).1 {
      forall k: nat, t: real | Window(es, k, start, t, now)
        ensures Used(c, es, k, ip) as real + 1.0 <= c.burst as real + Earned(c, now - t)
      {
        AdmittedFits(c, es, ip, callName, start, now, k, t);
      }
    } else {
      assert Allowance(c, vs, ip, now) < 1.0;
    }
  }

  lemma AdmittedFits(c: Config, es: seq<Event>, ip: Client, callName: string, start: real, now: real, k: nat, t: real)
    requires 1 <= c.burst <= 600 * c.rps && Timed(es, start, now) && Counted(c, callName) && Window(es, k, start, t, now)
    requires Admit(c, After(c, map[], es), ip, callName, now).1
    ensures Used(c, es, k, ip) as real + 1.0 <= c.burst as real + Earned(c, now - t)
  {
    var e := Call(ip, callName, now);
    UsedLast(c, es, e, k, ip);
    assert (es + [e])[..k] == es[..k] && (es + [e])[k..] == es[k..] + [e];
    TimedOne(e, now, now);
    TimedConcat(es[k..], [e], t, now, now);
    WindowBound(c, es[..k], es[k..] + [e], ip, start, t, now);
  }
}
