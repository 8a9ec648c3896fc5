/** Mutual exclusion in the MySQL queue, over every route: an unexpired grant is
    one worker's alone, unless a route that ignores the lease token opens the task
    while it is held. */
module QueueExclusion {
  import opened Options
  import opened QueueStore
  import opened QueueTypes
  import opened QueueRuns

  ghost predicate Live(w: World, g: Lease) {
    g in w.grants && g.expires > w.clock
  }

  /** At most one owner holds an unexpired, unreleased grant of a task. */
  ghost predicate Exclusive(w: World) {
    forall g, h :: Live(w, g) && Live(w, h) && g.task == h.task ==> g.owner == h.owner
  }

  /** While an owner holds such a grant, no token of anyone else passes the fence
      or is taken for a receipt. */
  ghost predicate Shut(w: World) {
    forall g, l: Lease :: Live(w, g) && l.task == g.task && l.owner != g.owner ==>
      !Holds(w.db, l, w.clock) && !Replays(w.db, l)
  }

  /** The row, active or archived since, still names the owner of the grant. */
  ghost predicate Backed(db: Db, g: Lease) {
    if g.task in db.active then
      && db.active[g.task].owner == Some(g.owner)
      && db.active[g.task].expires.Some? && g.expires <= db.active[g.task].expires.value
    else g.task in db.archive && db.archive[g.task].task.owner == Some(g.owner)
  }

  /** The row names nobody, and nobody can take it before the grant runs out. */
  ghost predicate Parked(db: Db, g: Lease) {
    if g.task in db.active then
      && db.active[g.task].owner.None?
      && db.active[g.task].expires.Some? && g.expires <= db.active[g.task].expires.value + 1
    else g.task in db.archive && db.archive[g.task].task.owner.None?
  }

  ghost predicate Kept(db: Db, g: Lease) {
    Backed(db, g) || Parked(db, g)
  }

  ghost predicate AllBacked(w: World) {
    forall g :: Live(w, g) ==> Backed(w.db, g)
  }

  ghost predicate Sound(w: World) {
    && Conserved(w.db)
    && (forall c :: c in w.calls ==> w.calls[c].now <= w.clock && w.calls[c].owner.Worker?)
    && (forall g :: g in w.grants ==> g.owner.Worker? && 1 <= g.task <= w.db.counter)
  }

  ghost predicate Safe(w: World) {
    Sound(w) && Exclusive(w) && forall g :: Live(w, g) ==> Kept(w.db, g)
  }

  /** A released row can be had before `until`: a yielded one by Awaken or under
      the name of the yield, a failed one when its wait is over. */
  predicate Early(how: Resolution, now: int, until: int) {
    how.Retry? ==> now + how.wait + 1 < until
  }

  /** An unfenced Yield of a held task, or an unfenced temporary Fail whose wait
      ends more than a second before the grant. */
  ghost predicate Opens(w: World, step: Step) {
    && step.ReleaseStep? && step.id in w.db.active
    && exists g :: Live(w, g) && g.task == step.id && Early(step.how, w.clock, g.expires)
  }

  ghost predicate Careful(w: World, steps: seq<Step>)
    requires Runs(w, steps)
    decreases |steps|
  {
    steps == [] || (!Opens(w, steps[0]) && Careful(Do(w, steps[0]), steps[1..]))
  }

  /** Any unfenced Yield or temporary Fail of a task that someone still holds. */
  ghost predicate Evicts(w: World, step: Step) {
    step.ReleaseStep? && step.id in w.db.active && exists g :: Live(w, g) && g.task == step.id
  }

  ghost predicate Respectful(w: World, steps: seq<Step>)
    requires Runs(w, steps)
    decreases |steps|
  {
    steps == [] || (!Evicts(w, steps[0]) && Respectful(Do(w, steps[0]), steps[1..]))
  }

  // ---------------------------------------------------------------------
  // What a step does to one grant
  // ---------------------------------------------------------------------

  /** A grant that was there keeps what backs it, and a new one is backed. */
  ghost predicate Carried(w: World, step: Step, g: Lease)
    requires Enabled(w, step)
  {
    var db := Do(w, step).db;
    && (g in w.grants && Backed(w.db, g) && !Evicts(w, step) ==> Backed(db, g))
    && (g in w.grants && Kept(w.db, g) && !Opens(w, step) ==> Kept(db, g))
    && (g !in w.grants ==> Backed(db, g))
  }

  lemma TakeCarries(w: World, step: Step, g: Lease)
    requires Sound(w) && Enabled(w, step) && (step.LeaseNew? || step.LeaseExpired?) && Live(Do(w, step), g)
    ensures Carried(w, step, g)
  {
  }

  lemma FenceCarries(w: World, step: Step, g: Lease)
    requires Sound(w) && Enabled(w, step) && (step.RenewStep? || step.ResolveStep?) && Live(Do(w, step), g)
    ensures Carried(w, step, g)
  {
  }

  lemma FinalizeCarries(w: World, l: Lease, followups: seq<EnqueueRequest>, duration: int, g: Lease)
    requires Sound(w) && Live(Do(w, FinalizeStep(l, followups, duration)), g)
    ensures Carried(w, FinalizeStep(l, followups, duration), g)
  {
    if Holds(w.db, l, w.clock) {
      EnqueueAllKeeps(w.db, followups, w.db.active[l.task].spec.priority, w.clock);
    }
  }

  lemma OtherCarries(w: World, step: Step, g: Lease)
    requires Sound(w) && Enabled(w, step) && Live(Do(w, step), g)
    requires step.Tick? || step.EnqueueStep? || step.EventStep? || step.AwakenStep?
             || step.LeaseOpen? || step.LeaseFetch?
    ensures Carried(w, step, g)
  {
  }

  lemma UnfencedCarries(w: World, step: Step, g: Lease)
    requires Sound(w) && Enabled(w, step) && (step.ArchiveStep? || step.ReleaseStep?) && Live(Do(w, step), g)
    ensures Carried(w, step, g)
  {
    assert Live(w, g);
  }

  lemma StepCarries(w: World, step: Step, g: Lease)
    requires Sound(w) && Enabled(w, step) && Live(Do(w, step), g)
    ensures Carried(w, step, g) && (g in w.grants ==> Live(w, g))
  {
    match step
    case LeaseNew(_, _, _) => TakeCarries(w, step, g);
    case LeaseExpired(_, _, _) => TakeCarries(w, step, g);
    case RenewStep(_, _) => FenceCarries(w, step, g);
    case ResolveStep(_, _) => FenceCarries(w, step, g);
    case FinalizeStep(l, followups, duration) => FinalizeCarries(w, l, followups, duration, g);
    case ArchiveStep(_, _, _) => UnfencedCarries(w, step, g);
    case ReleaseStep(_, _) => UnfencedCarries(w, step, g);
    case _ => OtherCarries(w, step, g);
  }

  lemma StepSound(w: World, step: Step)
    requires Sound(w) && Enabled(w, step)
    ensures Sound(Do(w, step))
  {
    StepConserves(w, step);
  }

  lemma StepSafe(w: World, step: Step)
    requires Safe(w) && Enabled(w, step) && !Opens(w, step)
    ensures Safe(Do(w, step))
  {
    var w' := Do(w, step);
    StepSound(w, step);
    forall g | Live(w', g) ensures Carried(w, step, g) && (g in w.grants ==> Live(w, g)) && Kept(w'.db, g) {
      StepCarries(w, step, g);
    }
    forall g, h | Live(w', g) && Live(w', h) && g.task == h.task ensures g.owner == h.owner {
      if g !in w.grants || h !in w.grants {
        assert Backed(w'.db, g) || Backed(w'.db, h);
      }
    }
  }

  lemma {:induction false} RunSafe(w: World, steps: seq<Step>)
    requires Safe(w) && Runs(w, steps) && Careful(w, steps)
    ensures Safe(After(w, steps))
    decreases |steps|
  {
    if steps == [] {
    } else {
      StepSafe(w, steps[0]);
      RunSafe(Do(w, steps[0]), steps[1..]);
    }
  }

  lemma SafeIsShut(w: World)
    requires Safe(w)
    ensures Shut(w)
  {
    forall g, l: Lease | Live(w, g) && l.task == g.task && l.owner != g.owner
      ensures !Holds(w.db, l, w.clock) && !Replays(w.db, l)
    {
      assert Kept(w.db, g);
    }
  }

  /** At most one owner holds an unexpired grant of a task, in every run that opens
      no held task. */
  lemma MutualExclusion(steps: seq<Step>)
    requires Runs(START, steps) && Careful(START, steps)
    ensures Exclusive(After(START, steps))
  {
    RunSafe(START, steps);
  }

  /** While an owner holds an unexpired grant, a Renew, a Resolve or a Finalize by
      anyone else is refused and changes nothing. */
  lemma OnlyTheHolderCommits(steps: seq<Step>, g: Lease, l: Lease, duration: int, how: Resolution,
                             followups: seq<EnqueueRequest>)
    requires Runs(START, steps) && Careful(START, steps)
    requires Live(After(START, steps), g) && l.task == g.task && l.owner != g.owner
    ensures var w := After(START, steps);
            && Renew(w.db, l, duration, w.clock) == (w.db, None)
            && Resolve(w.db, l, how, w.clock) == (w.db, false)
            && Finalize(w.db, l, followups, duration, w.clock) == (w.db, false)
  {
    RunSafe(START, steps);
    SafeIsShut(After(START, steps));
  }

  // ---------------------------------------------------------------------
  // What an opening release leads to
  // ---------------------------------------------------------------------

  lemma RunsFrom(w: World, step: Step, rest: seq<Step>)
    requires Enabled(w, step)
    ensures Runs(w, [step] + rest) <==> Runs(Do(w, step), rest)
    ensures Runs(Do(w, step), rest) ==> After(w, [step] + rest) == After(Do(w, step), rest)
  {
    assert ([step] + rest)[1..] == rest;
  }

  /** The lease of one expired task. */
  function Retake(id: TaskId, call: nat, owner: Owner, duration: int): (steps: seq<Step>) {
    [LeaseOpen(call, owner)] + ([LeaseExpired(call, {id}, duration)] + ([LeaseFetch(call, {id})] + []))
  }

  ghost predicate Doubled(w: World, steps: seq<Step>) {
    Runs(w, steps) && !Exclusive(After(w, steps)) && !Shut(After(w, steps))
  }

  /** A task whose row has expired under an unexpired grant goes to a second owner. */
  lemma RetakeDoubles(w: World, g: Lease, call: nat, owner: Owner, duration: int)
    requires Live(w, g) && g.task in w.db.active && ExpiredBefore(w.db.active[g.task], w.clock)
    requires call !in w.calls && owner.Worker? && owner != g.owner && duration > 0
    ensures Doubled(w, Retake(g.task, call, owner, duration))
  {
    var id := g.task;
    var w1 := Do(w, LeaseOpen(call, owner));
    var w2 := Do(w1, LeaseExpired(call, {id}, duration));
    var h := Lease(id, owner, w.clock + duration);
    assert id in {id} && Holds(w2.db, h, w2.clock);
    var w3 := Do(w2, LeaseFetch(call, {id}));
    RunsFrom(w2, LeaseFetch(call, {id}), []);
    RunsFrom(w1, LeaseExpired(call, {id}, duration), [LeaseFetch(call, {id})] + []);
    RunsFrom(w, LeaseOpen(call, owner), [LeaseExpired(call, {id}, duration)] + ([LeaseFetch(call, {id})] + []));
    assert Live(w3, g) && Live(w3, h) && Holds(w3.db, h, w3.clock);
  }

  lemma DoubledFrom(w: World, step: Step, rest: seq<Step>)
    requires Enabled(w, step)
    ensures Doubled(w, [step] + rest) <==> Doubled(Do(w, step), rest)
  {
    RunsFrom(w, step, rest);
  }

  /** An unfenced temporary Fail of a held task whose wait ends more than a second
      before the grant: the next worker leases the task while the first holds it. */
  lemma LegacyFailDoublesLease(w: World, g: Lease, wait: int, to: int, call: nat, owner: Owner, duration: int)
    requires Live(w, g) && g.task in w.db.active && w.clock <= to < g.expires && w.clock + wait < to
    requires call !in w.calls && owner.Worker? && owner != g.owner && duration > 0
    ensures Doubled(w, [ReleaseStep(g.task, Retry(wait))] + ([Tick(to)] + Retake(g.task, call, owner, duration)))
  {
    var release := ReleaseStep(g.task, Retry(wait));
    var w1 := Do(w, release);
    RetakeDoubles(Do(w1, Tick(to)), g, call, owner, duration);
    DoubledFrom(w1, Tick(to), Retake(g.task, call, owner, duration));
    DoubledFrom(w, release, [Tick(to)] + Retake(g.task, call, owner, duration));
  }

  /** What makes a yielded row expire at once: Awaken, or, for a task that has
      failed before, a Resolve under the name of the yield. */
  function Rouse(w: World, id: TaskId): (step: Step)
    requires id in w.db.active && w.db.active[id].expires.Some?
  {
    if w.db.active[id].failureCount == 0 then AwakenStep({id})
    else ResolveStep(Lease(id, Yield, w.db.active[id].expires.value), Retry(-1))
  }

  lemma RouseExpires(w: World, g: Lease)
    requires Live(w, g) && g.owner.Worker? && g.task in w.db.active
    requires w.db.active[g.task].owner == Some(Yield)
    requires w.db.active[g.task].expires.Some? && w.db.active[g.task].expires.value > w.clock
    ensures var w' := Do(w, Rouse(w, g.task));
            && Live(w', g) && w'.calls == w.calls
            && g.task in w'.db.active && ExpiredBefore(w'.db.active[g.task], w'.clock)
  {
    assert g.task in {g.task};
  }

  /** An unfenced Yield of a held task: the next worker can lease the task at the
      same instant, while the first still holds it. */
  lemma LegacyYieldDoublesLease(w: World, g: Lease, pause: int, call: nat, owner: Owner, duration: int)
    requires Live(w, g) && g.task in w.db.active && g.owner.Worker?
    requires call !in w.calls && owner.Worker? && owner != g.owner && duration > 0
    ensures var release := ReleaseStep(g.task, YieldFor(pause));
            Doubled(w, [release] + ([Rouse(Do(w, release), g.task)] + Retake(g.task, call, owner, duration)))
  {
    var release := ReleaseStep(g.task, YieldFor(pause));
    var w1 := Do(w, release);
    var rouse := Rouse(w1, g.task);
    RouseExpires(w1, g);
    RetakeDoubles(Do(w1, rouse), g, call, owner, duration);
    DoubledFrom(w1, rouse, Retake(g.task, call, owner, duration));
    DoubledFrom(w, release, [rouse] + Retake(g.task, call, owner, duration));
  }

  // ---------------------------------------------------------------------
  // Exactly when exclusion holds
  // ---------------------------------------------------------------------

  /** Only routes that check the token, or archive the task, give it up. */
  ghost predicate ReleaseFree(steps: seq<Step>) {
    forall i :: 0 <= i < |steps| ==> !steps[i].ReleaseStep?
  }

  /** Whatever follows without an unfenced release, nobody shares a task. */
  ghost predicate Secure(w: World) {
    forall more :: Runs(w, more) && ReleaseFree(more) ==> Exclusive(After(w, more))
  }

  /** Whatever follows without an unfenced release, only the holder passes. */
  ghost predicate Shielded(w: World) {
    forall more :: Runs(w, more) && ReleaseFree(more) ==> Shut(After(w, more))
  }

  lemma {:induction false} ReleaseFreeIsCareful(w: World, steps: seq<Step>)
    requires Runs(w, steps) && ReleaseFree(steps)
    ensures Careful(w, steps)
    decreases |steps|
  {
    if steps == [] {
    } else {
      ReleaseFreeIsCareful(Do(w, steps[0]), steps[1..]);
    }
  }

  lemma SafeIsSecure(w: World)
    requires Safe(w)
    ensures Secure(w) && Shielded(w)
  {
    forall more | Runs(w, more) && ReleaseFree(more) ensures Exclusive(After(w, more)) && Shut(After(w, more)) {
      ReleaseFreeIsCareful(w, more);
      RunSafe(w, more);
      SafeIsShut(After(w, more));
    }
  }

  lemma {:induction false} Unused(calls: set<nat>) returns (call: nat)
    ensures forall c :: c in calls ==> c < call
    decreases |calls|
  {
    if calls == {} {
      call := 0;
    } else {
      var c :| c in calls;
      var rest := Unused(calls - {c});
      call := if c < rest then rest else c + 1;
      assert forall x :: x in calls ==> x == c || x in calls - {c};
    }
  }

  /** Another worker than `owner`. */
  function Rival(owner: Owner): (r: Owner)
    ensures r.Worker? && r != owner
  {
    if owner == Worker("a") then Worker("b") else Worker("a")
  }

  lemma OpenedFail(w: World, g: Lease, wait: int, call: nat, owner: Owner) returns (more: seq<Step>)
    requires Live(w, g) && g.task in w.db.active && w.clock + wait + 1 < g.expires
    requires call !in w.calls && owner.Worker? && owner != g.owner
    ensures Doubled(Do(w, ReleaseStep(g.task, Retry(wait))), more) && ReleaseFree(more)
  {
    var to := if wait < 0 then w.clock else w.clock + wait + 1;
    more := [Tick(to)] + Retake(g.task, call, owner, 1);
    LegacyFailDoublesLease(w, g, wait, to, call, owner, 1);
    DoubledFrom(w, ReleaseStep(g.task, Retry(wait)), more);
  }

  lemma OpenedYield(w: World, g: Lease, pause: int, call: nat, owner: Owner) returns (more: seq<Step>)
    requires Live(w, g) && g.task in w.db.active && g.owner.Worker?
    requires call !in w.calls && owner.Worker? && owner != g.owner
    ensures Doubled(Do(w, ReleaseStep(g.task, YieldFor(pause))), more) && ReleaseFree(more)
  {
    var release := ReleaseStep(g.task, YieldFor(pause));
    more := [Rouse(Do(w, release), g.task)] + Retake(g.task, call, owner, 1);
    LegacyYieldDoublesLease(w, g, pause, call, owner, 1);
    DoubledFrom(w, release, more);
  }

  lemma DoubledBreaks(w: World, more: seq<Step>)
    requires Doubled(w, more) && ReleaseFree(more)
    ensures !Secure(w) && !Shielded(w)
  {
  }

  lemma OpeningBreaks(w: World, step: Step)
    requires Sound(w) && Enabled(w, step) && Opens(w, step)
    ensures !Secure(Do(w, step)) && !Shielded(Do(w, step))
  {
    var g :| Live(w, g) && g.task == step.id && Early(step.how, w.clock, g.expires);
    var call := Unused(w.calls.Keys);
    var more: seq<Step>;
    match step.how {
      case Retry(wait) => more := OpenedFail(w, g, wait, call, Rival(g.owner));
      case YieldFor(pause) => more := OpenedYield(w, g, pause, call, Rival(g.owner));
    }
    DoubledBreaks(Do(w, step), more);
  }

  /** After any run that opened no held task, a step leaves exclusion, and the
      holder's monopoly on the fence, to every continuation without an unfenced
      release exactly when it does not open a held task itself. */
  lemma StepExact(steps: seq<Step>, step: Step)
    requires Runs(START, steps) && Careful(START, steps) && Enabled(After(START, steps), step)
    ensures Secure(Do(After(START, steps), step)) <==> !Opens(After(START, steps), step)
    ensures Shielded(Do(After(START, steps), step)) <==> !Opens(After(START, steps), step)
  {
    var w := After(START, steps);
    RunSafe(START, steps);
    if Opens(w, step) {
      OpeningBreaks(w, step);
    } else {
      StepSafe(w, step);
      SafeIsSecure(Do(w, step));
    }
  }

  ghost predicate SecureThroughout(w: World, steps: seq<Step>)
    requires Runs(w, steps)
    decreases |steps|
  {
    Secure(w) && (steps != [] ==> SecureThroughout(Do(w, steps[0]), steps[1..]))
  }

  ghost predicate ShieldedThroughout(w: World, steps: seq<Step>)
    requires Runs(w, steps)
    decreases |steps|
  {
    Shielded(w) && (steps != [] ==> ShieldedThroughout(Do(w, steps[0]), steps[1..]))
  }

  lemma {:induction false} ThroughoutIff(w: World, steps: seq<Step>)
    requires Safe(w) && Runs(w, steps)
    ensures SecureThroughout(w, steps) <==> Careful(w, steps)
    ensures ShieldedThroughout(w, steps) <==> Careful(w, steps)
    decreases |steps|
  {
    SafeIsSecure(w);
    if steps == [] {
    } else if Opens(w, steps[0]) {
      OpeningBreaks(w, steps[0]);
    } else {
      StepSafe(w, steps[0]);
      ThroughoutIff(Do(w, steps[0]), steps[1..]);
    }
  }

  /** All through a run, exclusion is certain as long as no unfenced release
      follows, exactly when no step of the run opens a held task; and so is that
      only the holder passes the fence. */
  lemma ExclusiveExactlyWhen(steps: seq<Step>)
    requires Runs(START, steps)
    ensures SecureThroughout(START, steps) <==> Careful(START, steps)
    ensures ShieldedThroughout(START, steps) <==> Careful(START, steps)
  {
    ThroughoutIff(START, steps);
  }

  // ---------------------------------------------------------------------
  // Exactly when a grant keeps its row
  // ---------------------------------------------------------------------

  /** No unexpired grant is without its row, in any state of the run. */
  ghost predicate BackedThroughout(w: World, steps: seq<Step>)
    requires Runs(w, steps)
    decreases |steps|
  {
    AllBacked(w) && (steps != [] ==> BackedThroughout(Do(w, steps[0]), steps[1..]))
  }

  lemma StepBacked(w: World, step: Step)
    requires Sound(w) && AllBacked(w) && Enabled(w, step)
    ensures AllBacked(Do(w, step)) <==> !Evicts(w, step)
  {
    var w' := Do(w, step);
    if Evicts(w, step) {
      var g :| Live(w, g) && g.task == step.id;
      assert Live(w', g) && !Backed(w'.db, g);
    } else {
      forall g | Live(w', g) ensures Backed(w'.db, g) {
        StepCarries(w, step, g);
      }
    }
  }

  lemma {:induction false} BackedIff(w: World, steps: seq<Step>)
    requires Sound(w) && AllBacked(w) && Runs(w, steps)
    ensures BackedThroughout(w, steps) <==> Respectful(w, steps)
    decreases |steps|
  {
    if steps == [] {
    } else {
      StepBacked(w, steps[0]);
      if !Evicts(w, steps[0]) {
        StepSound(w, steps[0]);
        BackedIff(Do(w, steps[0]), steps[1..]);
      }
    }
  }

  /** Every unexpired grant keeps its row all through a run exactly when no step
      of the run releases a held task without its fence. */
  lemma LeasesHoldExactlyWhen(steps: seq<Step>)
    requires Runs(START, steps)
    ensures BackedThroughout(START, steps) <==> Respectful(START, steps)
  {
    BackedIff(START, steps);
  }
}
