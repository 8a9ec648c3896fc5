/** The retry and failover loops of the dispatcher, and the fact that whatever
    they do is a sequence of submitter steps of `MailRuns`. */
module MailDispatch {
  import opened Options
  import opened MailLedger
  import opened MailRuns

  datatype Key = Key(name: string)

  datatype Adapter = Adapter(key: Key)

  datatype Dispatcher = Dispatcher(adapters: seq<Adapter>, maxRetries: int)

  /** Everything the dispatcher cannot see coming, by query number: whether the
      context has ended, what the authorization source says, what a provider
      returns, and whether the wait before a retry is interrupted. */
  datatype Env = Env(cancelled: nat -> bool, gate: nat -> Option<Outcome>, provider: nat -> Outcome,
                     interrupted: nat -> bool)

  /** A gate either passes or fails with an error, never with a receipt. */
  ghost predicate EnvOk(env: Env) {
    forall t :: env.gate(t).Some? ==> !env.gate(t).value.Delivered?
  }

  /** One physical provider call, made at query `at`. */
  datatype Call = Call(adapter: nat, outcome: Outcome, at: nat)

  /** Nothing but the providers decides this dispatch. */
  ghost predicate Undisturbed(env: Env) {
    forall t :: !env.cancelled(t) && !env.interrupted(t) && env.gate(t).None?
  }

  /** Every call got what the provider returned at that moment, and directly
      before it the authorization source let it pass. */
  ghost predicate Witnessed(calls: seq<Call>, gated: bool, env: Env) {
    forall i :: 0 <= i < |calls| ==>
      && calls[i].outcome == env.provider(calls[i].at)
      && (gated ==> calls[i].at > 0 && env.gate(calls[i].at - 1).None?)
  }

  /** How often one adapter is tried before the next one. */
  function Tries(d: Dispatcher): (n: nat) {
    if d.maxRetries > 0 then d.maxRetries + 1 else 1
  }

  /** What one adapter's retry loop returned. */
  datatype Through = Through(outcome: Outcome, fromGate: bool)

  /** Only proven non-acceptances are followed by another call, and the result
      is the last call's unless the loop stopped without one. */
  ghost predicate Faithful(calls: seq<Call>, r: Outcome) {
    && (forall i :: 0 <= i < |calls| - 1 ==> calls[i].outcome.SafeRetry?)
    && (calls != [] && !calls[|calls| - 1].outcome.SafeRetry? ==> r == calls[|calls| - 1].outcome)
    && (r.Delivered? ==> calls != [] && calls[|calls| - 1].outcome == r)
  }

  /** A result that is no proven non-acceptance came from the last call, or from the
      authorization source. */
  ghost predicate Founded(calls: seq<Call>, r: Outcome, gated: bool, env: Env) {
    || r.SafeRetry?
    || (calls != [] && calls[|calls| - 1].outcome == r)
    || (gated && exists t :: env.gate(t) == Some(r))
  }

  ghost predicate AllSafe(calls: seq<Call>) {
    forall i :: 0 <= i < |calls| ==> calls[i].outcome.SafeRetry?
  }

  predicate Permitted(keys: seq<Key>, key: Key) {
    keys == [] || key in keys
  }

  /** Every call goes to adapter `na`. */
  ghost predicate AllTo(calls: seq<Call>, na: nat) {
    forall i :: 0 <= i < |calls| ==> calls[i].adapter == na
  }

  /** Retries one adapter. */
  method SendThrough(d: Dispatcher, na: nat, gated: bool, env: Env, start: nat)
    returns (r: Through, calls: seq<Call>, t: nat)
    requires na < |d.adapters| && EnvOk(env)
    ensures Faithful(calls, r.outcome) && AllTo(calls, na) && Founded(calls, r.outcome, gated, env)
    ensures Witnessed(calls, gated, env)
    ensures |calls| <= Tries(d)
    ensures Undisturbed(env) && r.outcome.SafeRetry? ==> |calls| == Tries(d)
    ensures r.fromGate ==> AllSafe(calls) && gated && !Undisturbed(env)
    ensures r.outcome.SafeRetry? ==> AllSafe(calls)
  {
    calls := [];
    t := start;
    var attempt := 0;
    while true
      invariant AllSafe(calls) && AllTo(calls, na) && Witnessed(calls, gated, env) && |calls| == attempt
      invariant attempt > 0 ==> attempt <= d.maxRetries
      decreases if d.maxRetries > attempt then d.maxRetries - attempt else 0
    {
      if env.cancelled(t) {
        return Through(SafeRetry, false), calls, t + 1;
      }
      t := t + 1;
      if gated {
        var refused := env.gate(t);
        t := t + 1;
        if refused.Some? {
          return Through(refused.value, true), calls, t;
        }
      }
      var outcome := env.provider(t);
      calls, t := calls + [Call(na, outcome, t)], t + 1;
      if outcome.Delivered? {
        return Through(outcome, false), calls, t;
      }
      if outcome.Permanent? || !outcome.SafeRetry? {
        return Through(outcome, false), calls, t;
      }
      if attempt >= d.maxRetries {
        return Through(SafeRetry, false), calls, t;
      }
      if env.interrupted(t) {
        return Through(SafeRetry, false), calls, t + 1;
      }
      t := t + 1;
      attempt := attempt + 1;
    }
  }

  /** Adapters are tried in order, each at most `maxRetries + 1` times. */
  ghost predicate InOrder(calls: seq<Call>, d: Dispatcher, keys: seq<Key>, upTo: nat) {
    && (forall i :: 0 <= i < |calls| ==>
          calls[i].adapter < upTo && calls[i].adapter < |d.adapters|
          && Permitted(keys, d.adapters[calls[i].adapter].key))
    && (forall i, j :: 0 <= i < j < |calls| ==> calls[i].adapter <= calls[j].adapter)
  }

  lemma InOrderExtends(calls: seq<Call>, more: seq<Call>, d: Dispatcher, keys: seq<Key>, na: nat)
    requires InOrder(calls, d, keys, na) && AllTo(more, na)
    requires na < |d.adapters| && Permitted(keys, d.adapters[na].key)
    ensures InOrder(calls + more, d, keys, na + 1)
  {
  }

  lemma WitnessedExtends(calls: seq<Call>, more: seq<Call>, gated: bool, env: Env)
    requires Witnessed(calls, gated, env) && Witnessed(more, gated, env)
    ensures Witnessed(calls + more, gated, env)
    ensures AllSafe(calls) && AllSafe(more) ==> AllSafe(calls + more)
  {
  }

  lemma FaithfulExtends(calls: seq<Call>, more: seq<Call>, r: Outcome)
    requires AllSafe(calls) && Faithful(more, r)
    ensures Faithful(calls + more, r)
  {
    var all := calls + more;
    assert more != [] ==> all[|all| - 1] == more[|more| - 1];
    assert more == [] ==> all == calls;
  }

  /** The adapters that a dispatch goes through: each permitted one, in order, as often
      as it is tried. */
  ghost function Round(d: Dispatcher, keys: seq<Key>, n: nat): (takers: seq<nat>)
    requires n <= |d.adapters|
  {
    if n == 0 then []
    else Round(d, keys, n - 1) + (if Permitted(keys, d.adapters[n - 1].key) then seq(Tries(d), _ => n - 1) else [])
  }

  ghost function Takers(calls: seq<Call>): (takers: seq<nat>) {
    seq(|calls|, i requires 0 <= i < |calls| => calls[i].adapter)
  }

  lemma {:induction false} RoundGrows(d: Dispatcher, keys: seq<Key>, m: nat, n: nat)
    requires m <= n <= |d.adapters|
    ensures Round(d, keys, m) <= Round(d, keys, n)
    decreases n
  {
    if m < n {
      RoundGrows(d, keys, m, n - 1);
    }
  }

  lemma TakersNext(calls: seq<Call>, more: seq<Call>, na: nat)
    requires AllTo(more, na)
    ensures Takers(calls + more) == Takers(calls) + seq(|more|, _ => na)
  {
  }

  /** The calls of one adapter, and all of them if it is exhausted. */
  lemma RoundNext(d: Dispatcher, keys: seq<Key>, calls: seq<Call>, more: seq<Call>, na: nat)
    requires na < |d.adapters| && Permitted(keys, d.adapters[na].key)
    requires Takers(calls) == Round(d, keys, na) && AllTo(more, na) && |more| <= Tries(d)
    ensures Takers(calls + more) <= Round(d, keys, na + 1) <= Round(d, keys, |d.adapters|)
    ensures |more| == Tries(d) ==> Takers(calls + more) == Round(d, keys, na + 1)
  {
    TakersNext(calls, more, na);
    RoundGrows(d, keys, na + 1, |d.adapters|);
  }

  /** The calls it takes to exhaust the first `n` adapters. */
  ghost function Exhausted(d: Dispatcher, keys: seq<Key>, n: nat): (c: nat)
    requires n <= |d.adapters|
  {
    if n == 0 then 0
    else Exhausted(d, keys, n - 1) + (if Permitted(keys, d.adapters[n - 1].key) then Tries(d) else 0)
  }

  /** What holds once the first `n` adapters have been passed over or tried. */
  ghost predicate Tried(calls: seq<Call>, d: Dispatcher, keys: seq<Key>, gated: bool, env: Env, n: nat)
    requires n <= |d.adapters|
  {
    && InOrder(calls, d, keys, n) && Witnessed(calls, gated, env)
    && |calls| <= Exhausted(d, keys, n)
  }

  lemma TriedNext(calls: seq<Call>, more: seq<Call>, d: Dispatcher, keys: seq<Key>, gated: bool, env: Env, na: nat)
    requires na < |d.adapters| && Tried(calls, d, keys, gated, env, na) && Permitted(keys, d.adapters[na].key)
    requires AllTo(more, na) && Witnessed(more, gated, env) && |more| <= Tries(d)
    ensures Tried(calls + more, d, keys, gated, env, na + 1)
    ensures AllSafe(calls) && AllSafe(more) ==> AllSafe(calls + more)
  {
    InOrderExtends(calls, more, d, keys, na);
    WitnessedExtends(calls, more, gated, env);
  }

  lemma TriedWidens(calls: seq<Call>, d: Dispatcher, keys: seq<Key>, gated: bool, env: Env, m: nat, n: nat)
    requires m <= n <= |d.adapters| && Tried(calls, d, keys, gated, env, m)
    ensures Tried(calls, d, keys, gated, env, n)
  {
    ExhaustedMonotone(d, keys, m, n);
  }

  /** One adapter's calls, after those of the adapters before it. */
  lemma AdapterTried(calls: seq<Call>, more: seq<Call>, d: Dispatcher, keys: seq<Key>, gated: bool, env: Env, na: nat,
                     r: Outcome)
    requires na < |d.adapters| && Tried(calls, d, keys, gated, env, na) && Permitted(keys, d.adapters[na].key)
    requires AllSafe(calls) && Faithful(more, r)
    requires AllTo(more, na) && Witnessed(more, gated, env) && |more| <= Tries(d)
    ensures Faithful(calls + more, r)
    ensures Tried(calls + more, d, keys, gated, env, na + 1) && Tried(calls + more, d, keys, gated, env, |d.adapters|)
    ensures AllSafe(more) ==> AllSafe(calls + more)
  {
    TriedNext(calls, more, d, keys, gated, env, na);
    FaithfulExtends(calls, more, r);
    TriedWidens(calls + more, d, keys, gated, env, na + 1, |d.adapters|);
  }

  /** One permitted adapter, unless the caller has gone: `stop` is the result that
      ends the dispatch here. */
  method TryAdapter(d: Dispatcher, na: nat, keys: seq<Key>, gated: bool, env: Env, start: nat, calls: seq<Call>)
    returns (stop: Option<Outcome>, all: seq<Call>, t: nat)
    requires na < |d.adapters| && EnvOk(env) && Permitted(keys, d.adapters[na].key)
    requires AllSafe(calls) && Tried(calls, d, keys, gated, env, na)
    ensures stop.Some? ==> Faithful(all, stop.value) && Tried(all, d, keys, gated, env, |d.adapters|)
    ensures stop.Some? && stop.value.SafeRetry? ==> AllSafe(all) && !Undisturbed(env)
    ensures stop.None? ==> AllSafe(all) && Tried(all, d, keys, gated, env, na + 1)
    ensures stop.None? && Undisturbed(env) ==> |all| == |calls| + Tries(d)
    ensures stop.Some? ==> Founded(all, stop.value, gated, env)
    ensures Undisturbed(env) && Takers(calls) == Round(d, keys, na) ==>
              if stop.None? then Takers(all) == Round(d, keys, na + 1) else Takers(all) <= Round(d, keys, |d.adapters|)
  {
    if env.cancelled(start) {
      TriedWidens(calls, d, keys, gated, env, na, |d.adapters|);
      return Some(SafeRetry), calls, start;
    }
    var through, more, next := SendThrough(d, na, gated, env, start + 1);
    AdapterTried(calls, more, d, keys, gated, env, na, through.outcome);
    all, t := calls + more, next;
    if Takers(calls) == Round(d, keys, na) {
      RoundNext(d, keys, calls, more, na);
    }
    if through.outcome.Delivered? || through.fromGate || through.outcome.Permanent? || !through.outcome.SafeRetry? {
      return Some(through.outcome), all, t;
    }
    stop := None;
  }

  /** Fails over from adapter to adapter. */
  method SendAuthorized(d: Dispatcher, keys: seq<Key>, gated: bool, env: Env)
    returns (r: Outcome, calls: seq<Call>)
    requires EnvOk(env)
    ensures Faithful(calls, r) && Tried(calls, d, keys, gated, env, |d.adapters|) && Founded(calls, r, gated, env)
    ensures r.SafeRetry? ==> AllSafe(calls)
    ensures Undisturbed(env) ==> Takers(calls) <= Round(d, keys, |d.adapters|)
    ensures Undisturbed(env) && r.SafeRetry? ==> Takers(calls) == Round(d, keys, |d.adapters|)
  {
    calls := [];
    if |d.adapters| == 0 {
      return SafeRetry, calls;
    }
    var t := 0;
    for na := 0 to |d.adapters|
      invariant AllSafe(calls) && Tried(calls, d, keys, gated, env, na)
      invariant Undisturbed(env) ==> Takers(calls) == Round(d, keys, na)
    {
      if Permitted(keys, d.adapters[na].key) {
        var stop, all, next := TryAdapter(d, na, keys, gated, env, t, calls);
        calls, t := all, next;
        if stop.Some? {
          return stop.value, calls;
        }
      } else {
        TriedWidens(calls, d, keys, gated, env, na, na + 1);
      }
    }
    // Without a match and with every match exhausted alike, a later retry is safe.
    return SafeRetry, calls;
  }

  lemma {:induction false} ExhaustedMonotone(d: Dispatcher, keys: seq<Key>, m: nat, n: nat)
    requires m <= n <= |d.adapters|
    ensures Exhausted(d, keys, m) <= Exhausted(d, keys, n)
    decreases n
  {
    if m < n {
      ExhaustedMonotone(d, keys, m, n - 1);
    }
  }

  // ---------------------------------------------------------------------
  // A dispatch is a sequence of submitter steps
  // ---------------------------------------------------------------------

  /** The provider calls of a dispatch, with what really happened to the message,
      and the step that ends it. */
  ghost function DispatchSteps(id: Id, attempt: nat, calls: seq<Call>, accepted: seq<bool>, r: Outcome): (s: seq<Step>)
    requires |accepted| == |calls|
    decreases |calls|
  {
    if calls == [] then [GiveUp(id, attempt, r)]
    else
      [ProviderCall(id, attempt, calls[0].outcome, accepted[0])]
      + (if calls[0].outcome.SafeRetry? then DispatchSteps(id, attempt, calls[1..], accepted[1..], r) else [])
  }

  /** The calls as the log records them. */
  ghost function Sends(id: Id, attempt: nat, calls: seq<Call>, accepted: seq<bool>): (s: seq<Send>)
    requires |accepted| == |calls|
    decreases |calls|
  {
    if calls == [] then []
    else [Send(id, attempt, calls[0].outcome, accepted[0])] + Sends(id, attempt, calls[1..], accepted[1..])
  }

  /** Whatever providers really did, a dispatch ends with the submitter holding
      its result, and nothing but the log and that submitter has changed. */
  lemma {:induction false} DispatchRefines(w: World, id: Id, attempt: nat, calls: seq<Call>, accepted: seq<bool>,
                                           r: Outcome)
    requires |accepted| == |calls| && Faithful(calls, r)
    requires forall i :: 0 <= i < |calls| ==> Honest(calls[i].outcome, accepted[i])
    requires (id, attempt) in w.subs && w.subs[(id, attempt)].Sending?
    ensures var steps := DispatchSteps(id, attempt, calls, accepted, r);
            && Runs(w, steps)
            && var w' := After(w, steps);
            && w'.ledger == w.ledger
            && w'.subs == w.subs[(id, attempt) := Finished(w.subs[(id, attempt)].revision, r)]
            && w'.log == w.log + Sends(id, attempt, calls, accepted)
    decreases |calls|
  {
    var steps := DispatchSteps(id, attempt, calls, accepted, r);
    if calls == [] {
      assert steps[1..] == [];
      assert w.log + [] == w.log;
    } else if calls[0].outcome.SafeRetry? {
      var w1 := Do(w, steps[0]);
      var rest, flags := calls[1..], accepted[1..];
      FaithfulTail(calls, r);
      DispatchRefines(w1, id, attempt, rest, flags, r);
      assert steps[1..] == DispatchSteps(id, attempt, rest, flags, r);
      LogGrows(w.log, Send(id, attempt, calls[0].outcome, accepted[0]), Sends(id, attempt, rest, flags));
    } else {
      assert |calls| == 1;
      assert steps[1..] == [];
    }
  }

  lemma LogGrows(log: seq<Send>, s: Send, more: seq<Send>)
    ensures (log + [s]) + more == log + ([s] + more)
  {
  }

  lemma FaithfulTail(calls: seq<Call>, r: Outcome)
    requires calls != [] && Faithful(calls, r) && calls[0].outcome.SafeRetry?
    ensures Faithful(calls[1..], r)
  {
    assert |calls| > 1 ==> calls[1..][|calls| - 2] == calls[|calls| - 1];
  }
}
