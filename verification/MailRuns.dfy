/** Runs of the delivery service: any number of callers, submitters, cancellers
    and recovery loops, interleaved at their transactions and provider calls.

    A crash is an actor whose next step never happens, so every prefix of an
    actor's steps is covered. */
module MailRuns {
  import opened Options
  import opened MailLedger

  /** One call of a provider.  `accepted` is what really happened to the message;
      the service only sees `outcome`. */
  datatype Send = Send(id: Id, attempt: nat, outcome: Outcome, accepted: bool)

  /** A submitter that has claimed an attempt. */
  datatype Submitter =
    | Sending(revision: nat)
    | Finished(revision: nat, outcome: Outcome)
    | Reported

  datatype World = World(ledger: Ledger, subs: map<(Id, nat), Submitter>, log: seq<Send>)

  datatype Step =
    | DeliverCall(id: Id, payload: Payload, allow: bool, ready: bool, now: int)
    | ProviderCall(id: Id, attempt: nat, outcome: Outcome, accepted: bool)
    | GiveUp(id: Id, attempt: nat, outcome: Outcome)
    | ReportCall(id: Id, attempt: nat, now: int, jitter: nat)
    | CancelCall(id: Id)
    | RecoverCall(ids: seq<Id>, kind: State, now: int)

  /** Permanent and safe-retry errors prove that the provider did not accept; a
      receipt proves that it did. */
  predicate Honest(outcome: Outcome, accepted: bool) {
    match outcome
    case Delivered(_) => accepted
    case Permanent => !accepted
    case SafeRetry => !accepted
    case Ambiguous => true
  }

  predicate Enabled(w: World, step: Step) {
    match step
    case DeliverCall(_, _, _, _, _) => true
    case ProviderCall(id, attempt, outcome, accepted) =>
      (id, attempt) in w.subs && w.subs[(id, attempt)].Sending? && Honest(outcome, accepted)
    case GiveUp(id, attempt, outcome) =>
      (id, attempt) in w.subs && w.subs[(id, attempt)].Sending? && !outcome.Delivered?
    case ReportCall(id, attempt, _, jitter) =>
      (id, attempt) in w.subs && w.subs[(id, attempt)].Finished? && attempt >= 1 && jitter < 16
    case CancelCall(_) => true
    case RecoverCall(ids, kind, now) => RecoverKind(kind) && Selection(w.ledger, ids, kind, now)
  }

  function Do(w: World, step: Step): (w': World)
    requires Enabled(w, step)
  {
    match step
    case DeliverCall(id, payload, allow, ready, now) =>
      var (l, reply) := Begin(w.ledger, id, payload, allow, ready, now);
      World(l, if reply.Submit? then w.subs[(id, reply.attempt) := Sending(reply.revision)] else w.subs, w.log)
    case ProviderCall(id, attempt, outcome, accepted) =>
      // After a safe retry the dispatcher may call the same or another provider.
      World(w.ledger,
            if outcome.SafeRetry? then w.subs
            else w.subs[(id, attempt) := Finished(w.subs[(id, attempt)].revision, outcome)],
            w.log + [Send(id, attempt, outcome, accepted)])
    case GiveUp(id, attempt, outcome) =>
      w.(subs := w.subs[(id, attempt) := Finished(w.subs[(id, attempt)].revision, outcome)])
    case ReportCall(id, attempt, now, jitter) =>
      Reporting(w, id, attempt, Verdict(w.subs[(id, attempt)], attempt, now, jitter), now)
    case CancelCall(id) => w.(ledger := Cancel(w.ledger, id).0)
    case RecoverCall(ids, kind, now) => w.(ledger := Recover(w.ledger, ids, kind, now))
  }

  /** What a finished submitter wants to record. */
  function Verdict(sub: Submitter, attempt: nat, now: int, jitter: nat): (out: Answer)
    requires sub.Finished? && attempt >= 1
  {
    Concluding(attempt, sub.revision, sub.outcome, now, jitter)
  }

  /** The world after a submitter has tried to record `out`. */
  function Reporting(w: World, id: Id, attempt: nat, out: Answer, now: int): (w': World) {
    World(Report(w.ledger, id, out, now).0, w.subs[(id, attempt) := Reported], w.log)
  }

  const START := World(EMPTY, map[], [])

  /** Every step of the run is enabled where it happens. */
  ghost predicate Runs(w: World, steps: seq<Step>)
    decreases |steps|
  {
    steps == [] || (Enabled(w, steps[0]) && Runs(Do(w, steps[0]), steps[1..]))
  }

  ghost function After(w: World, steps: seq<Step>): (w': World)
    requires Runs(w, steps)
    decreases |steps|
  {
    if steps == [] then w else After(Do(w, steps[0]), steps[1..])
  }

  // ---------------------------------------------------------------------
  // The invariant of every reachable world
  // ---------------------------------------------------------------------

  /** Every provider call for `id` so far was a proven non-acceptance. */
  ghost predicate SafeSoFar(log: seq<Send>, id: Id) {
    forall i :: 0 <= i < |log| && log[i].id == id ==> log[i].outcome.SafeRetry?
  }

  ghost predicate NoneAccepted(log: seq<Send>, id: Id) {
    forall i :: 0 <= i < |log| && log[i].id == id ==> !log[i].accepted
  }

  ghost predicate SomeAccepted(log: seq<Send>, id: Id) {
    exists i :: 0 <= i < |log| && log[i].id == id && log[i].accepted
  }

  /** A further provider call follows an earlier one only if that one was a
      proven non-acceptance. */
  ghost predicate OnlySafeRetried(log: seq<Send>) {
    forall i, j :: 0 <= i < j < |log| && log[i].id == log[j].id ==> log[i].outcome.SafeRetry?
  }

  ghost predicate LogOk(w: World) {
    && OnlySafeRetried(w.log)
    && (forall i :: 0 <= i < |w.log| ==>
          Honest(w.log[i].outcome, w.log[i].accepted) && w.log[i].id in w.ledger.deliveries)
  }

  /** What the submitters of a delivery still know about it. */
  ghost predicate SubmitterOk(w: World, id: Id, attempt: nat, sub: Submitter) {
    && id in w.ledger.deliveries
    && var d := w.ledger.deliveries[id];
    && 1 <= attempt <= d.attempt
    && (!sub.Reported? ==>
          attempt == d.attempt && sub.revision == 2 * attempt - 1 && (d.state == Submitting || d.state == Unknown))
    && (sub.Sending? ==> SafeSoFar(w.log, id))
    && (sub.Finished? ==>
          match sub.outcome
          case Delivered(_) => SomeAccepted(w.log, id)
          case Permanent => NoneAccepted(w.log, id)
          case SafeRetry => SafeSoFar(w.log, id)
          case Ambiguous => true)
  }

  /** What the recorded state says about the provider calls. */
  ghost predicate StateTruthful(w: World, id: Id)
    requires id in w.ledger.deliveries
  {
    match w.ledger.deliveries[id].state
    case Prepared => SafeSoFar(w.log, id)
    case RetryWait => SafeSoFar(w.log, id)
    case Accepted => SomeAccepted(w.log, id)
    case Failed => NoneAccepted(w.log, id)
    case Expired => NoneAccepted(w.log, id)
    case Cancelled => NoneAccepted(w.log, id)
    case Submitting => true
    case Unknown => true
  }

  ghost predicate WorldOk(w: World) {
    && LedgerOk(w.ledger)
    && LogOk(w)
    && (forall id, attempt :: (id, attempt) in w.subs ==> SubmitterOk(w, id, attempt, w.subs[(id, attempt)]))
    && (forall id :: id in w.ledger.deliveries ==> StateTruthful(w, id))
  }

  lemma SafeMeansNone(log: seq<Send>, id: Id)
    requires SafeSoFar(log, id)
    requires forall i :: 0 <= i < |log| ==> Honest(log[i].outcome, log[i].accepted)
    ensures NoneAccepted(log, id)
  {
  }

  /** A transaction on one delivery keeps what is known about the others. */
  lemma LedgerStepOk(w: World, w': World, id: Id)
    requires WorldOk(w) && LedgerOk(w'.ledger) && OnlyTouches(w.ledger, w'.ledger, id) && w'.log == w.log
    requires id in w.ledger.deliveries ==> id in w'.ledger.deliveries
    requires forall other, k :: other != id ==>
               ((other, k) in w'.subs <==> (other, k) in w.subs) &&
               ((other, k) in w.subs ==> w'.subs[(other, k)] == w.subs[(other, k)])
    requires forall k :: (id, k) in w'.subs ==> SubmitterOk(w', id, k, w'.subs[(id, k)])
    requires id in w'.ledger.deliveries ==> StateTruthful(w', id)
    ensures WorldOk(w')
  {
    forall other, k | (other, k) in w'.subs ensures SubmitterOk(w', other, k, w'.subs[(other, k)]) {
      if other != id {
        assert SubmitterOk(w, other, k, w.subs[(other, k)]);
      }
    }
    forall other | other in w'.ledger.deliveries ensures StateTruthful(w', other) {
      if other != id {
        assert StateTruthful(w, other);
      }
    }
  }

  /** Before it is inserted, a delivery has no calls and no submitters. */
  lemma AbsentIsUntouched(w: World, id: Id)
    requires WorldOk(w) && id !in w.ledger.deliveries
    ensures SafeSoFar(w.log, id) && forall k :: (id, k) !in w.subs
  {
  }

  lemma InsertKeeps(w: World, id: Id, payload: Payload)
    requires WorldOk(w)
    ensures WorldOk(w.(ledger := Inserted(w.ledger, id, payload)))
  {
    var w' := w.(ledger := Inserted(w.ledger, id, payload));
    if id in w.ledger.deliveries {
      assert w' == w;
    } else {
      InsertedOk(w.ledger, id, payload);
      AbsentIsUntouched(w, id);
      LedgerStepOk(w, w', id);
    }
  }

  lemma RecoverOneKeeps(w: World, id: Id, kind: State, now: int)
    requires WorldOk(w) && RecoverKind(kind) && id in w.ledger.deliveries && w.ledger.deliveries[id].state == kind
    ensures WorldOk(w.(ledger := RecoverOne(w.ledger, id, kind, now)))
  {
    var w' := w.(ledger := RecoverOne(w.ledger, id, kind, now));
    RecoverOneOk(w.ledger, id, kind, now);
    assert StateTruthful(w, id);
    if SafeSoFar(w.log, id) { SafeMeansNone(w.log, id); }
    forall k | (id, k) in w'.subs ensures SubmitterOk(w', id, k, w'.subs[(id, k)]) {
      assert SubmitterOk(w, id, k, w.subs[(id, k)]);
    }
    LedgerStepOk(w, w', id);
  }

  /** The world after an attempt has been claimed. */
  function Claimed(w: World, id: Id, now: int): (w': World)
    requires id in w.ledger.deliveries
  {
    var d := w.ledger.deliveries[id];
    World(Claim(w.ledger, id, now), w.subs[(id, d.attempt + 1) := Sending(d.revision + 1)], w.log)
  }

  /** Nobody is submitting a waiting delivery, so the claim is exclusive. */
  lemma ClaimSubmitters(w: World, id: Id, now: int, k: nat)
    requires WorldOk(w) && id in w.ledger.deliveries
    requires w.ledger.deliveries[id].state == Prepared || w.ledger.deliveries[id].state == RetryWait
    requires (id, k) in Claimed(w, id, now).subs
    ensures SubmitterOk(Claimed(w, id, now), id, k, Claimed(w, id, now).subs[(id, k)])
  {
    assert StateTruthful(w, id) && DeliveryOk(w.ledger.deliveries[id]);
    if (id, k) in w.subs {
      assert SubmitterOk(w, id, k, w.subs[(id, k)]);
    }
  }

  lemma ClaimKeeps(w: World, id: Id, now: int)
    requires WorldOk(w) && id in w.ledger.deliveries
    requires w.ledger.deliveries[id].state == Prepared || w.ledger.deliveries[id].state == RetryWait
    ensures WorldOk(Claimed(w, id, now))
  {
    var w' := Claimed(w, id, now);
    ClaimOk(w.ledger, id, now);
    forall k | (id, k) in w'.subs ensures SubmitterOk(w', id, k, w'.subs[(id, k)]) {
      ClaimSubmitters(w, id, now, k);
    }
    LedgerStepOk(w, w', id);
  }

  /** The four things the first transaction can do to the world. */
  lemma DeliverEffect(w: World, id: Id, payload: Payload, allow: bool, ready: bool, now: int)
    ensures var w' := Do(w, DeliverCall(id, payload, allow, ready, now));
            var i := w.(ledger := Inserted(w.ledger, id, payload));
            var state := i.ledger.deliveries[id].state;
            || w' == w
            || w' == i
            || (!Terminal(state) && w' == i.(ledger := RecoverOne(i.ledger, id, state, now)))
            || (!Terminal(state) && state != Submitting && w' == Claimed(i, id, now))
  {
  }

  lemma DeliverKeeps(w: World, id: Id, payload: Payload, allow: bool, ready: bool, now: int)
    requires WorldOk(w)
    ensures WorldOk(Do(w, DeliverCall(id, payload, allow, ready, now)))
  {
    var w' := Do(w, DeliverCall(id, payload, allow, ready, now));
    var i := w.(ledger := Inserted(w.ledger, id, payload));
    DeliverEffect(w, id, payload, allow, ready, now);
    if w' != w {
      InsertKeeps(w, id, payload);
      var state := i.ledger.deliveries[id].state;
      if w' == i {
      } else if w' == i.(ledger := RecoverOne(i.ledger, id, state, now)) {
        RecoverOneKeeps(i, id, state, now);
      } else {
        ClaimKeeps(i, id, now);
      }
    }
  }

  lemma ProviderKeeps(w: World, id: Id, attempt: nat, outcome: Outcome, accepted: bool)
    requires WorldOk(w) && Enabled(w, ProviderCall(id, attempt, outcome, accepted))
    ensures WorldOk(Do(w, ProviderCall(id, attempt, outcome, accepted)))
  {
    var w' := Do(w, ProviderCall(id, attempt, outcome, accepted));
    assert SubmitterOk(w, id, attempt, w.subs[(id, attempt)]);
    SafeMeansNone(w.log, id);
    assert w'.log[|w.log|] == Send(id, attempt, outcome, accepted);
    forall other, k | (other, k) in w'.subs ensures SubmitterOk(w', other, k, w'.subs[(other, k)]) {
      assert SubmitterOk(w, other, k, w.subs[(other, k)]);
      if other != id && SomeAccepted(w.log, other) {
        SomeAcceptedStays(w.log, w'.log, other);
      }
    }
    forall other | other in w'.ledger.deliveries ensures StateTruthful(w', other) {
      assert StateTruthful(w, other);
      if other != id && SomeAccepted(w.log, other) {
        SomeAcceptedStays(w.log, w'.log, other);
      }
    }
  }

  lemma SomeAcceptedStays(log: seq<Send>, log': seq<Send>, id: Id)
    requires SomeAccepted(log, id) && |log| <= |log'| && log == log'[..|log|]
    ensures SomeAccepted(log', id)
  {
    var i :| 0 <= i < |log| && log[i].id == id && log[i].accepted;
    assert log'[i] == log[i];
  }

  lemma GiveUpKeeps(w: World, id: Id, attempt: nat, outcome: Outcome)
    requires WorldOk(w) && Enabled(w, GiveUp(id, attempt, outcome))
    ensures WorldOk(Do(w, GiveUp(id, attempt, outcome)))
  {
    var w' := Do(w, GiveUp(id, attempt, outcome));
    assert SubmitterOk(w, id, attempt, w.subs[(id, attempt)]);
    SafeMeansNone(w.log, id);
    forall other, k | (other, k) in w'.subs ensures SubmitterOk(w', other, k, w'.subs[(other, k)]) {
      assert SubmitterOk(w, other, k, w.subs[(other, k)]);
    }
    forall other | other in w'.ledger.deliveries ensures StateTruthful(w', other) {
      assert StateTruthful(w, other);
    }
  }

  lemma LateReportKeeps(w: World, id: Id, attempt: nat)
    requires WorldOk(w) && (id, attempt) in w.subs
    ensures WorldOk(w.(subs := w.subs[(id, attempt) := Reported]))
  {
    var w' := w.(subs := w.subs[(id, attempt) := Reported]);
    forall other, k | (other, k) in w'.subs ensures SubmitterOk(w', other, k, w'.subs[(other, k)]) {
      assert SubmitterOk(w, other, k, w.subs[(other, k)]);
    }
    forall other | other in w'.ledger.deliveries ensures StateTruthful(w', other) {
      assert StateTruthful(w, other);
    }
  }

  /** The recorded answer is true of what the submitter saw. */
  ghost predicate AnswerTruthful(out: Answer, log: seq<Send>, id: Id) {
    match out.state
    case RetryWait => SafeSoFar(log, id)
    case Accepted => SomeAccepted(log, id)
    case Failed => NoneAccepted(log, id)
    case Unknown => true
    case _ => false
  }

  lemma VerdictTruthful(w: World, id: Id, attempt: nat, now: int, jitter: nat)
    requires WorldOk(w) && Enabled(w, ReportCall(id, attempt, now, jitter))
    ensures AnswerTruthful(Verdict(w.subs[(id, attempt)], attempt, now, jitter), w.log, id)
  {
    assert SubmitterOk(w, id, attempt, w.subs[(id, attempt)]);
    if SafeSoFar(w.log, id) { SafeMeansNone(w.log, id); }
  }

  lemma FencedReportKeeps(w: World, id: Id, attempt: nat, out: Answer, now: int)
    requires WorldOk(w) && (id, attempt) in w.subs && out.attempt == attempt
    requires Fence(w.ledger, id, Submitting, attempt)
    requires LedgerOk(Report(w.ledger, id, out, now).0) && AnswerTruthful(out, w.log, id)
    ensures WorldOk(Reporting(w, id, attempt, out, now))
  {
    var w' := Reporting(w, id, attempt, out, now);
    assert OnlyTouches(w.ledger, w'.ledger, id);
    forall k | (id, k) in w'.subs ensures SubmitterOk(w', id, k, w'.subs[(id, k)]) {
      assert SubmitterOk(w, id, k, w.subs[(id, k)]);
    }
    LedgerStepOk(w, w', id);
  }

  lemma VerdictLedgerOk(w: World, id: Id, attempt: nat, now: int, jitter: nat)
    requires WorldOk(w) && Enabled(w, ReportCall(id, attempt, now, jitter))
    ensures LedgerOk(Report(w.ledger, id, Verdict(w.subs[(id, attempt)], attempt, now, jitter), now).0)
  {
    var sub := w.subs[(id, attempt)];
    assert SubmitterOk(w, id, attempt, sub);
    ReportOk(w.ledger, id, sub.outcome, attempt, now, jitter);
  }

  lemma ReportKeeps(w: World, id: Id, attempt: nat, now: int, jitter: nat)
    requires WorldOk(w) && Enabled(w, ReportCall(id, attempt, now, jitter))
    ensures WorldOk(Do(w, ReportCall(id, attempt, now, jitter)))
  {
    var out := Verdict(w.subs[(id, attempt)], attempt, now, jitter);
    if Fence(w.ledger, id, Submitting, attempt) {
      VerdictLedgerOk(w, id, attempt, now, jitter);
      VerdictTruthful(w, id, attempt, now, jitter);
      FencedReportKeeps(w, id, attempt, out, now);
    } else {
      LateReportKeeps(w, id, attempt);
    }
  }

  lemma CancelKeeps(w: World, id: Id)
    requires WorldOk(w)
    ensures WorldOk(Do(w, CancelCall(id)))
  {
    var w' := Do(w, CancelCall(id));
    CancelOk(w.ledger, id);
    if id in w.ledger.deliveries {
      assert StateTruthful(w, id);
      if SafeSoFar(w.log, id) { SafeMeansNone(w.log, id); }
    }
    forall k | (id, k) in w'.subs ensures SubmitterOk(w', id, k, w'.subs[(id, k)]) {
      assert SubmitterOk(w, id, k, w.subs[(id, k)]);
    }
    LedgerStepOk(w, w', id);
  }

  lemma {:induction false} RecoverKeeps(w: World, ids: seq<Id>, kind: State, now: int)
    requires WorldOk(w) && RecoverKind(kind) && Selection(w.ledger, ids, kind, now)
    ensures WorldOk(w.(ledger := Recover(w.ledger, ids, kind, now)))
    decreases |ids|
  {
    if ids == [] {
      assert w.(ledger := w.ledger) == w;
    } else {
      var init, last := ids[..|ids| - 1], ids[|ids| - 1];
      SelectionInit(w.ledger, ids, kind, now);
      RecoverKeeps(w, init, kind, now);
      RecoverEffect(w.ledger, init, kind, now, last);
      RecoverOneKeeps(w.(ledger := Recover(w.ledger, init, kind, now)), last, kind, now);
    }
  }

  lemma StepKeeps(w: World, step: Step)
    requires WorldOk(w) && Enabled(w, step)
    ensures WorldOk(Do(w, step))
  {
    match step
    case DeliverCall(id, payload, allow, ready, now) => DeliverKeeps(w, id, payload, allow, ready, now);
    case ProviderCall(id, attempt, outcome, accepted) => ProviderKeeps(w, id, attempt, outcome, accepted);
    case GiveUp(id, attempt, outcome) => GiveUpKeeps(w, id, attempt, outcome);
    case ReportCall(id, attempt, now, jitter) => ReportKeeps(w, id, attempt, now, jitter);
    case CancelCall(id) => CancelKeeps(w, id);
    case RecoverCall(ids, kind, now) => RecoverKeeps(w, ids, kind, now);
  }

  lemma {:induction false} RunKeeps(w: World, steps: seq<Step>)
    requires WorldOk(w) && Runs(w, steps)
    ensures WorldOk(After(w, steps))
    decreases |steps|
  {
    if steps == [] {
    } else {
      StepKeeps(w, steps[0]);
      RunKeeps(Do(w, steps[0]), steps[1..]);
    }
  }

  // ---------------------------------------------------------------------
  // What holds of every run
  // ---------------------------------------------------------------------

  /** At most one acceptance per delivery. */
  ghost predicate AcceptedOnce(log: seq<Send>) {
    forall i, j :: 0 <= i < j < |log| && log[i].id == log[j].id ==> !(log[i].accepted && log[j].accepted)
  }

  /** Over every interleaving a message is accepted at most once, a provider is
      called again only after proven non-acceptances, and a recorded accepted,
      failed, expired or cancelled delivery tells the truth. */
  lemma AtMostOnce(steps: seq<Step>)
    requires Runs(START, steps)
    ensures var w := After(START, steps);
            && AcceptedOnce(w.log)
            && OnlySafeRetried(w.log)
            && forall id :: id in w.ledger.deliveries ==> StateTruthful(w, id)
  {
    RunKeeps(START, steps);
  }

  /** The ledger invariant in every reachable state. */
  lemma LedgerInvariant(steps: seq<Step>)
    requires Runs(START, steps)
    ensures LedgerOk(After(START, steps).ledger)
  {
    RunKeeps(START, steps);
  }

  lemma RecoverKeepsTerminal(l: Ledger, ids: seq<Id>, kind: State, now: int)
    requires Selection(l, ids, kind, now) && RecoverKind(kind)
    ensures TerminalKept(l, Recover(l, ids, kind, now))
  {
    forall id | id in l.deliveries && Terminal(l.deliveries[id].state)
      ensures Recover(l, ids, kind, now).deliveries[id] == l.deliveries[id]
    {
      RecoverEffect(l, ids, kind, now, id);
    }
  }

  lemma StepKeepsTerminal(w: World, step: Step)
    requires WorldOk(w) && Enabled(w, step)
    ensures TerminalKept(w.ledger, Do(w, step).ledger)
  {
    match step
    case DeliverCall(id, payload, allow, ready, now) =>
      TerminalAbsorbing(w.ledger, id, payload, allow, ready, now, Answer(Prepared, 0, 0, 0, None));
    case ProviderCall(_, _, _, _) =>
    case GiveUp(_, _, _) =>
    case ReportCall(_, _, _, _) =>
    case CancelCall(_) =>
    case RecoverCall(ids, kind, now) => RecoverKeepsTerminal(w.ledger, ids, kind, now);
  }

  /** Once a delivery has ended, no later step of any actor changes its row. */
  lemma {:induction false} TerminalForever(w: World, steps: seq<Step>)
    requires WorldOk(w) && Runs(w, steps)
    ensures TerminalKept(w.ledger, After(w, steps).ledger)
    decreases |steps|
  {
    if steps == [] {
    } else {
      StepKeeps(w, steps[0]);
      StepKeepsTerminal(w, steps[0]);
      TerminalForever(Do(w, steps[0]), steps[1..]);
    }
  }

  // ---------------------------------------------------------------------
  // What is reported in time is recorded
  // ---------------------------------------------------------------------

  /** A submitter that reports while its submission is open has its outcome
      recorded, and one that ends the delivery stands for ever. */
  lemma ReportedIsRecorded(past: seq<Step>, id: Id, attempt: nat, now: int, jitter: nat, more: seq<Step>)
    requires Runs(START, past) && Enabled(After(START, past), ReportCall(id, attempt, now, jitter))
    requires id in After(START, past).ledger.deliveries
    requires After(START, past).ledger.deliveries[id].state == Submitting
    requires Runs(Do(After(START, past), ReportCall(id, attempt, now, jitter)), more)
    ensures var outcome := After(START, past).subs[(id, attempt)].outcome;
            var w := Do(After(START, past), ReportCall(id, attempt, now, jitter));
            && Recorded(w.ledger, id, attempt, outcome, now)
            && (!outcome.SafeRetry? ==> Recorded(After(w, more).ledger, id, attempt, outcome, now))
  {
    var w := After(START, past);
    RunKeeps(START, past);
    assert SubmitterOk(w, id, attempt, w.subs[(id, attempt)]);
    var sub := w.subs[(id, attempt)];
    ReportRecords(w.ledger, id, attempt, sub.revision, sub.outcome, now, jitter);
    StepKeeps(w, ReportCall(id, attempt, now, jitter));
    TerminalForever(Do(w, ReportCall(id, attempt, now, jitter)), more);
  }

  /** What a provider accepts at the first call is recorded as accepted. */
  lemma FreshIsAccepted(past: seq<Step>, id: Id, payload: Payload, now: int, receipt: string, later: int, jitter: nat)
    requires Runs(START, past) && id !in After(START, past).ledger.deliveries
    requires 0 <= now < payload.deadline && jitter < 16
    ensures var w0 := Do(After(START, past), DeliverCall(id, payload, true, true, now));
            && Enabled(w0, ProviderCall(id, 1, Delivered(receipt), true))
            && var w1 := Do(w0, ProviderCall(id, 1, Delivered(receipt), true));
            && Enabled(w1, ReportCall(id, 1, later, jitter))
            && Recorded(Do(w1, ReportCall(id, 1, later, jitter)).ledger, id, 1, Delivered(receipt), later)
  {
    var w := After(START, past);
    BeginClaims(w.ledger, id, payload, true, true, now);
    var w0 := Do(w, DeliverCall(id, payload, true, true, now));
    assert w0.subs[(id, 1)] == Sending(1);
    var w1 := Do(w0, ProviderCall(id, 1, Delivered(receipt), true));
    ReportRecords(w1.ledger, id, 1, 1, Delivered(receipt), later, jitter);
  }

  // ---------------------------------------------------------------------
  // What is cancelled or recovered
  // ---------------------------------------------------------------------

  /** A delivery that is cancelled while it waits stays cancelled, and no provider has
      accepted it or ever will. */
  lemma CancelledIsNeverAccepted(past: seq<Step>, id: Id, more: seq<Step>)
    requires Runs(START, past) && Runs(Do(After(START, past), CancelCall(id)), more)
    requires id in After(START, past).ledger.deliveries && Idle(After(START, past).ledger.deliveries[id])
    ensures var w := After(Do(After(START, past), CancelCall(id)), more);
            id in w.ledger.deliveries && w.ledger.deliveries[id].state == Cancelled && NoneAccepted(w.log, id)
  {
    var w := After(START, past);
    var w' := Do(w, CancelCall(id));
    RunKeeps(START, past);
    CancelDecides(w.ledger, id);
    StepKeeps(w, CancelCall(id));
    TerminalForever(w', more);
    RunKeeps(w', more);
    assert StateTruthful(After(w', more), id);
  }

  /** A submission is given up two minutes after its start and an idle delivery expires
      at its deadline, neither of them earlier. */
  ghost predicate Overdue(d: Delivery, now: int) {
    || (d.state == Submitting && d.startedEpoch + 120 <= now)
    || (Idle(d) && d.payload.deadline <= now)
  }

  /** A recovery step ends at most 32 deliveries, all of them overdue: submissions as
      unknown, the others as expired.  It leaves every other one alone. */
  lemma RecoveryEndsOverdue(w: World, ids: seq<Id>, kind: State, now: int, id: Id)
    requires Enabled(w, RecoverCall(ids, kind, now)) && id in w.ledger.deliveries
    ensures var d, r := w.ledger.deliveries[id], Do(w, RecoverCall(ids, kind, now)).ledger.deliveries;
            && |ids| <= 32 && id in r
            && (id !in ids ==> r[id] == d)
            && (id in ids ==> Overdue(d, now) && r[id].state == if d.state == Submitting then Unknown else Expired)
  {
    RecoverEffect(w.ledger, ids, kind, now, id);
  }

  /** Recovery may take any 32 deliveries of one state that are overdue, and no others. */
  lemma OverdueIsRecoverable(w: World, ids: seq<Id>, kind: State, now: int)
    ensures Enabled(w, RecoverCall(ids, kind, now)) <==>
              && kind in {Submitting, Prepared, RetryWait} && |ids| <= 32
              && (forall i, j :: 0 <= i < j < |ids| ==> ids[i] != ids[j])
              && forall i :: 0 <= i < |ids| ==>
                   ids[i] in w.ledger.deliveries && w.ledger.deliveries[ids[i]].state == kind
                   && Overdue(w.ledger.deliveries[ids[i]], now)
  {
  }
}
