/** The durable mail ledger: one row per delivery, one row per submission attempt.

    Every SQL transaction of the delivery service is one function of the ledger;
    the class below performs it row by row and is proved to compute that
    function. */
module MailLedger {
  import opened Options

  datatype Id = Id(name: string)

  /** The immutable request; SHA-256 is taken to be injective, so the stored hash
      is the request itself. */
  datatype Payload = Payload(deadline: int, message: string)

  datatype State = Prepared | Submitting | RetryWait | Accepted | Failed | Unknown | Expired | Cancelled

  /** The JSON document stored in the row and returned to callers. */
  datatype Answer = Answer(state: State, revision: nat, attempt: nat, nextAttempt: int, receipt: Option<string>)

  datatype Delivery = Delivery(payload: Payload, state: State, revision: nat, attempt: nat,
                               nextAttempt: int, startedEpoch: int, result: Option<Answer>)

  /** An attempt row: `outcome` is `Submitting` while it is open. */
  datatype Attempt = Attempt(startedEpoch: int, outcome: State, finishedEpoch: Option<int>)

  datatype Ledger = Ledger(deliveries: map<Id, Delivery>, attempts: map<(Id, nat), Attempt>)

  /** What a dispatch reported about the message. */
  datatype Outcome = Delivered(receipt: string) | Permanent | SafeRetry | Ambiguous

  const STALE_SECONDS := 120
  const MAX_ATTEMPTS: nat := 12
  const RECOVER_BATCH: nat := 32

  predicate Terminal(state: State) {
    state.Accepted? || state.Failed? || state.Unknown? || state.Expired? || state.Cancelled?
  }

  const EMPTY := Ledger(map[], map[])

  // ---------------------------------------------------------------------
  // The transactions
  // ---------------------------------------------------------------------

  function Fresh(payload: Payload): (d: Delivery) {
    Delivery(payload, Prepared, 0, 0, 0, 0, None)
  }

  /** A known delivery is left as it is. */
  function Inserted(l: Ledger, id: Id, payload: Payload): (r: Ledger)
    ensures id in r.deliveries
  {
    if id in l.deliveries then l else l.(deliveries := l.deliveries[id := Fresh(payload)])
  }

  /** `saveDelivery` on a row whose fence holds. */
  function Saved(d: Delivery, out: Answer): (r: Delivery) {
    d.(state := out.state, revision := out.revision, nextAttempt := out.nextAttempt, result := Some(out))
  }

  predicate Fence(l: Ledger, id: Id, oldState: State, attempt: nat) {
    id in l.deliveries && l.deliveries[id].state == oldState && l.deliveries[id].attempt == attempt
  }

  function Save(l: Ledger, id: Id, out: Answer): (r: Ledger)
    requires id in l.deliveries
  {
    l.(deliveries := l.deliveries[id := Saved(l.deliveries[id], out)])
  }

  function CloseAttempt(l: Ledger, id: Id, attempt: nat, outcome: State, now: int): (r: Ledger) {
    if (id, attempt) in l.attempts then
      l.(attempts := l.attempts[(id, attempt) :=
           l.attempts[(id, attempt)].(outcome := outcome, finishedEpoch := Some(now))])
    else l
  }

  /** The answer that ends a delivery without a submission in flight. */
  function Closing(d: Delivery, state: State): (out: Answer) {
    Answer(state, d.revision + 1, d.attempt, 0, None)
  }

  /** Nobody can tell what an abandoned submission came to: the row becomes unknown. */
  function Settle(l: Ledger, id: Id, now: int): (r: Ledger)
    requires id in l.deliveries
  {
    var d := l.deliveries[id];
    var saved := Save(l, id, Closing(d, Unknown));
    if (id, d.attempt) in l.attempts && l.attempts[(id, d.attempt)].outcome == Submitting then
      CloseAttempt(saved, id, d.attempt, Unknown, now)
    else saved
  }

  function Claim(l: Ledger, id: Id, now: int): (r: Ledger)
    requires id in l.deliveries
  {
    var d := l.deliveries[id];
    var out := Answer(Submitting, d.revision + 1, d.attempt + 1, now + 5, None);
    Ledger(l.deliveries[id := d.(state := Submitting, attempt := out.attempt, revision := out.revision,
                                 startedEpoch := now, result := Some(out))],
           l.attempts[(id, out.attempt) := Attempt(now, Submitting, None)])
  }

  /** What the first transaction of `Deliver` answers. */
  datatype Reply = Conflict | NotReady | Answered(out: Answer) | Submit(attempt: nat, revision: nat)

  /** The row as an answer. */
  function AsAnswer(d: Delivery): (out: Answer) {
    Answer(d.state, d.revision, d.attempt, d.nextAttempt, None)
  }

  function Stored(d: Delivery): (out: Answer) {
    if d.result.Some? then d.result.value else AsAnswer(d)
  }

  /** The first transaction of `Deliver`; a refusal rolls everything back. */
  function Begin(l: Ledger, id: Id, payload: Payload, allow: bool, ready: bool, now: int): (r: (Ledger, Reply)) {
    var i := Inserted(l, id, payload);
    var d := i.deliveries[id];
    if d.payload != payload then (l, Conflict)
    else if Terminal(d.state) then (i, Answered(Stored(d)))
    else if d.state == Submitting then
      if now - d.startedEpoch < STALE_SECONDS then (i, Answered(AsAnswer(d).(nextAttempt := now + 5)))
      else (Settle(i, id, now), Answered(Closing(d, Unknown)))
    else if payload.deadline <= now then (Save(i, id, Closing(d, Expired)), Answered(Closing(d, Expired)))
    else if d.nextAttempt > now then (i, Answered(AsAnswer(d)))
    else if !allow then (i, Answered(AsAnswer(d).(nextAttempt := now + 60)))
    else if !ready then (l, NotReady)
    else (Claim(i, id, now), Submit(d.attempt + 1, d.revision + 1))
  }

  function Doublings(n: nat): (p: nat) {
    if n == 0 then 1 else 2 * Doublings(n - 1)
  }

  function Backoff(attempt: nat, jitter: nat): (wait: nat)
    requires attempt >= 1
  {
    30 * Doublings(if attempt - 1 < 7 then attempt - 1 else 7) + jitter
  }

  /** What the submitter of `attempt` wants to record. */
  function Concluding(attempt: nat, revision: nat, outcome: Outcome, now: int, jitter: nat): (out: Answer)
    requires attempt >= 1
  {
    match outcome
    case Delivered(receipt) => Answer(Accepted, revision + 1, attempt, 0, Some(receipt))
    case Permanent => Answer(Failed, revision + 1, attempt, 0, None)
    case SafeRetry =>
      if attempt >= MAX_ATTEMPTS then Answer(Failed, revision + 1, attempt, 0, None)
      else Answer(RetryWait, revision + 1, attempt, now + Backoff(attempt, jitter), None)
    case Ambiguous => Answer(Unknown, revision + 1, attempt, 0, None)
  }

  /** The second transaction of `Deliver`: nothing changes once the fence is
      lost. */
  function Report(l: Ledger, id: Id, out: Answer, now: int): (r: (Ledger, bool)) {
    if Fence(l, id, Submitting, out.attempt) then
      (CloseAttempt(Save(l, id, out), id, out.attempt, out.state, now), true)
    else (l, false)
  }

  datatype CancelReply = Missing | TooLate | CancelledAs(out: Answer)

  function Cancel(l: Ledger, id: Id): (r: (Ledger, CancelReply)) {
    if id !in l.deliveries then (l, Missing)
    else
      var d := l.deliveries[id];
      if d.state == Cancelled then (l, CancelledAs(Stored(d)))
      else if d.state != Prepared && d.state != RetryWait then (l, TooLate)
      else (Save(l, id, Closing(d, Cancelled)), CancelledAs(Closing(d, Cancelled)))
  }

  /** The rows one query of `Recover` may select. */
  predicate Recoverable(d: Delivery, kind: State, now: int) {
    d.state == kind && (if kind == Submitting then d.startedEpoch <= now - STALE_SECONDS else d.payload.deadline <= now)
  }

  predicate RecoverKind(kind: State) {
    kind == Submitting || kind == Prepared || kind == RetryWait
  }

  function RecoverOne(l: Ledger, id: Id, kind: State, now: int): (r: Ledger)
    requires id in l.deliveries
  {
    if kind == Submitting then Settle(l, id, now) else Save(l, id, Closing(l.deliveries[id], Expired))
  }

  predicate Selection(l: Ledger, ids: seq<Id>, kind: State, now: int) {
    && |ids| <= RECOVER_BATCH
    && (forall i :: 0 <= i < |ids| ==> ids[i] in l.deliveries && Recoverable(l.deliveries[ids[i]], kind, now))
    && (forall i, j :: 0 <= i < j < |ids| ==> ids[i] != ids[j])
  }

  /** One transaction of `Recover` over the rows its query selected and locked. */
  function Recover(l: Ledger, ids: seq<Id>, kind: State, now: int): (r: Ledger)
    requires forall i :: 0 <= i < |ids| ==> ids[i] in l.deliveries
    ensures r.deliveries.Keys == l.deliveries.Keys
    decreases |ids|
  {
    if ids == [] then l
    else
      var before := Recover(l, ids[..|ids| - 1], kind, now);
      RecoverOne(before, ids[|ids| - 1], kind, now)
  }

  // ---------------------------------------------------------------------
  // The ledger invariant
  // ---------------------------------------------------------------------

  /** The revision counts two transitions per attempt, plus the one that ended
      the delivery without an attempt. */
  ghost predicate RevisionMatches(d: Delivery) {
    match d.state
    case Submitting => d.revision == 2 * d.attempt - 1
    case Prepared => d.revision == 2 * d.attempt
    case RetryWait => d.revision == 2 * d.attempt
    case Accepted => d.revision == 2 * d.attempt
    case Failed => d.revision == 2 * d.attempt
    case Unknown => d.revision == 2 * d.attempt
    case Expired => d.revision == 2 * d.attempt + 1
    case Cancelled => d.revision == 2 * d.attempt + 1
  }

  ghost predicate DeliveryOk(d: Delivery) {
    && RevisionMatches(d)
    && d.attempt <= MAX_ATTEMPTS
    && (d.state == Prepared ==> d.attempt == 0)
    && (d.state in {Submitting, RetryWait, Accepted, Failed, Unknown} ==> d.attempt >= 1)
    && (d.state == RetryWait ==> d.attempt < MAX_ATTEMPTS)
    && (d.attempt == MAX_ATTEMPTS ==> d.state != Expired && d.state != Cancelled)
    && (Terminal(d.state) ==> d.result.Some? && d.result.value.(receipt := None) == AsAnswer(d))
  }

  /** The recorded outcome of attempt `k` of a delivery. */
  ghost function ExpectedOutcome(d: Delivery, k: nat): (s: State) {
    if k < d.attempt || d.state == Expired || d.state == Cancelled then RetryWait else d.state
  }

  ghost predicate AttemptsOk(l: Ledger, id: Id)
    requires id in l.deliveries
  {
    var d := l.deliveries[id];
    && (forall k: nat :: (id, k) in l.attempts <==> 1 <= k <= d.attempt)
    && (forall k: nat :: 1 <= k <= d.attempt ==>
          l.attempts[(id, k)].outcome == ExpectedOutcome(d, k) &&
          (l.attempts[(id, k)].finishedEpoch.None? <==> l.attempts[(id, k)].outcome == Submitting))
  }

  ghost predicate LedgerOk(l: Ledger) {
    && (forall id :: id in l.deliveries ==> DeliveryOk(l.deliveries[id]) && AttemptsOk(l, id))
    && (forall id: Id, k: nat :: (id, k) in l.attempts ==> id in l.deliveries)
  }

  /** One delivery changed, together with at most its own attempt rows. */
  ghost predicate OnlyTouches(l: Ledger, r: Ledger, id: Id) {
    && (forall other :: other != id ==>
          (other in r.deliveries <==> other in l.deliveries) &&
          (other in l.deliveries ==> r.deliveries[other] == l.deliveries[other]))
    && (forall other: Id, k: nat :: other != id ==>
          ((other, k) in r.attempts <==> (other, k) in l.attempts) &&
          ((other, k) in l.attempts ==> r.attempts[(other, k)] == l.attempts[(other, k)]))
  }

  lemma LedgerOkLocal(l: Ledger, r: Ledger, id: Id)
    requires LedgerOk(l) && OnlyTouches(l, r, id)
    requires id in r.deliveries && DeliveryOk(r.deliveries[id]) && AttemptsOk(r, id)
    ensures LedgerOk(r)
  {
    forall other | other in r.deliveries ensures DeliveryOk(r.deliveries[other]) && AttemptsOk(r, other) {
      if other != id {
        assert AttemptsOk(l, other);
      }
    }
  }

  lemma InsertedOk(l: Ledger, id: Id, payload: Payload)
    requires LedgerOk(l)
    ensures LedgerOk(Inserted(l, id, payload)) && OnlyTouches(l, Inserted(l, id, payload), id)
  {
    var r := Inserted(l, id, payload);
    if id !in l.deliveries {
      assert forall k: nat :: (id, k) !in l.attempts;
      LedgerOkLocal(l, r, id);
    }
  }

  /** Expiring or cancelling a waiting delivery. */
  lemma CloseWaitingOk(l: Ledger, id: Id, state: State)
    requires LedgerOk(l) && id in l.deliveries
    requires l.deliveries[id].state == Prepared || l.deliveries[id].state == RetryWait
    requires state == Expired || state == Cancelled
    ensures LedgerOk(Save(l, id, Closing(l.deliveries[id], state)))
  {
    var r := Save(l, id, Closing(l.deliveries[id], state));
    assert AttemptsOk(l, id);
    assert AttemptsOk(r, id);
    LedgerOkLocal(l, r, id);
  }

  lemma SettleOk(l: Ledger, id: Id, now: int)
    requires LedgerOk(l) && id in l.deliveries && l.deliveries[id].state == Submitting
    ensures LedgerOk(Settle(l, id, now)) && OnlyTouches(l, Settle(l, id, now), id)
  {
    var r := Settle(l, id, now);
    assert AttemptsOk(l, id);
    assert AttemptsOk(r, id);
    LedgerOkLocal(l, r, id);
  }

  lemma ClaimOk(l: Ledger, id: Id, now: int)
    requires LedgerOk(l) && id in l.deliveries
    requires l.deliveries[id].state == Prepared || l.deliveries[id].state == RetryWait
    ensures LedgerOk(Claim(l, id, now)) && OnlyTouches(l, Claim(l, id, now), id)
  {
    var r := Claim(l, id, now);
    assert AttemptsOk(l, id);
    assert AttemptsOk(r, id);
    LedgerOkLocal(l, r, id);
  }

  lemma ReportOk(l: Ledger, id: Id, outcome: Outcome, attempt: nat, now: int, jitter: nat)
    requires LedgerOk(l) && attempt >= 1
    ensures LedgerOk(Report(l, id, Concluding(attempt, 2 * attempt - 1, outcome, now, jitter), now).0)
    ensures OnlyTouches(l, Report(l, id, Concluding(attempt, 2 * attempt - 1, outcome, now, jitter), now).0, id)
  {
    var out := Concluding(attempt, 2 * attempt - 1, outcome, now, jitter);
    if Fence(l, id, Submitting, attempt) {
      ReportAnswerOk(l, id, out, now);
    }
  }

  lemma ReportAnswerOk(l: Ledger, id: Id, out: Answer, now: int)
    requires LedgerOk(l) && Fence(l, id, Submitting, out.attempt)
    requires out.revision == 2 * out.attempt && out.state in {RetryWait, Accepted, Failed, Unknown}
    requires out.state == RetryWait ==> out.attempt < MAX_ATTEMPTS
    ensures LedgerOk(Report(l, id, out, now).0) && OnlyTouches(l, Report(l, id, out, now).0, id)
  {
    var r := Report(l, id, out, now).0;
    assert AttemptsOk(l, id);
    assert AttemptsOk(r, id);
    LedgerOkLocal(l, r, id);
  }

  /** The first transaction keeps the invariant, whatever it decides. */
  lemma BeginOk(l: Ledger, id: Id, payload: Payload, allow: bool, ready: bool, now: int)
    requires LedgerOk(l)
    ensures LedgerOk(Begin(l, id, payload, allow, ready, now).0)
    ensures OnlyTouches(l, Begin(l, id, payload, allow, ready, now).0, id)
  {
    InsertedOk(l, id, payload);
    var i, r := Inserted(l, id, payload), Begin(l, id, payload, allow, ready, now).0;
    var d := i.deliveries[id];
    if r == l || r == i {
    } else if d.state == Submitting {
      SettleOk(i, id, now);
      TouchesCompose(l, i, r, id);
    } else if payload.deadline <= now {
      CloseWaitingOk(i, id, Expired);
      TouchesCompose(l, i, r, id);
    } else {
      ClaimOk(i, id, now);
      TouchesCompose(l, i, r, id);
    }
  }

  lemma TouchesCompose(l: Ledger, i: Ledger, r: Ledger, id: Id)
    requires OnlyTouches(l, i, id) && OnlyTouches(i, r, id)
    ensures OnlyTouches(l, r, id)
  {
  }

  lemma CancelOk(l: Ledger, id: Id)
    requires LedgerOk(l)
    ensures LedgerOk(Cancel(l, id).0) && OnlyTouches(l, Cancel(l, id).0, id)
  {
    if id in l.deliveries && (l.deliveries[id].state == Prepared || l.deliveries[id].state == RetryWait) {
      CloseWaitingOk(l, id, Cancelled);
    }
  }

  lemma RecoverOneOk(l: Ledger, id: Id, kind: State, now: int)
    requires LedgerOk(l) && id in l.deliveries && l.deliveries[id].state == kind && RecoverKind(kind)
    ensures LedgerOk(RecoverOne(l, id, kind, now)) && OnlyTouches(l, RecoverOne(l, id, kind, now), id)
  {
    if kind == Submitting {
      SettleOk(l, id, now);
    } else {
      CloseWaitingOk(l, id, Expired);
    }
  }

  lemma SelectionInit(l: Ledger, ids: seq<Id>, kind: State, now: int)
    requires Selection(l, ids, kind, now) && ids != []
    ensures Selection(l, ids[..|ids| - 1], kind, now) && ids[|ids| - 1] !in ids[..|ids| - 1]
  {
  }

  /** A recovery batch ends every delivery it selected and leaves every other
      one as it was. */
  lemma {:induction false} RecoverEffect(l: Ledger, ids: seq<Id>, kind: State, now: int, probe: Id)
    requires Selection(l, ids, kind, now) && RecoverKind(kind) && probe in l.deliveries
    ensures var d := Recover(l, ids, kind, now).deliveries[probe];
            && (probe !in ids ==> d == l.deliveries[probe])
            && (probe in ids ==> d.state == if kind == Submitting then Unknown else Expired)
            && d.attempt == l.deliveries[probe].attempt
    decreases |ids|
  {
    if ids == [] {
    } else {
      SelectionInit(l, ids, kind, now);
      RecoverEffect(l, ids[..|ids| - 1], kind, now, probe);
    }
  }

  lemma {:induction false} RecoverOk(l: Ledger, ids: seq<Id>, kind: State, now: int)
    requires LedgerOk(l) && Selection(l, ids, kind, now) && RecoverKind(kind)
    ensures LedgerOk(Recover(l, ids, kind, now))
    decreases |ids|
  {
    if ids == [] {
    } else {
      var init, last := ids[..|ids| - 1], ids[|ids| - 1];
      SelectionInit(l, ids, kind, now);
      RecoverOk(l, init, kind, now);
      RecoverEffect(l, init, kind, now, last);
      RecoverOneOk(Recover(l, init, kind, now), last, kind, now);
    }
  }

  lemma RecoverNext(l: Ledger, ids: seq<Id>, kind: State, now: int, i: nat)
    requires Selection(l, ids, kind, now) && RecoverKind(kind) && i < |ids|
    ensures var before := Recover(l, ids[..i], kind, now);
            && ids[i] in before.deliveries && before.deliveries[ids[i]].state == kind
            && Recover(l, ids[..i + 1], kind, now) == RecoverOne(before, ids[i], kind, now)
  {
    assert ids[..i + 1][..i] == ids[..i];
    assert ids[i] !in ids[..i];
    RecoverEffect(l, ids[..i], kind, now, ids[i]);
  }

  // ---------------------------------------------------------------------
  // Terminal states
  // ---------------------------------------------------------------------

  /** Every terminal row of `l` is in `r` unchanged. */
  ghost predicate TerminalKept(l: Ledger, r: Ledger) {
    forall id :: id in l.deliveries && Terminal(l.deliveries[id].state) ==>
      id in r.deliveries && r.deliveries[id] == l.deliveries[id]
  }

  /** Terminal states absorb every transaction, late reports included, and a
      replay is answered with the document recorded when the delivery ended. */
  lemma TerminalAbsorbing(l: Ledger, id: Id, payload: Payload, allow: bool, ready: bool, now: int, late: Answer)
    requires LedgerOk(l)
    ensures TerminalKept(l, Begin(l, id, payload, allow, ready, now).0)
    ensures TerminalKept(l, Cancel(l, id).0)
    ensures TerminalKept(l, Report(l, id, late, now).0)
    ensures id in l.deliveries && Terminal(l.deliveries[id].state) && l.deliveries[id].payload == payload ==>
              Begin(l, id, payload, allow, ready, now).1 == Answered(l.deliveries[id].result.value)
  {
    BeginOk(l, id, payload, allow, ready, now);
    CancelOk(l, id);
    assert OnlyTouches(l, Report(l, id, late, now).0, id);
  }

  // ---------------------------------------------------------------------
  // What the transactions decide, row by row
  // ---------------------------------------------------------------------

  /** Seconds before the next attempt, by how many were made; the last entry
      stands for all later ones. */
  const WAITS := [30, 60, 120, 240, 480, 960, 1920, 3840]

  /** The row tells how the submission ended: accepted with its receipt, failed for
      good, to be tried again, or unknown. */
  ghost predicate Recorded(l: Ledger, id: Id, attempt: nat, outcome: Outcome, now: int) {
    && attempt >= 1 && id in l.deliveries && l.deliveries[id].result.Some?
    && var d := l.deliveries[id];
    && (d.state == Accepted <==> outcome.Delivered?)
    && (outcome.Delivered? ==> d.result.value.receipt == Some(outcome.receipt))
    && (d.state == Failed <==> outcome.Permanent? || (outcome.SafeRetry? && attempt >= 12))
    && (d.state == RetryWait <==> outcome.SafeRetry? && attempt < 12)
    && (d.state == RetryWait ==>
          0 <= d.nextAttempt - now - WAITS[if attempt <= 8 then attempt - 1 else 7] <= 15)
    && (d.state == Unknown <==> outcome.Ambiguous?)
    && d.attempt == attempt && d.result.value.(receipt := None) == AsAnswer(d)
  }

  lemma BackoffIsWait(attempt: nat, jitter: nat)
    requires attempt >= 1
    ensures Backoff(attempt, jitter) == WAITS[if attempt <= 8 then attempt - 1 else 7] + jitter
  {
    assert Doublings(2) == 4 && Doublings(4) == 16 && Doublings(6) == 64;
  }

  /** A report that still finds its submission open records how it ended, in the
      delivery and in its attempt; any other changes nothing. */
  lemma ReportRecords(l: Ledger, id: Id, attempt: nat, revision: nat, outcome: Outcome, now: int, jitter: nat)
    requires attempt >= 1 && jitter < 16
    ensures var open := id in l.deliveries && l.deliveries[id].state == Submitting && l.deliveries[id].attempt == attempt;
            var (r, ok) := Report(l, id, Concluding(attempt, revision, outcome, now, jitter), now);
            && (ok <==> open)
            && (!ok ==> r == l)
            && (ok ==> Recorded(r, id, attempt, outcome, now)
                       && r.deliveries[id].payload == l.deliveries[id].payload
                       && r.deliveries[id].revision == revision + 1)
            && (ok && (id, attempt) in l.attempts ==>
                  (id, attempt) in r.attempts && r.attempts[(id, attempt)].outcome == r.deliveries[id].state
                  && r.attempts[(id, attempt)].finishedEpoch == Some(now))
  {
    BackoffIsWait(attempt, jitter);
  }

  /** The row that `Deliver` finds, or has just inserted. */
  function Found(l: Ledger, id: Id, payload: Payload): (d: Delivery) {
    if id in l.deliveries then l.deliveries[id] else Delivery(payload, Prepared, 0, 0, 0, 0, None)
  }

  /** Prepared, or waiting for its next attempt. */
  predicate Idle(d: Delivery) {
    d.state == Prepared || d.state == RetryWait
  }

  /** A delivery is claimed exactly when it is idle, its deadline is ahead, its next
      attempt is due, the caller may send and a mailer is ready. */
  lemma BeginClaims(l: Ledger, id: Id, payload: Payload, allow: bool, ready: bool, now: int)
    ensures var d := Found(l, id, payload);
            var (r, reply) := Begin(l, id, payload, allow, ready, now);
            var due := d.payload == payload && Idle(d) && now < payload.deadline && d.nextAttempt <= now && allow;
            && (reply.Conflict? <==> d.payload != payload)
            && (reply.Submit? <==> due && ready)
            && (reply.NotReady? <==> due && !ready)
            && (reply.Conflict? || reply.NotReady? ==> r == l)
            && (reply.Submit? ==>
                  && reply == Submit(d.attempt + 1, d.revision + 1)
                  && id in r.deliveries && (id, d.attempt + 1) in r.attempts
                  && r.deliveries[id].payload == payload && r.deliveries[id].state == Submitting
                  && r.deliveries[id].attempt == d.attempt + 1 && r.deliveries[id].revision == d.revision + 1
                  && r.deliveries[id].startedEpoch == now
                  && r.attempts[(id, d.attempt + 1)] == Attempt(now, Submitting, None))
  {
  }

  /** What a call that does not claim answers, and what becomes of the row. */
  lemma BeginAnswers(l: Ledger, id: Id, payload: Payload, allow: bool, ready: bool, now: int)
    requires Found(l, id, payload).payload == payload
    ensures var d := Found(l, id, payload);
            var (r, reply) := Begin(l, id, payload, allow, ready, now);
            && (reply.Answered? ==> id in r.deliveries)
            && (Terminal(d.state) && d.result.Some? ==> reply == Answered(d.result.value) && r == l)
            && (d.state == Submitting && now - d.startedEpoch < 120 ==>
                  r == l && reply.Answered? && reply.out.state == Submitting && reply.out.nextAttempt == now + 5)
            && (d.state == Submitting && now - d.startedEpoch >= 120 ==>
                  reply.Answered? && reply.out.state == r.deliveries[id].state == Unknown)
            && (Idle(d) && payload.deadline <= now ==>
                  reply.Answered? && reply.out.state == r.deliveries[id].state == Expired)
            && (Idle(d) && now < payload.deadline && now < d.nextAttempt ==>
                  reply.Answered? && reply.out.state == d.state && reply.out.nextAttempt == d.nextAttempt
                  && r.deliveries[id] == d)
            && (Idle(d) && now < payload.deadline && d.nextAttempt <= now && !allow ==>
                  reply.Answered? && reply.out.state == d.state && reply.out.nextAttempt == now + 60
                  && r.deliveries[id] == d)
  {
  }

  /** Only an idle delivery is cancelled; a cancelled one is answered as it is, and
      every other refusal changes nothing. */
  lemma CancelDecides(l: Ledger, id: Id)
    ensures var (r, reply) := Cancel(l, id);
            && (reply.Missing? <==> id !in l.deliveries)
            && (id in l.deliveries && Idle(l.deliveries[id]) ==>
                  reply.CancelledAs? && reply.out.state == Cancelled
                  && r.deliveries[id].state == Cancelled && r.deliveries[id].result == Some(reply.out))
            && (id in l.deliveries && !Idle(l.deliveries[id]) ==>
                  r == l && (reply.TooLate? <==> l.deliveries[id].state != Cancelled))
            && (reply.Missing? ==> r == l)
  {
  }

  // ---------------------------------------------------------------------
  // The implementation
  // ---------------------------------------------------------------------

  class Service {
    var deliveries: map<Id, Delivery>
    var attempts: map<(Id, nat), Attempt>

    ghost function View(): (l: Ledger)
      reads this
    {
      Ledger(deliveries, attempts)
    }

    constructor ()
      ensures View() == EMPTY
    {
      deliveries, attempts := map[], map[];
    }

    /** The fenced update; false when no row matched. */
    method SaveDelivery(id: Id, out: Answer, oldState: State) returns (ok: bool)
      modifies this
      ensures ok == Fence(old(View()), id, oldState, out.attempt)
      ensures View() == if ok then Save(old(View()), id, out) else old(View())
    {
      if id in deliveries && deliveries[id].state == oldState && deliveries[id].attempt == out.attempt {
        deliveries := deliveries[id := Saved(deliveries[id], out)];
        return true;
      }
      return false;
    }

    method FinishAttempt(id: Id, attempt: nat, outcome: State, now: int)
      modifies this
      ensures View() == CloseAttempt(old(View()), id, attempt, outcome, now)
    {
      if (id, attempt) in attempts {
        var row := attempts[(id, attempt)];
        attempts := attempts[(id, attempt) := row.(outcome := outcome, finishedEpoch := Some(now))];
      }
    }

    method SettleStale(id: Id, now: int)
      requires id in deliveries && deliveries[id].state == Submitting
      modifies this
      ensures View() == Settle(old(View()), id, now)
    {
      var d := deliveries[id];
      var out := Answer(Unknown, d.revision + 1, d.attempt, 0, None);
      var ok := SaveDelivery(id, out, Submitting);
      if (id, d.attempt) in attempts && attempts[(id, d.attempt)].outcome == Submitting {
        FinishAttempt(id, d.attempt, Unknown, now);
      }
    }

    /** The first transaction of `Deliver`. */
    method DeliverBegin(id: Id, payload: Payload, allow: bool, ready: bool, now: int) returns (reply: Reply)
      modifies this
      ensures (View(), reply) == Begin(old(View()), id, payload, allow, ready, now)
    {
      var undo := deliveries;
      if id !in deliveries {
        deliveries := deliveries[id := Fresh(payload)];
      }
      var d := deliveries[id];
      if d.payload != payload {
        deliveries := undo;
        return Conflict;
      }
      if Terminal(d.state) {
        return Answered(Stored(d));
      }
      if d.state == Submitting {
        if now - d.startedEpoch < STALE_SECONDS {
          return Answered(Answer(d.state, d.revision, d.attempt, now + 5, None));
        }
        SettleStale(id, now);
        return Answered(Answer(Unknown, d.revision + 1, d.attempt, 0, None));
      }
      if payload.deadline <= now {
        var out := Answer(Expired, d.revision + 1, d.attempt, 0, None);
        var ok := SaveDelivery(id, out, d.state);
        return Answered(out);
      }
      if d.nextAttempt > now {
        return Answered(AsAnswer(d));
      }
      if !allow {
        return Answered(Answer(d.state, d.revision, d.attempt, now + 60, None));
      }
      if !ready {
        deliveries := undo;
        return NotReady;
      }
      var out := Answer(Submitting, d.revision + 1, d.attempt + 1, now + 5, None);
      deliveries := deliveries[id := d.(state := Submitting, attempt := out.attempt, revision := out.revision,
                                        startedEpoch := now, result := Some(out))];
      attempts := attempts[(id, out.attempt) := Attempt(now, Submitting, None)];
      return Submit(out.attempt, out.revision);
    }

    /** The second transaction of `Deliver`; an error leaves the ledger alone. */
    method DeliverReport(id: Id, attempt: nat, revision: nat, outcome: Outcome, now: int, jitter: nat)
      returns (ok: bool)
      requires attempt >= 1 && jitter < 16
      modifies this
      ensures (View(), ok) == Report(old(View()), id, Concluding(attempt, revision, outcome, now, jitter), now)
      ensures ok <==> id in old(deliveries) && old(deliveries[id].state) == Submitting
                      && old(deliveries[id].attempt) == attempt
      ensures ok ==> Recorded(View(), id, attempt, outcome, now)
      ensures !ok ==> View() == old(View())
    {
      ReportRecords(View(), id, attempt, revision, outcome, now, jitter);
      var out := Concluding(attempt, revision, outcome, now, jitter);
      ok := SaveDelivery(id, out, Submitting);
      if ok {
        FinishAttempt(id, attempt, out.state, now);
      }
    }

    method CancelDelivery(id: Id) returns (reply: CancelReply)
      modifies this
      ensures (View(), reply) == Cancel(old(View()), id)
    {
      if id !in deliveries {
        return Missing;
      }
      var d := deliveries[id];
      if d.state == Cancelled {
        return CancelledAs(Stored(d));
      }
      if d.state != Prepared && d.state != RetryWait {
        return TooLate;
      }
      var out := Answer(Cancelled, d.revision + 1, d.attempt, 0, None);
      var ok := SaveDelivery(id, out, d.state);
      return CancelledAs(out);
    }

    method RecoverRow(id: Id, kind: State, now: int)
      requires id in deliveries && deliveries[id].state == kind
      modifies this
      ensures View() == RecoverOne(old(View()), id, kind, now)
    {
      if kind == Submitting {
        SettleStale(id, now);
      } else {
        var d := deliveries[id];
        var ok := SaveDelivery(id, Answer(Expired, d.revision + 1, d.attempt, 0, None), kind);
      }
    }

    /** One transaction of `Recover` over the rows its query returned. */
    method RecoverBatch(ids: seq<Id>, kind: State, now: int)
      requires Selection(View(), ids, kind, now) && RecoverKind(kind)
      modifies this
      ensures View() == Recover(old(View()), ids, kind, now)
    {
      ghost var was := View();
      for i := 0 to |ids|
        invariant View() == Recover(was, ids[..i], kind, now)
      {
        RecoverNext(was, ids, kind, now, i);
        RecoverRow(ids[i], kind, now);
      }
      assert ids[..|ids|] == ids;
    }
  }
}
