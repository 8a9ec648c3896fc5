/** Writing a stream to the first storage engine that takes it, with a bounded
    memory of what a failed engine has already consumed. */
module StorageRouter {
  import opened Numbers
  import opened Options
  import opened Sequences

  datatype Engine = Engine(identifier: string, canWrite: bool, limit: Option<int>)

  datatype Fault = EndOfFile | Broken

  /** One read of an engine: its buffer length, and what the source hands out, and
      with which error, if it is asked. */
  datatype Request = Request(room: nat, supply: nat, fault: Option<Fault>)

  /** What an engine does with the stream; it may stop early or fail at any time. */
  datatype Plan = Plan(requests: seq<Request>, ok: bool)

  // ---------------------------------------------------------------------
  // The rewinding reader
  // ---------------------------------------------------------------------

  class RewindReader<T> {
    const data: seq<T>
    const budget: int
    var taken: nat
    var buf: seq<T>
    var off: nat
    var spent: bool

    /** `taken` bytes have left the source; they are all buffered, or there were
        more than the budget allows and the recording is gone. */
    ghost predicate Valid()
      reads this
    {
      && taken <= |data|
      && (if spent then buf == [] && off == 0 && taken > budget
          else buf == data[..taken] && off <= taken && taken <= budget)
    }

    /** The bytes handed out since the last rewind. */
    ghost function Delivered(): (bytes: seq<T>)
      requires Valid()
      reads this
    {
      data[..if spent then taken else off]
    }

    constructor (data: seq<T>, budget: int)
      requires budget >= 0
      ensures Valid() && this.data == data && this.budget == budget && taken == 0 && Delivered() == []
    {
      this.data, this.budget := data, budget;
      taken, buf, off, spent := 0, [], 0, false;
    }

    /** Replays what is buffered, then goes on with the source. */
    method Read(r: Request) returns (chunk: seq<T>, fault: Option<Fault>)
      requires Valid()
      modifies this
      ensures Valid() && Delivered() == old(Delivered()) + chunk
      ensures |chunk| == if old(off) < |old(buf)| then Min(r.room, |old(buf)| - old(off))
                         else Min(Min(r.room, r.supply), |data| - old(taken))
      ensures fault == if old(off) < |old(buf)| then None else r.fault
      ensures old(taken) <= taken
      ensures taken == (if |old(Delivered()) + chunk| > old(taken) then |old(Delivered()) + chunk| else old(taken))
    {
      if off < |buf| {
        var n := Min(r.room, |buf| - off);
        chunk := buf[off..off + n];
        off := off + n;
        return chunk, None;
      }
      fault := r.fault;
      var n := Min(Min(r.room, r.supply), |data| - taken);
      chunk := data[taken..taken + n];
      taken := taken + n;
      if n > 0 {
        if spent || |buf| + n > budget {
          spent, buf, off := true, [], 0;
        } else {
          buf := buf + chunk;
          off := |buf|;
        }
      }
    }

    /** Possible exactly while everything consumed fits the budget. */
    method Rewind() returns (ok: bool)
      requires Valid()
      modifies this
      ensures Valid() && taken == old(taken)
      ensures ok <==> taken <= budget
      ensures ok ==> Delivered() == []
      ensures !ok ==> Delivered() == old(Delivered())
    {
      if spent {
        return false;
      }
      off := 0;
      ok := true;
    }
  }

  /** An engine that asks often enough, of a source that always has something. */
  ghost predicate Eager(plan: Plan, size: nat) {
    |plan.requests| >= size && forall i :: 0 <= i < |plan.requests| ==> plan.requests[i].room > 0 && plan.requests[i].supply > 0
  }

  /** An engine reads as its plan says; an eager one gets the whole source. */
  method WriteFile<T>(reader: RewindReader<T>, plan: Plan) returns (handed: seq<T>)
    requires reader.Valid() && reader.Delivered() == []
    modifies reader
    ensures reader.Valid() && handed == reader.Delivered() && handed <= reader.data
    ensures reader.taken == (if |handed| > old(reader.taken) then |handed| else old(reader.taken))
    ensures Eager(plan, |reader.data|) ==> handed == reader.data
  {
    handed := [];
    for i := 0 to |plan.requests|
      invariant reader.Valid() && handed == reader.Delivered()
      invariant Eager(plan, |reader.data|) ==> |handed| >= Min(i, |reader.data|)
      invariant reader.taken == if |handed| > old(reader.taken) then |handed| else old(reader.taken)
    {
      var chunk, _ := reader.Read(plan.requests[i]);
      handed := handed + chunk;
    }
  }

  /** Every attempt but the first starts with a rewind. */
  method Attempt<T>(reader: RewindReader<T>, plan: Plan, first: bool) returns (ran: bool, handed: seq<T>)
    requires reader.Valid() && (first ==> reader.taken == 0 <= reader.budget)
    modifies reader
    ensures reader.Valid() && (ran <==> old(reader.taken) <= reader.budget)
    ensures ran ==> handed <= reader.data && (Eager(plan, |reader.data|) ==> handed == reader.data)
    ensures ran ==> reader.taken == if |handed| > old(reader.taken) then |handed| else old(reader.taken)
  {
    if !first {
      ran := reader.Rewind();
      if !ran {
        return false, [];
      }
    }
    ran := true;
    handed := WriteFile(reader, plan);
  }

  // ---------------------------------------------------------------------
  // The router
  // ---------------------------------------------------------------------

  predicate Accepts(e: Engine, size: int) {
    e.canWrite && (e.limit.Some? ==> size <= e.limit.value)
  }

  /** The accepting engines, in their order. */
  function Candidates(engines: seq<Engine>, size: int): (r: seq<Engine>) {
    Filter(engines, e => Accepts(e, size))
  }

  method FindCandidates(engines: seq<Engine>, size: int) returns (r: seq<Engine>)
    ensures r == Candidates(engines, size)
  {
    r := [];
    for i := 0 to |engines|
      invariant r == Candidates(engines[..i], size)
    {
      TakeInit(engines, i + 1);
      if engines[i].canWrite && (engines[i].limit.None? || size <= engines[i].limit.value) {
        r := r + [engines[i]];
      }
    }
    assert engines[..|engines|] == engines;
  }

  /** The largest size limit, or zero. */
  ghost predicate IsBudget(engines: seq<Engine>, budget: int) {
    && budget >= 0
    && (forall e :: e in engines && e.limit.Some? ==> e.limit.value <= budget)
    && (budget == 0 || exists e :: e in engines && e.limit == Some(budget))
  }

  method RewindBudget(engines: seq<Engine>) returns (budget: int)
    ensures IsBudget(engines, budget)
  {
    budget := 0;
    for i := 0 to |engines|
      invariant budget >= 0
      invariant forall k :: 0 <= k < i && engines[k].limit.Some? ==> engines[k].limit.value <= budget
      invariant budget == 0 || exists e :: e in engines && e.limit == Some(budget)
    {
      if engines[i].limit.Some? && engines[i].limit.value > budget {
        budget := engines[i].limit.value;
        assert engines[i] in engines && engines[i].limit == Some(budget);
      }
    }
  }

  datatype Outcome = NoEngine | Stored(engine: Engine) | AllFailed

  /** The first `n` attempts all failed within the budget. */
  ghost predicate Retryable<T>(plans: seq<Plan>, trace: seq<seq<T>>, budget: int, n: nat)
    requires n <= |trace| <= |plans|
  {
    forall i :: 0 <= i < n ==> !plans[i].ok && |trace[i]| <= budget
  }

  /** Every attempt was handed the source from its first byte, to an eager engine all
      of it. */
  ghost predicate Handed<T>(plans: seq<Plan>, trace: seq<seq<T>>, data: seq<T>) {
    && |trace| <= |plans|
    && forall i :: 0 <= i < |trace| ==> trace[i] <= data && (Eager(plans[i], |data|) ==> trace[i] == data)
  }

  /** `trace` is what each attempt was handed.  Every attempt reads the source from
      its first byte; there is a next attempt exactly while all so far failed and
      none consumed more than the budget. */
  method Write<T>(engines: seq<Engine>, data: seq<T>, size: int, plans: seq<Plan>)
    returns (outcome: Outcome, trace: seq<seq<T>>, budget: int)
    requires |plans| == |Candidates(engines, size)|
    ensures Handed(plans, trace, data)
    ensures |trace| <= |plans| && (trace == [] <==> plans == []) && (outcome == NoEngine <==> plans == [])
    ensures trace != [] ==> Retryable(plans, trace, budget, |trace| - 1)
    ensures outcome.Stored? <==> trace != [] && plans[|trace| - 1].ok
    ensures outcome.Stored? ==> outcome.engine == Candidates(engines, size)[|trace| - 1]
    ensures outcome == AllFailed && |trace| < |plans| ==> |trace[|trace| - 1]| > budget
    ensures IsBudget(engines, budget)
  {
    trace := [];
    var candidates := FindCandidates(engines, size);
    budget := RewindBudget(engines);
    if candidates == [] {
      return NoEngine, trace, budget;
    }
    var reader := new RewindReader(data, budget);
    for i := 0 to |candidates|
      invariant reader.Valid() && fresh(reader) && reader.data == data && reader.budget == budget
      invariant |trace| == i && Handed(plans, trace, data)
      invariant Retryable(plans, trace, budget, if i == 0 then 0 else i - 1)
      invariant i > 0 ==> !plans[i - 1].ok && (reader.taken <= budget <==> |trace[i - 1]| <= budget)
      invariant i == 0 ==> reader.taken == 0
    {
      var ran, handed := Attempt(reader, plans[i], i == 0);
      if !ran {
        return AllFailed, trace, budget;
      }
      trace := trace + [handed];
      if plans[i].ok {
        return Stored(candidates[i]), trace, budget;
      }
    }
    outcome := AllFailed;
  }

  /** Fallbacks in order: an engine the file fits, that may write, is passed over
      only by engines before it. */
  lemma {:induction false} CandidatesAreAccepting(engines: seq<Engine>, size: int, e: Engine)
    ensures e in Candidates(engines, size) <==> e in engines && Accepts(e, size)
    decreases |engines|
  {
    if engines == [] {
    } else {
      CandidatesAreAccepting(Init(engines), size, e);
      assert e in engines <==> e in Init(engines) || e == Last(engines);
    }
  }
}
