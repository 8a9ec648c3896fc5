/** What the two queue backends share: requests, owners and constants. */
module QueueTypes {
  import opened Options

  /** `Worker` names are the lease owners callers send; `Yield` is the sentinel
      of a yielded task. */
  datatype Owner = Worker(name: string) | Yield

  datatype Result = Success | Failure | Cancelled

  datatype EnqueueRequest = EnqueueRequest(taskClass: string, data: string, priority: Option<int>,
                                           objectPHID: string, containerPHID: string, delayUntil: Option<int>)

  datatype EventId = EventId(name: string)

  const PRIORITY_DEFAULT := 2000
  const YIELD_MINIMUM := 5
  const AWAKEN_WINDOW := 3600

  function Delay(req: EnqueueRequest): (d: Option<int>) {
    if req.delayUntil.Some? && req.delayUntil.value > 0 then req.delayUntil else None
  }
}
