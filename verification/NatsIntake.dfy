/** What the durable queue is told about a request message (`src/nats_submit.rs`, `src/events.rs`). */
module NatsIntake {
  import opened Wrappers
  import opened Types
  import opened JobTable
  import opened Engine
  import opened EngineSafety
  import opened RequestMap

  const BAD_REQUEST := 400
  const CONFLICT := 409
  const SERVICE_UNAVAILABLE := 503

  type EnqueueResult = Result<JobRecord, nat>

  datatype SubmitError = InvalidPayload | Transient

  datatype Disposition = Ack | Term | Nak

  /** The result `enqueue_build` returns; error texts are left out. */
  function EnqueueResultOf(answer: Answer): EnqueueResult {
    match answer
    case Accepted(rec) => Success(rec)
    case Reattached(rec) => Success(rec)
    case Conflict => Failure(CONFLICT)
    case QueueFull => Failure(SERVICE_UNAVAILABLE)
    case Invalid => Failure(BAD_REQUEST)
  }

  function MapEnqueueResult(result: EnqueueResult): Result<Unit, SubmitError> {
    match result
    case Success(_) => Success(Unit.Unit)
    case Failure(status) => Failure(if status == SERVICE_UNAVAILABLE then Transient else InvalidPayload)
  }

  /** The choice made by the intake loop for one message. */
  function DispositionOf(result: Result<Unit, SubmitError>): Disposition {
    match result
    case Success(_) => Ack
    case Failure(InvalidPayload) => Term
    case Failure(Transient) => Nak
  }

  function Settle(answer: Answer): Disposition {
    DispositionOf(MapEnqueueResult(EnqueueResultOf(answer)))
  }

  /**
   * When a request with an id is settled, acknowledgement means that the id is bound to exactly this
   * content, termination that the request is inadmissible or its id is bound to other content, and
   * a redelivery is asked for only while the id is unbound and the queue was full.
   */
  lemma SettlementMatchesMap(c: EngineConfig, s: State, t: nat, e: Choice, rid: string)
    requires Reachable(c, s) && CanStep(c, s, t, e)
    requires NextMove(c, s, s.tasks[t], e).next.Answered?
    requires RequestId(NextMove(c, s, s.tasks[t], e).next.request) == Some(rid)
    ensures var done := NextMove(c, s, s.tasks[t], e).next;
      var m := Bindings(s.jobs);
      match Settle(done.answer)
      case Ack => exists id :: Binding(rid, id, done.request) in m
      case Term => !c.admits(done.request) || exists b :: b in m && b.requestId == rid && b.request != done.request
      case Nak => !IsBound(m, rid) && |QueuedIds(s.jobs)| >= c.maxQueued
  {
    var done := NextMove(c, s, s.tasks[t], e).next;
    AnsweringMoves(c, s, s.tasks[t], e);
    StepRefinesMap(c, s, t, e);
    if Settle(done.answer).Ack? {
      assert Binding(rid, done.answer.rec.id, done.request) in Bindings(s.jobs);
    }
  }

  lemma AnsweringMoves(c: EngineConfig, s: State, k: Task, e: Choice)
    requires !IsDone(k) && NextMove(c, s, k, e).next.Answered?
    ensures var m := NextMove(c, s, k, e);
      && !m.change.Store? && !m.change.Retain?
      && (m.next.answer.Invalid? ==> !c.admits(m.next.request))
      && (m.next.answer.QueueFull? ==> |QueuedIds(s.jobs)| >= c.maxQueued)
  {
  }

  /** However often a request id is delivered, at most one retained job carries it at any time. */
  lemma RedeliveriesRetainOneJob(c: EngineConfig, s: State, rid: string)
    requires Reachable(c, s)
    ensures forall a, b :: Claims(s.jobs, a, rid) && Claims(s.jobs, b, rid) ==> a == b
  {
    RequestIdsMatchRetainedJobs(c, s);
  }
}
