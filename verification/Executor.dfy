/** Executing one delivered message, and the consumer's acknowledgement of it. */
module Executor {
  import opened Options
  import opened Status
  import opened JobModel
  import opened Writes
  import opened Protocol
  import opened Text
  import opened Collection
  import opened Service
  import opened Broker
  import opened Machine
  import opened Weaving
  import Acks

  /** Handlers by job name; a run ends in success or in an error, panics included. */
  class Registry {
    const handlers: set<string>
    const monitor: Monitor

    constructor (handlers: set<string>, monitor: Monitor)
      ensures this.handlers == handlers && this.monitor == monitor
    {
      this.handlers, this.monitor := handlers, monitor;
    }

    predicate HasHandler(name: string) {
      name in handlers
    }

    method Run(name: string, jobId: string, ghost mid: MsgId) returns (ok: bool, error: string)
      requires HasHandler(name) && monitor.Keeps() && (jobId, RunHandler(mid)) in monitor.record.mine
      modifies monitor
      ensures monitor.Keeps()
      ensures Took(monitor.maxAttempts, old(monitor.record), monitor.record, jobId, RunHandler(mid),
                   HandlerReturned(ok, error))
      ensures monitor.record.docs == old(monitor.record).docs
      ensures Lawful(monitor.maxAttempts, monitor.record.log) <==> Lawful(monitor.maxAttempts, old(monitor.record).log)
    {
      ok, error := *, *;
      monitor.Take(jobId, RunHandler(mid), HandlerReturned(ok, error), Fine);
    }
  }

  /** The first objection to running a message at all. */
  function Objection(jobId: string, name: string, payload: Payload, handlers: set<string>): Option<string> {
    if IsBlank(jobId) then Some("jobID is required")
    else if IsBlank(name) then Some("job name is required")
    else if payload.NoBytes? then Some("payload is required")
    else if name !in handlers then Some("unknown job handler: " + name)
    else if payload.Undecodable? then Some("invalid JSON payload")
    else None
  }

  /** The message can be run. */
  predicate Runnable(jobId: string, name: string, payload: Payload, handlers: set<string>) {
    !OnlySpace(jobId) && !OnlySpace(name) && name in handlers && (payload.Object? || payload.Null?)
  }

  /** What is filed when it cannot. */
  function Defect(jobId: string, name: string, payload: Payload, handlers: set<string>): string {
    if OnlySpace(jobId) then "jobID is required"
    else if OnlySpace(name) then "job name is required"
    else if payload.NoBytes? then "payload is required"
    else if name !in handlers then "unknown job handler: " + name
    else "invalid JSON payload"
  }

  lemma ObjectionExactly(jobId: string, name: string, payload: Payload, handlers: set<string>)
    ensures Objection(jobId, name, payload, handlers)
            == if Runnable(jobId, name, payload, handlers) then None else Some(Defect(jobId, name, payload, handlers))
  {
    BlankIsOnlySpace(jobId);
    BlankIsOnlySpace(name);
  }

  /** Where the delivery of this message starts. */
  function Begins(mid: MsgId, objection: Option<string>): Pc {
    BeginDelivery(mid, objection.None?, objection.GetOr(""))
  }

  function DeliveryEnds(mid: MsgId, ok: bool): Pc {
    if ok then Acking(mid) else Nacking(mid)
  }

  /** What a handler returned. */
  datatype HandlerResult = HandlerResult(ok: bool, error: string)

  /** The job after one delivery with nobody else around: rejected, run, or left alone. */
  function LeftBy(j: Job, jobId: string, name: string, payload: Payload, handlers: set<string>,
                  run: Option<HandlerResult>, now: Time): Job {
    if Runnable(jobId, name, payload, handlers) then
      if run.None? then j
      else if run.value.ok then
        j.(executionStatus := ExecutionStatus.Completed, status := JobStatus.Completed,
           startedAt := Some(now), completedAt := Some(now))
      else
        j.(executionStatus := ExecutionStatus.Failed, status := JobStatus.Failed,
           startedAt := Some(now), completedAt := Some(now),
           errors := j.errors + [JobError(Execution, j.retryCount, run.value.error, now)])
    else if j.executionStatus.NotStarted? || j.executionStatus.Running? then
      j.(executionStatus := ExecutionStatus.Failed, status := JobStatus.Failed,
         startedAt := if j.startedAt.Some? then j.startedAt else Some(now), completedAt := Some(now),
         errors := j.errors + [JobError(Execution, j.retryCount, Defect(jobId, name, payload, handlers), now)])
    else j
  }

  class ExecutorService {
    const lifecycle: MetadataService
    const registry: Registry

    constructor (lifecycle: MetadataService, registry: Registry)
      ensures this.lifecycle == lifecycle && this.registry == registry
    {
      this.lifecycle, this.registry := lifecycle, registry;
    }

    predicate Valid() {
      registry.monitor == lifecycle.jobs.monitor
    }

    /** None when the arguments are complete. */
    method ValidateArgs(jobId: string, name: string, payload: Payload) returns (problem: Option<string>)
      ensures problem.Some? <==> OnlySpace(jobId) || OnlySpace(name) || payload.NoBytes?
      ensures problem.Some? ==>
                problem.value == if OnlySpace(jobId) then "jobID is required"
                                 else if OnlySpace(name) then "job name is required"
                                 else "payload is required"
    {
      BlankIsOnlySpace(jobId);
      BlankIsOnlySpace(name);
      problem := None;
      if IsBlank(jobId) {
        return Some("jobID is required");
      }
      if IsBlank(name) {
        return Some("job name is required");
      }
      if payload.NoBytes? {
        return Some("payload is required");
      }
    }

    /**
     True to acknowledge the message, false to hand it back.  On a quiet
     collection a message that cannot be run fails its job, a job that has not
     started ends in the state its handler's result calls for, and any other
     job is left alone.
     */
    method ExecuteJob(jobId: string, name: string, payload: Payload, now: Time, ghost mid: MsgId)
      returns (ok: bool, ghost run: Option<HandlerResult>)
      requires Valid()
      requires lifecycle.jobs.Ready(jobId, Begins(mid, Objection(jobId, name, payload, registry.handlers)))
      modifies lifecycle.jobs`docs, lifecycle.jobs`index, registry.monitor
      ensures lifecycle.jobs.Undisturbed()
      ensures lifecycle.jobs.Went(jobId, Begins(mid, Objection(jobId, name, payload, registry.handlers)),
                                  DeliveryEnds(mid, ok))
      ensures run.Some? ==> Objection(jobId, name, payload, registry.handlers).None?
      ensures lifecycle.jobs.quiet && jobId in old(lifecycle.jobs.docs) ==>
                && ok
                && (run.Some? <==>
                      && !OnlySpace(jobId) && !OnlySpace(name)
                      && name in registry.handlers
                      && (payload.Object? || payload.Null?)
                      && old(lifecycle.jobs.docs)[jobId].executionStatus.NotStarted?)
      ensures lifecycle.jobs.quiet && jobId in old(lifecycle.jobs.docs) ==>
                lifecycle.jobs.docs
                == old(lifecycle.jobs.docs)[jobId :=
                     var j := old(lifecycle.jobs.docs)[jobId];
                     if !OnlySpace(jobId) && !OnlySpace(name) && name in registry.handlers
                        && (payload.Object? || payload.Null?) then
                       if run.None? then j
                       else if run.value.ok then
                         j.(executionStatus := ExecutionStatus.Completed, status := JobStatus.Completed,
                            startedAt := Some(now), completedAt := Some(now))
                       else
                         j.(executionStatus := ExecutionStatus.Failed, status := JobStatus.Failed,
                            startedAt := Some(now), completedAt := Some(now),
                            errors := j.errors + [JobError(Execution, j.retryCount, run.value.error, now)])
                     else if j.executionStatus.NotStarted? || j.executionStatus.Running? then
                       var defect := if OnlySpace(jobId) then "jobID is required"
                                     else if OnlySpace(name) then "job name is required"
                                     else if payload.NoBytes? then "payload is required"
                                     else if name !in registry.handlers then "unknown job handler: " + name
                                     else "invalid JSON payload";
                       j.(executionStatus := ExecutionStatus.Failed, status := JobStatus.Failed,
                          startedAt := if j.startedAt.Some? then j.startedAt else Some(now),
                          completedAt := Some(now),
                          errors := j.errors + [JobError(Execution, j.retryCount, defect, now)])
                     else j]
      ensures lifecycle.jobs.quiet && jobId !in old(lifecycle.jobs.docs) ==>
                ok && run.None? && lifecycle.jobs.docs == old(lifecycle.jobs.docs)
    {
      ObjectionExactly(jobId, name, payload, registry.handlers);
      run := None;
      var problem := ValidateArgs(jobId, name, payload);
      if problem.Some? {
        Reject(jobId, problem.value, now, mid);
        return true, None;
      }
      if !registry.HasHandler(name) {
        Reject(jobId, "unknown job handler: " + name, now, mid);
        return true, None;
      }
      if payload.Undecodable? {
        Reject(jobId, "invalid JSON payload", now, mid);
        return true, None;
      }
      ok, run := Claim(jobId, name, now, mid);
    }

    /** Fails the job of a message that cannot be run; whether that worked is only logged. */
    method Reject(jobId: string, message: string, now: Time, ghost mid: MsgId)
      requires Valid() && lifecycle.jobs.Ready(jobId, FailRead(Preflight(mid), message))
      modifies lifecycle.jobs`docs, lifecycle.jobs`index, registry.monitor
      ensures lifecycle.jobs.Undisturbed()
      ensures lifecycle.jobs.Went(jobId, FailRead(Preflight(mid), message), Acking(mid))
      ensures lifecycle.jobs.quiet ==>
                lifecycle.jobs.docs
                == if jobId in old(lifecycle.jobs.docs)
                      && (old(lifecycle.jobs.docs)[jobId].executionStatus.NotStarted?
                          || old(lifecycle.jobs.docs)[jobId].executionStatus.Running?) then
                     var j := old(lifecycle.jobs.docs)[jobId];
                     old(lifecycle.jobs.docs)[jobId := j.(
                       executionStatus := ExecutionStatus.Failed, status := JobStatus.Failed,
                       startedAt := if j.startedAt.Some? then j.startedAt else Some(now),
                       completedAt := Some(now),
                       errors := j.errors + [JobError(Execution, j.retryCount, message, now)])]
                   else old(lifecycle.jobs.docs)
    {
      ghost var failed := lifecycle.FailJob(jobId, message, now, now, Preflight(mid));
    }

    /** ExecuteJob once the message is known to be runnable: claim, run, report. */
    method Claim(jobId: string, name: string, now: Time, ghost mid: MsgId)
      returns (ok: bool, ghost run: Option<HandlerResult>)
      requires Valid() && registry.HasHandler(name) && lifecycle.jobs.Ready(jobId, Start(mid))
      modifies lifecycle.jobs`docs, lifecycle.jobs`index, registry.monitor
      ensures lifecycle.jobs.Undisturbed()
      ensures lifecycle.jobs.Went(jobId, Start(mid), DeliveryEnds(mid, ok))
      ensures lifecycle.jobs.quiet ==>
                && ok
                && (run.Some? <==> jobId in old(lifecycle.jobs.docs)
                                   && old(lifecycle.jobs.docs)[jobId].executionStatus.NotStarted?)
                && lifecycle.jobs.docs
                   == if run.None? then old(lifecycle.jobs.docs)
                      else
                        var j := old(lifecycle.jobs.docs)[jobId];
                        old(lifecycle.jobs.docs)[jobId :=
                          if run.value.ok then
                            j.(executionStatus := ExecutionStatus.Completed, status := JobStatus.Completed,
                               startedAt := Some(now), completedAt := Some(now))
                          else
                            j.(executionStatus := ExecutionStatus.Failed, status := JobStatus.Failed,
                               startedAt := Some(now), completedAt := Some(now),
                               errors := j.errors + [JobError(Execution, j.retryCount, run.value.error, now)])]
    {
      ghost var max, r0 := registry.monitor.maxAttempts, registry.monitor.record;
      run := None;
      var started := lifecycle.StartJob(jobId, now, mid);
      if started.StartFailed? {
        return false, None;
      }
      if !started.matched {
        return true, None;
      }
      ghost var r1 := registry.monitor.record;
      ok, run := RunAndReport(jobId, name, now, mid);
      MovedOn(max, r0, r1, registry.monitor.record, jobId, Start(mid), RunHandler(mid), DeliveryEnds(mid, ok));
    }

    /** The claimed job's handler, and the report of its result. */
    method RunAndReport(jobId: string, name: string, now: Time, ghost mid: MsgId)
      returns (ok: bool, ghost run: Option<HandlerResult>)
      requires Valid() && registry.HasHandler(name) && lifecycle.jobs.Ready(jobId, RunHandler(mid))
      modifies lifecycle.jobs`docs, lifecycle.jobs`index, registry.monitor
      ensures lifecycle.jobs.Undisturbed()
      ensures run.Some? && lifecycle.jobs.Went(jobId, RunHandler(mid), DeliveryEnds(mid, ok))
      ensures lifecycle.jobs.quiet && jobId in old(lifecycle.jobs.docs)
              && old(lifecycle.jobs.docs)[jobId].executionStatus.Running? ==>
                var j := old(lifecycle.jobs.docs)[jobId];
                && ok
                && lifecycle.jobs.docs
                   == old(lifecycle.jobs.docs)[jobId :=
                        if run.value.ok then
                          j.(executionStatus := ExecutionStatus.Completed, status := JobStatus.Completed,
                             completedAt := Some(now))
                        else
                          j.(executionStatus := ExecutionStatus.Failed, status := JobStatus.Failed,
                             startedAt := if j.startedAt.Some? then j.startedAt else Some(now),
                             completedAt := Some(now),
                             errors := j.errors + [JobError(Execution, j.retryCount, run.value.error, now)])]
    {
      ghost var max, r0 := registry.monitor.maxAttempts, registry.monitor.record;
      var handlerOk, handlerErr := registry.Run(name, jobId, mid);
      run := Some(HandlerResult(handlerOk, handlerErr));
      ghost var r1 := registry.monitor.record;
      MovedFirst(max, r0, r0, r1, jobId, RunHandler(mid), HandlerReturned(handlerOk, handlerErr));
      ok := Settle(jobId, handlerOk, handlerErr, now, mid);
      MovedOn(max, r0, r1, registry.monitor.record, jobId, RunHandler(mid), AfterHandler(mid, handlerOk, handlerErr),
              DeliveryEnds(mid, ok));
    }

    /** Report the handler's result. */
    method Settle(jobId: string, handlerOk: bool, handlerErr: string, now: Time, ghost mid: MsgId) returns (ok: bool)
      requires Valid() && lifecycle.jobs.Ready(jobId, AfterHandler(mid, handlerOk, handlerErr))
      modifies lifecycle.jobs`docs, lifecycle.jobs`index, registry.monitor
      ensures lifecycle.jobs.Undisturbed()
      ensures lifecycle.jobs.Went(jobId, AfterHandler(mid, handlerOk, handlerErr), DeliveryEnds(mid, ok))
      ensures lifecycle.jobs.quiet && jobId in old(lifecycle.jobs.docs)
              && old(lifecycle.jobs.docs)[jobId].executionStatus.Running? ==>
                var j := old(lifecycle.jobs.docs)[jobId];
                && ok
                && lifecycle.jobs.docs
                   == old(lifecycle.jobs.docs)[jobId :=
                        if handlerOk then
                          j.(executionStatus := ExecutionStatus.Completed, status := JobStatus.Completed,
                             completedAt := Some(now))
                        else
                          j.(executionStatus := ExecutionStatus.Failed, status := JobStatus.Failed,
                             startedAt := if j.startedAt.Some? then j.startedAt else Some(now),
                             completedAt := Some(now),
                             errors := j.errors + [JobError(Execution, j.retryCount, handlerErr, now)])]
    {
      if !handlerOk {
        ghost var failed := lifecycle.FailJob(jobId, handlerErr, now, now, HandlerError(mid));
        return true;
      }
      var completed := lifecycle.CompleteJob(jobId, now, None, mid);
      ok := completed.Ok? || completed.AlreadyTerminal?;
    }
  }

  /** The last event of a delivery, by the executor's answer. */
  function Verdict(mid: MsgId, ok: bool): Event {
    if ok then Acked(mid) else Nacked(mid)
  }

  lemma DeliveryIsOver(max: int, r: Chronicle, a: Chronicle, b: Chronicle, job: string, from: Pc, mid: MsgId, ok: bool)
    requires Moved(max, r, a, job, from, DeliveryEnds(mid, ok)) && Acks.Delivers(from, mid) && !from.Done?
    requires Took(max, a, b, job, DeliveryEnds(mid, ok), Verdict(mid, ok))
    ensures Moved(max, r, b, job, from, Done(if ok then Ok else StoreError))
    ensures Acks.Settlements(b.trace[|r.trace|..]) == [mid]
  {
    MovedNext(max, r, a, a, b, job, from, DeliveryEnds(mid, ok), Verdict(mid, ok));
    Acks.DeliverySettlesOnce(max, job, from, mid, b.trace[|r.trace|..], Done(if ok then Ok else StoreError));
  }

  /** A message as the consumer receives it. */
  datatype Delivery = Delivery(mid: MsgId, message: Message)

  class JobConsumer {
    const broker: MessageBroker
    const executor: ExecutorService

    constructor (broker: MessageBroker, executor: ExecutorService)
      ensures this.broker == broker && this.executor == executor
    {
      this.broker, this.executor := broker, executor;
    }

    ghost predicate Valid()
      reads broker
    {
      broker.monitor == executor.registry.monitor && executor.Valid() && broker.Valid()
    }

    /** The job a message is about. */
    static function About(d: Delivery): string {
      if d.message.body.Envelope? then d.message.body.jobId else ""
    }

    /** Where a valid envelope's delivery starts. */
    function StartsAt(d: Delivery): Pc
      requires d.message.body.Envelope?
    {
      var b := d.message.body;
      Begins(d.mid, Objection(b.jobId, b.name, b.payload, executor.registry.handlers))
    }

    /**
     Acknowledges a message that is skipped or was dealt with, hands back one
     whose execution hit a failing collection; never both, never neither.
     */
    method HandleMessage(d: Delivery, now: Time) returns (ghost nack: bool, ghost run: Option<HandlerResult>)
      requires Valid() && executor.lifecycle.jobs.InStep()
      modifies broker`unacked, broker`nacked, executor.lifecycle.jobs`docs, executor.lifecycle.jobs`index,
               broker.monitor
      ensures Valid() && executor.lifecycle.jobs.InStep()
      ensures ValidEnvelope(d.message.body)
              <==> d.message.body.Envelope? && !OnlySpace(d.message.body.jobId) && !OnlySpace(d.message.body.name)
      ensures !ValidEnvelope(d.message.body) ==>
                !nack && run.None? && executor.lifecycle.jobs.docs == old(executor.lifecycle.jobs.docs)
      ensures !ValidEnvelope(d.message.body) ==>
                broker.monitor.record
                == old(broker.monitor.record).(
                     trace := old(broker.monitor.record).trace + [Seen(About(d), Acked(d.mid))])
      ensures ValidEnvelope(d.message.body) ==>
                Walk(broker.monitor.maxAttempts, old(broker.monitor.record).trace, broker.monitor.record.trace,
                     About(d), StartsAt(d), Done(if nack then StoreError else Ok))
      ensures ValidEnvelope(d.message.body) ==> Decided(old(broker.monitor.record), broker.monitor.record, nack)
      ensures broker.reliable && !nack ==> (About(d), d.mid) !in broker.unacked
      ensures executor.lifecycle.jobs.quiet && ValidEnvelope(d.message.body)
              && About(d) in old(executor.lifecycle.jobs.docs) ==>
                Concludes(d.message.body, old(executor.lifecycle.jobs.docs), executor.lifecycle.jobs.docs, nack, run,
                          now)
      ensures Handled(old(broker.monitor.record), broker.monitor.record, [d.mid])
      ensures broker.nacked == if nack then old(broker.nacked) + [(About(d), d.mid)] else old(broker.nacked)
      ensures broker.unacked == old(broker.unacked)
              || (!nack && broker.unacked == old(broker.unacked) - {(About(d), d.mid)})
    {
      nack, run := false, None;
      ValidEnvelopeExactly(d.message.body);
      if !ValidEnvelope(d.message.body) {
        var delivered := broker.Skip((About(d), d.mid));
        Acks.OneSettlement(Seen(About(d), Acked(d.mid)), d.mid);
        return;
      }
      nack, run := Deliver(d, now);
    }

    /**
     With nobody else around: acknowledged, the handler run exactly when it
     should be, and the job left as that calls for.
     */
    ghost predicate Concludes(b: Body, before: Docs, after: Docs, nack: bool, run: Option<HandlerResult>, now: Time)
      requires b.Envelope? && b.jobId in before
    {
      var handlers := executor.registry.handlers;
      && !nack
      && (run.Some? <==> Runnable(b.jobId, b.name, b.payload, handlers) && before[b.jobId].executionStatus.NotStarted?)
      && after == before[b.jobId := LeftBy(before[b.jobId], b.jobId, b.name, b.payload, handlers, run, now)]
    }

    /** A message with a valid envelope. */
    method Deliver(d: Delivery, now: Time) returns (nack: bool, ghost run: Option<HandlerResult>)
      requires Valid() && executor.lifecycle.jobs.InStep() && ValidEnvelope(d.message.body)
      modifies broker`unacked, broker`nacked, executor.lifecycle.jobs`docs, executor.lifecycle.jobs`index,
               broker.monitor
      ensures Valid() && executor.lifecycle.jobs.InStep()
      ensures Walk(broker.monitor.maxAttempts, old(broker.monitor.record).trace, broker.monitor.record.trace, About(d),
                   StartsAt(d), Done(if nack then StoreError else Ok))
      ensures Decided(old(broker.monitor.record), broker.monitor.record, nack)
      ensures broker.reliable && !nack ==> (About(d), d.mid) !in broker.unacked
      ensures executor.lifecycle.jobs.quiet && About(d) in old(executor.lifecycle.jobs.docs) ==>
                Concludes(d.message.body, old(executor.lifecycle.jobs.docs), executor.lifecycle.jobs.docs, nack, run,
                          now)
      ensures Handled(old(broker.monitor.record), broker.monitor.record, [d.mid])
      ensures broker.nacked == if nack then old(broker.nacked) + [(About(d), d.mid)] else old(broker.nacked)
      ensures broker.unacked == old(broker.unacked)
              || (!nack && broker.unacked == old(broker.unacked) - {(About(d), d.mid)})
    {
      var b := d.message.body;
      ghost var max, r0, from := broker.monitor.maxAttempts, broker.monitor.record, StartsAt(d);
      ghost var objection := Objection(b.jobId, b.name, b.payload, executor.registry.handlers);
      broker.monitor.Begin(b.jobId, Action.Deliver(d.mid, objection.None?, objection.GetOr("")), from);
      ghost var r1 := broker.monitor.record;
      var ok;
      ok, run := executor.ExecuteJob(b.jobId, b.name, b.payload, now, d.mid);
      ghost var r2 := broker.monitor.record;
      nack := !ok;
      Answer(d, ok, r1, from);
      DecidedByCalls(max, r0, r1, broker.monitor.record, b.jobId, from, d.mid, objection.GetOr(""), nack);
    }

    /** Acknowledges the message or hands it back, which ends the delivery that began at `r` and `from`. */
    method Answer(d: Delivery, ok: bool, ghost r: Chronicle, ghost from: Pc)
      requires Valid() && executor.lifecycle.jobs.InStep() && (About(d), from) in r.mine
      requires Acks.Delivers(from, d.mid) && !from.Done?
      requires Moved(broker.monitor.maxAttempts, r, broker.monitor.record, About(d), from, DeliveryEnds(d.mid, ok))
      modifies broker`unacked, broker`nacked, broker.monitor
      ensures Valid() && executor.lifecycle.jobs.InStep()
      ensures Moved(broker.monitor.maxAttempts, r, broker.monitor.record, About(d), from,
                    Done(if ok then Ok else StoreError))
      ensures Acks.Settlements(broker.monitor.record.trace[|r.trace|..]) == [d.mid]
      ensures broker.reliable && ok ==> (About(d), d.mid) !in broker.unacked
      ensures broker.nacked == if ok then old(broker.nacked) else old(broker.nacked) + [(About(d), d.mid)]
      ensures broker.unacked == old(broker.unacked)
              || (ok && broker.unacked == old(broker.unacked) - {(About(d), d.mid)})
    {
      ghost var r1 := broker.monitor.record;
      if ok {
        var delivered := broker.Ack((About(d), d.mid));
      } else {
        broker.Nack((About(d), d.mid));
      }
      DeliveryIsOver(broker.monitor.maxAttempts, r, r1, broker.monitor.record, About(d), from, d.mid, ok);
    }

    /** The ids received, in order. */
    static function Received(receipts: seq<Option<Delivery>>): seq<MsgId> {
      if receipts == [] then []
      else
        var last := receipts[|receipts| - 1];
        Received(receipts[..|receipts| - 1]) + if last.Some? then [last.value.mid] else []
    }

    /** The keys of the messages received. */
    static function Keys(receipts: seq<Option<Delivery>>): set<MessageKey> {
      set r | r in receipts && r.Some? :: (About(r.value), r.value.mid)
    }

    /**
     The receive loop until its context ends; None is a receive that failed.
     Each receipt is settled, once and in its turn, and no other message is.
     */
    method ConsumeLoop(receipts: seq<Option<Delivery>>, now: Time)
      requires Valid() && executor.lifecycle.jobs.InStep()
      modifies broker`unacked, broker`nacked, executor.lifecycle.jobs`docs, executor.lifecycle.jobs`index,
               broker.monitor
      ensures Valid() && executor.lifecycle.jobs.InStep()
      ensures Handled(old(broker.monitor.record), broker.monitor.record, Received(receipts))
      ensures Kept(old(broker.unacked), broker.unacked, Keys(receipts))
      ensures HandedBack(old(broker.nacked), broker.nacked, Keys(receipts))
    {
      ghost var r0 := broker.monitor.record;
      var n := 0;
      while n < |receipts|
        invariant 0 <= n <= |receipts| && Valid() && executor.lifecycle.jobs.InStep()
        invariant Handled(r0, broker.monitor.record, Received(receipts[..n]))
        invariant Kept(old(broker.unacked), broker.unacked, Keys(receipts[..n]))
        invariant HandedBack(old(broker.nacked), broker.nacked, Keys(receipts[..n]))
      {
        assert receipts[..n + 1][..n] == receipts[..n];
        ghost var r1 := broker.monitor.record;
        if receipts[n].Some? {
          assert receipts[n] in receipts[..n + 1];
          ghost var nack, run := HandleMessage(receipts[n].value, now);
          HandledOn(r0, r1, broker.monitor.record, Received(receipts[..n]), [receipts[n].value.mid]);
        }
        n := n + 1;
      }
      assert receipts[..n] == receipts;
    }
  }

  /** The message was handed back exactly if one of the delivery's own calls went wrong. */
  ghost predicate Decided(before: Chronicle, after: Chronicle, nack: bool) {
    before.trace <= after.trace && (nack <==> Acks.Troubled(after.trace[|before.trace|..]))
  }

  lemma DecidedByCalls(max: int, r0: Chronicle, r1: Chronicle, r2: Chronicle, job: string, from: Pc, mid: MsgId,
                       message: string, nack: bool)
    requires r1.trace == r0.trace && Moved(max, r1, r2, job, from, Done(if nack then StoreError else Ok))
    requires from == Start(mid) || from == FailRead(Preflight(mid), message)
    ensures Decided(r0, r2, nack)
  {
    Acks.HandedBackExactly(max, job, from, mid, r2.trace[|r1.trace|..], Done(if nack then StoreError else Ok));
  }

  /** A delivery of a job's own message is about that job, and runs its handler unless there is none. */
  lemma OwnMessageIsRunnable(m: Message, topic: string, jobId: string, name: string, payload: Fields,
                             handlers: set<string>, mid: MsgId)
    requires Carries(m, topic, jobId, name, payload)
    ensures JobConsumer.About(Delivery(mid, m)) == jobId
    ensures Runnable(m.body.jobId, m.body.name, m.body.payload, handlers)
            <==> !OnlySpace(jobId) && !OnlySpace(name) && name in handlers
  {
  }

  /** Between the two records exactly these messages have been settled, in this order. */
  ghost predicate Handled(before: Chronicle, after: Chronicle, mids: seq<MsgId>) {
    && before.trace <= after.trace && Acks.Settlements(after.trace[|before.trace|..]) == mids
    && before.log <= after.log
  }

  lemma HandledOn(a: Chronicle, b: Chronicle, c: Chronicle, first: seq<MsgId>, rest: seq<MsgId>)
    requires Handled(a, b, first) && Handled(b, c, rest)
    ensures Handled(a, c, first + rest)
  {
    Acks.SettlementsSince(a.trace, b.trace, c.trace);
  }

  /** Only these messages may be gone. */
  ghost predicate Kept(before: map<MessageKey, Message>, after: map<MessageKey, Message>, keys: set<MessageKey>) {
    && (forall key :: key in after ==> key in before && after[key] == before[key])
    && (forall key :: key in before && key !in keys ==> key in after)
  }

  /** Only these messages may have been handed back. */
  ghost predicate HandedBack(before: seq<MessageKey>, after: seq<MessageKey>, keys: set<MessageKey>) {
    before <= after && forall k :: |before| <= k < |after| ==> after[k] in keys
  }
}
