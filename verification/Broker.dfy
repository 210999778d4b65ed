/** The broker: messages stay until they are acknowledged, and may be handed out any number of times. */
module Broker {
  import opened Options
  import opened JobModel
  import opened Writes
  import opened Protocol
  import opened Machine
  import opened Weaving
  import opened Text

  /**
   A payload as it travels: no bytes at all, bytes that decode neither as a
   JSON object nor as null, null, or an object.
   */
  datatype Payload = NoBytes | Undecodable(raw: string) | Null | Object(fields: Fields)

  datatype Body = Envelope(jobId: string, name: string, payload: Payload) | Garbage

  datatype Message = Message(topic: string, body: Body)

  /** A message is known by the job it is about and a number. */
  type MessageKey = (string, MsgId)

  /** The envelope rule shared by publisher and consumer. */
  predicate ValidEnvelope(b: Body) {
    b.Envelope? && !IsBlank(b.jobId) && !IsBlank(b.name)
  }

  lemma ValidEnvelopeExactly(b: Body)
    ensures ValidEnvelope(b) <==> b.Envelope? && !OnlySpace(b.jobId) && !OnlySpace(b.name)
  {
    if b.Envelope? {
      BlankIsOnlySpace(b.jobId);
      BlankIsOnlySpace(b.name);
    }
  }

  /** The message goes to the topic, and is about the job, its handler and its payload. */
  predicate Carries(m: Message, topic: string, jobId: string, name: string, payload: Fields) {
    && m.topic == topic
    && m.body.Envelope? && m.body.jobId == jobId && m.body.name == name && m.body.payload == Object(payload)
  }

  /** Nothing is gone, and what is new is this job's message. */
  ghost predicate OnlyAdds(before: map<MessageKey, Message>, after: map<MessageKey, Message>, job: Projection) {
    && (forall key :: key in before ==> key in after && after[key] == before[key])
    && (forall key :: key in after && key !in before ==>
          key.0 == job.jobId && Carries(after[key], job.topic, job.jobId, job.name, job.payload))
  }

  function MessageFor(job: Projection): Message {
    Message(job.topic, Envelope(job.jobId, job.name, Object(job.payload)))
  }

  /** What has become of a publish that was confirmed or not, and has stored its message or not. */
  function Fate(sent: Option<MsgId>, stored: Option<MsgId>): Net {
    if sent.Some? then Fine else if stored.Some? then LostReply else LostRequest
  }

  class MessageBroker {
    var unacked: map<MessageKey, Message>
    var next: map<string, MsgId>
    ghost var nacked: seq<MessageKey>
    const monitor: Monitor
    const reliable: bool   // every request arrives and is answered

    constructor (monitor: Monitor, reliable: bool)
      ensures this.monitor == monitor && this.reliable == reliable
      ensures unacked == map[] && next == map[] && nacked == [] && Valid()
    {
      this.monitor, this.reliable := monitor, reliable;
      unacked, next, nacked := map[], map[], [];
    }

    /** The first number not used for the job. */
    function NextFor(job: string): MsgId
      reads this`next
    {
      if job in next then next[job] else 0
    }

    /** Numbers are handed out in order, job by job. */
    predicate Valid()
      reads this`unacked, this`next
    {
      forall key :: key in unacked ==> key.1 < NextFor(key.0)
    }

    /** One of the watched threads is there. */
    ghost predicate At(job: string, t: Pc)
      reads monitor
    {
      (job, t) in monitor.record.mine
    }

    /**
     A confirmed publish has stored the job's own message under a new number.
     A failed one may have stored it too.
     */
    method Publish(job: Projection) returns (sent: Option<MsgId>, error: string, ghost stored: Option<MsgId>)
      requires Valid() && monitor.Keeps() && At(job.jobId, Pc.Publish(job))
      modifies this`unacked, this`next, monitor
      ensures Valid() && monitor.Keeps()
      ensures Took(monitor.maxAttempts, old(monitor.record), monitor.record, job.jobId, Pc.Publish(job),
                   Published(sent, error))
      ensures monitor.record == Taken(monitor.maxAttempts, old(monitor.record), job.jobId, Pc.Publish(job),
                                      Published(sent, error), Fate(sent, stored))
      ensures Lawful(monitor.maxAttempts, monitor.record.log)
              <==> NextNumber(monitor.maxAttempts, old(monitor.record).log, job.jobId, sent)
      ensures monitor.record.docs == old(monitor.record).docs
      ensures sent.Some? ==> stored == sent
      ensures unacked
              == if stored.Some? then old(unacked)[(job.jobId, stored.value) := MessageFor(job)] else old(unacked)
      ensures stored.Some? ==> stored.value >= old(NextFor(job.jobId)) && ValidEnvelope(MessageFor(job).body)
      ensures stored.Some? ==>
                && (job.jobId, stored.value) !in old(unacked)
                && unacked.Keys == old(unacked).Keys + {(job.jobId, stored.value)}
                && (forall key :: key in old(unacked) ==> unacked[key] == old(unacked)[key])
                && var m := unacked[(job.jobId, stored.value)];
                && m.topic == job.topic
                && m.body.Envelope?
                && m.body.jobId == job.jobId && m.body.name == job.name
                && m.body.payload == Object(job.payload)
      ensures OnlyAdds(old(unacked), unacked, job)
      ensures stored.Some? ==> !OnlySpace(job.jobId) && !OnlySpace(job.name)
      ensures reliable && !OnlySpace(job.jobId) && !OnlySpace(job.name) ==> sent.Some?
    {
      BlankIsOnlySpace(job.jobId);
      BlankIsOnlySpace(job.name);
      sent, error, stored := Send(job.jobId, MessageFor(job));
      ghost var net := Fate(sent, stored);
      PublishedLawfulExactly(monitor.maxAttempts, monitor.record, job.jobId, Pc.Publish(job), sent, error, net);
      monitor.Take(job.jobId, Pc.Publish(job), Published(sent, error), net);
    }

    method Transmit() returns (net: Net)
      ensures reliable ==> net.Fine?
    {
      net := Fine;
      if !reliable {
        net := *;
      }
    }

    /** One round trip to the broker, for a valid envelope. */
    method Send(job: string, msg: Message) returns (sent: Option<MsgId>, error: string, ghost stored: Option<MsgId>)
      requires Valid()
      modifies this`unacked, this`next
      ensures Valid()
      ensures sent.Some? ==> stored == sent
      ensures unacked == if stored.Some? then old(unacked)[(job, stored.value) := msg] else old(unacked)
      ensures stored.Some? ==> stored.value >= old(NextFor(job)) && ValidEnvelope(msg.body)
      ensures reliable && ValidEnvelope(msg.body) ==> sent.Some?
    {
      stored := None;
      if !ValidEnvelope(msg.body) {
        return None, "build job message", None;
      }
      var net := Transmit();
      // Other publishers may have used numbers meanwhile.
      var mid: int := *;
      if mid < NextFor(job) {
        mid := NextFor(job);
      }
      if !net.LostRequest? {
        unacked := unacked[(job, mid) := msg];
        next := next[job := mid + 1];
        stored := Some(mid);
      }
      sent := if net.Fine? then Some(mid) else None;
      error := "";
      if !net.Fine? {
        error := *;
      }
    }

    /** The acknowledgement may be lost; then the message stays. */
    method Ack(key: MessageKey) returns (delivered: bool)
      requires Valid() && monitor.Keeps() && At(key.0, Acking(key.1))
      modifies this`unacked, monitor
      ensures Valid() && monitor.Keeps()
      ensures unacked == if delivered then old(unacked) - {key} else old(unacked)
      ensures reliable ==> delivered
      ensures Took(monitor.maxAttempts, old(monitor.record), monitor.record, key.0, Acking(key.1), Acked(key.1))
      ensures monitor.record.docs == old(monitor.record).docs
      ensures Lawful(monitor.maxAttempts, monitor.record.log) <==> Lawful(monitor.maxAttempts, old(monitor.record).log)
    {
      var net := Transmit();
      delivered := net.Fine?;
      if delivered {
        unacked := unacked - {key};
      }
      monitor.Take(key.0, Acking(key.1), Acked(key.1), if delivered then Fine else LostReply);
    }

    /** Acknowledges a message that is about no job. */
    method Skip(key: MessageKey) returns (delivered: bool)
      requires Valid() && monitor.Keeps()
      modifies this`unacked, monitor
      ensures Valid() && monitor.Keeps()
      ensures unacked == if delivered then old(unacked) - {key} else old(unacked)
      ensures reliable ==> delivered
      ensures monitor.record
              == old(monitor.record).(trace := old(monitor.record).trace + [Seen(key.0, Acked(key.1))])
    {
      var net := Transmit();
      delivered := net.Fine?;
      if delivered {
        unacked := unacked - {key};
      }
      monitor.Note(key.0, Acked(key.1));
    }

    /** Hand the message back for redelivery. */
    method Nack(key: MessageKey)
      requires monitor.Keeps() && At(key.0, Nacking(key.1))
      modifies this`nacked, monitor
      ensures monitor.Keeps() && nacked == old(nacked) + [key]
      ensures Took(monitor.maxAttempts, old(monitor.record), monitor.record, key.0, Nacking(key.1), Nacked(key.1))
      ensures monitor.record.docs == old(monitor.record).docs
      ensures Lawful(monitor.maxAttempts, monitor.record.log) <==> Lawful(monitor.maxAttempts, old(monitor.record).log)
    {
      nacked := nacked + [key];
      monitor.Take(key.0, Nacking(key.1), Nacked(key.1), Fine);
    }
  }
}
