/** `SmsEventProducer`: sends each outcome record, unchanged, to the Kafka topic "sms_events". */
module EventProducer {
  import opened JavaStrings
  import opened Events
  import opened Interactions

  const Topic := "sms_events"

  /** The journal after one `sendSmsEvent(e)`. */
  function Publish(log: seq<Interaction>, e: SmsEvent): seq<Interaction> {
    log + [KafkaSend(Topic, e)]
  }

  /** The journal after `sendSmsEvent(es[0])`, ..., `sendSmsEvent(es[|es| - 1])` in that order. */
  function PublishAll(log: seq<Interaction>, es: seq<SmsEvent>): seq<Interaction>
    decreases |es|
  {
    if es == [] then log else PublishAll(Publish(log, es[0]), es[1..])
  }

  /** The records that sending `es` is expected to add: each event, unchanged, on the topic. */
  function OnTopic(es: seq<SmsEvent>): (r: seq<(string, SmsEvent)>)
    ensures |r| == |es|
    ensures forall i :: 0 <= i < |es| ==> r[i] == (Topic, es[i])
    decreases |es|
  {
    if es == [] then [] else [(Topic, es[0])] + OnTopic(es[1..])
  }

  /** One send adds exactly one Kafka record, the event itself on "sms_events", and nothing else:
      no lookup, no gateway call, no Redis write. */
  lemma PublishAddsOneRecord(log: seq<Interaction>, e: SmsEvent)
    ensures Published(Publish(log, e)) == Published(log) + [(Topic, e)]
    ensures Lookups(Publish(log, e)) == Lookups(log)
    ensures Dispatches(Publish(log, e)) == Dispatches(log)
    ensures Writes(Publish(log, e)) == Writes(log)
  {
    Singleton(KafkaSend(Topic, e));
    ProjectionsAppend(log, [KafkaSend(Topic, e)]);
  }

  /** The producer does not restrict or rewrite the record: a free-form status such as
      "Blacklisted" and a caller-set event id arrive as they were sent. */
  lemma PublishForwardsVerbatim(log: seq<Interaction>, status: string, id: string)
    ensures var e := WithEventId(NewEvent(Some("+1111111111"), Some("Blocked"), status), Some(id));
      var p := Published(Publish(log, e));
      && |p| == |Published(log)| + 1
      && p[|Published(log)|].0 == Topic
      && p[|Published(log)|].1.status == Some(status)
      && p[|Published(log)|].1.eventId == Some(id)
  {
    var e := WithEventId(NewEvent(Some("+1111111111"), Some("Blocked"), status), Some(id));
    PublishAddsOneRecord(log, e);
  }

  /** n sends add exactly n records, in call order, all on "sms_events"; identical events are
      not merged. */
  lemma {:induction false} PublishAllInOrder(log: seq<Interaction>, es: seq<SmsEvent>)
    ensures Published(PublishAll(log, es)) == Published(log) + OnTopic(es)
    decreases |es|
  {
    if es != [] {
      var next := Publish(log, es[0]);
      Singleton(KafkaSend(Topic, es[0]));
      PublishedAppend(log, [KafkaSend(Topic, es[0])]);
      PublishAllInOrder(next, es[1..]);
    }
  }

  /** Sending events makes no lookup and no gateway call. */
  lemma {:induction false} PublishAllLeavesOthers(log: seq<Interaction>, es: seq<SmsEvent>)
    ensures Lookups(PublishAll(log, es)) == Lookups(log)
    ensures Dispatches(PublishAll(log, es)) == Dispatches(log)
    ensures Writes(PublishAll(log, es)) == Writes(log)
    decreases |es|
  {
    if es != [] {
      var next := Publish(log, es[0]);
      PublishAddsOneRecord(log, es[0]);
      PublishAllLeavesOthers(next, es[1..]);
    }
  }

  class SmsEventProducer {
    const journal: Journal

    constructor (journal: Journal)
      ensures this.journal == journal
    {
      this.journal := journal;
    }

    /** `kafkaTemplate.send(TOPIC, smsEvent)`. */
    method SendSmsEvent(smsEvent: SmsEvent)
      modifies journal
      ensures journal.log == Publish(old(journal.log), smsEvent)
    {
      journal.log := journal.log + [KafkaSend(Topic, smsEvent)];
    }
  }
}
