/** The calls the sms-sender service layer makes into the systems outside it (Redis through
    `StringRedisTemplate`, Twilio through `TwillioService`, Kafka through `KafkaTemplate`),
    recorded in the order they happen. Each collaborator's own log is a projection of it. */
module Interactions {
  import opened JavaStrings
  import opened Events

  datatype Interaction =
    | HasKey(key: string)                              // redisTemplate.hasKey(key)
    | SetKey(key: string, value: string)               // redisTemplate.opsForValue().set(key, value)
    | DeleteKey(key: string)                           // redisTemplate.delete(key)
    | Dispatch(phoneNumber: JString, message: JString) // twillioService.sendSms(phoneNumber, message)
    | KafkaSend(topic: string, event: SmsEvent)        // kafkaTemplate.send(topic, event)

  /** The shared, append-only record of interactions. */
  class Journal {
    var log: seq<Interaction>

    constructor ()
      ensures log == []
    {
      log := [];
    }
  }

  /** The block-list keys looked up, in order. */
  function Lookups(t: seq<Interaction>): seq<string> {
    if t == [] then [] else LookupOf(t[0]) + Lookups(t[1..])
  }

  function LookupOf(x: Interaction): seq<string> {
    if x.HasKey? then [x.key] else []
  }

  /** The gateway calls `(phoneNumber, message)`, in order. */
  function Dispatches(t: seq<Interaction>): seq<(JString, JString)> {
    if t == [] then [] else DispatchOf(t[0]) + Dispatches(t[1..])
  }

  function DispatchOf(x: Interaction): seq<(JString, JString)> {
    if x.Dispatch? then [(x.phoneNumber, x.message)] else []
  }

  /** The `(topic, event)` records sent to Kafka, in order. */
  function Published(t: seq<Interaction>): seq<(string, SmsEvent)> {
    if t == [] then [] else RecordOf(t[0]) + Published(t[1..])
  }

  function RecordOf(x: Interaction): seq<(string, SmsEvent)> {
    if x.KafkaSend? then [(x.topic, x.event)] else []
  }

  /** The interactions that change the Redis key space. */
  function Writes(t: seq<Interaction>): seq<Interaction> {
    if t == [] then [] else WriteOf(t[0]) + Writes(t[1..])
  }

  function WriteOf(x: Interaction): seq<Interaction> {
    if x.SetKey? || x.DeleteKey? then [x] else []
  }

  /** A one-entry journal projects to that entry's own contribution. */
  lemma Singleton(x: Interaction)
    ensures Lookups([x]) == LookupOf(x) && Dispatches([x]) == DispatchOf(x)
    ensures Published([x]) == RecordOf(x) && Writes([x]) == WriteOf(x)
  {
    assert [x][1..] == [];
  }

  /** Every projection of a journal extended by `b` is the old projection extended by the
      projection of `b`: what happened earlier is never rewritten. */
  lemma ProjectionsAppend(a: seq<Interaction>, b: seq<Interaction>)
    ensures Lookups(a + b) == Lookups(a) + Lookups(b)
    ensures Dispatches(a + b) == Dispatches(a) + Dispatches(b)
    ensures Published(a + b) == Published(a) + Published(b)
    ensures Writes(a + b) == Writes(a) + Writes(b)
  {
    LookupsAppend(a, b);
    DispatchesAppend(a, b);
    PublishedAppend(a, b);
    WritesAppend(a, b);
  }

  lemma {:induction false} LookupsAppend(a: seq<Interaction>, b: seq<Interaction>)
    ensures Lookups(a + b) == Lookups(a) + Lookups(b)
  {
    if a == [] {
      assert a + b == b;
    } else {
      assert (a + b)[0] == a[0] && (a + b)[1..] == a[1..] + b;
      LookupsAppend(a[1..], b);
    }
  }

  lemma {:induction false} DispatchesAppend(a: seq<Interaction>, b: seq<Interaction>)
    ensures Dispatches(a + b) == Dispatches(a) + Dispatches(b)
  {
    if a == [] {
      assert a + b == b;
    } else {
      assert (a + b)[0] == a[0] && (a + b)[1..] == a[1..] + b;
      DispatchesAppend(a[1..], b);
    }
  }

  lemma {:induction false} PublishedAppend(a: seq<Interaction>, b: seq<Interaction>)
    ensures Published(a + b) == Published(a) + Published(b)
  {
    if a == [] {
      assert a + b == b;
    } else {
      assert (a + b)[0] == a[0] && (a + b)[1..] == a[1..] + b;
      PublishedAppend(a[1..], b);
    }
  }

  lemma {:induction false} WritesAppend(a: seq<Interaction>, b: seq<Interaction>)
    ensures Writes(a + b) == Writes(a) + Writes(b)
  {
    if a == [] {
      assert a + b == b;
    } else {
      assert (a + b)[0] == a[0] && (a + b)[1..] == a[1..] + b;
      WritesAppend(a[1..], b);
    }
  }
}
