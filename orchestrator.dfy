/** `SmsService.sendSms`: look the phone number up in the block-list once; if it is blocked,
    publish a failure record and answer with the failure text, never touching the gateway;
    otherwise dispatch through the gateway, then publish a "Sent" record and answer
    "SMS sent to " + phoneNumber. The service keeps no state of its own between calls. */
module Orchestrator {
  import opened JavaStrings
  import opened Events
  import opened Interactions
  import opened Requests
  import opened Blacklist
  import opened EventProducer
  import opened Gateway

  const BlacklistedReply := "Failed: Phone number is blacklisted"
  const SentStatus := "Sent"
  const SentPrefix := "SMS sent to "

  /** The string `sendSms(r)` returns, given the block-list's answer. The caller can tell the two
      branches apart by the reply alone, and a success reply names the phone number as rendered
      by Java's `+`. */
  function Reply(r: SmsRequest, blacklisted: bool): (s: string)
    ensures s == BlacklistedReply <==> blacklisted
    ensures !blacklisted ==>
      |SentPrefix| <= |s| && s[..|SentPrefix|] == SentPrefix && s[|SentPrefix|..] == Render(r.phoneNumber)
  {
    if blacklisted then BlacklistedReply
    else
      var s := Concat(SentPrefix, r.phoneNumber);
      assert s[0] != BlacklistedReply[0];
      s
  }

  /** The outcome record `sendSms(r)` builds, given the block-list's answer: the request's own
      phone number and message, no event id, and a status that is "Sent" exactly on the success
      branch and equals the reply exactly on the blocked branch. */
  function Outcome(r: SmsRequest, blacklisted: bool): (e: SmsEvent)
    ensures e.phoneNumber == r.phoneNumber && e.message == r.message && e.eventId.None?
    ensures e.status == Some(SentStatus) <==> !blacklisted
    ensures e.status == Some(Reply(r, blacklisted)) <==> blacklisted
  {
    var e := NewEvent(r.phoneNumber, r.message, if blacklisted then BlacklistedReply else SentStatus);
    assert |Reply(r, blacklisted)| != |SentStatus| by {
      if !blacklisted {
        assert |SentPrefix| <= |Reply(r, blacklisted)|;
      }
    }
    e
  }

  /** The calls `sendSms(r)` makes into Redis, Twilio and Kafka, in order: the lookup of the
      request's key first, the publication of its outcome last, and in between one gateway call
      with the request's fields exactly when the number is not blocked. */
  function Effects(r: SmsRequest, blacklisted: bool): (t: seq<Interaction>)
    ensures |t| == if blacklisted then 2 else 3
    ensures t[0] == HasKey(Key(r.phoneNumber))
    ensures t[|t| - 1] == KafkaSend(Topic, Outcome(r, blacklisted))
    ensures !blacklisted ==> t[1] == Dispatch(r.phoneNumber, r.message)
  {
    [HasKey(Key(r.phoneNumber))]
    + (if blacklisted then [] else [Dispatch(r.phoneNumber, r.message)])
    + [KafkaSend(Topic, Outcome(r, blacklisted))]
  }

  // ---------------------------------------------------------------------------------------------
  // One call.

  /** What each collaborator sees of one call. */
  lemma EffectsProjections(r: SmsRequest, blacklisted: bool)
    ensures Lookups(Effects(r, blacklisted)) == [Key(r.phoneNumber)]
    ensures Dispatches(Effects(r, blacklisted))
         == if blacklisted then [] else [(r.phoneNumber, r.message)]
    ensures Published(Effects(r, blacklisted)) == [(Topic, Outcome(r, blacklisted))]
    ensures Writes(Effects(r, blacklisted)) == []
  {
    var lookup := HasKey(Key(r.phoneNumber));
    var publish := KafkaSend(Topic, Outcome(r, blacklisted));
    Singleton(lookup);
    Singleton(publish);
    if blacklisted {
      assert Effects(r, blacklisted) == [lookup] + [publish];
      ProjectionsAppend([lookup], [publish]);
    } else {
      var dispatch := Dispatch(r.phoneNumber, r.message);
      Singleton(dispatch);
      assert Effects(r, blacklisted) == [lookup] + ([dispatch] + [publish]);
      ProjectionsAppend([dispatch], [publish]);
      ProjectionsAppend([lookup], [dispatch] + [publish]);
    }
  }

  /** The block-list is consulted first, exactly once, under the request's own key. */
  lemma LookupFirstAndOnce(r: SmsRequest, blacklisted: bool)
    ensures Effects(r, blacklisted)[0] == HasKey(Key(r.phoneNumber))
    ensures Lookups(Effects(r, blacklisted)) == [Key(r.phoneNumber)]
  {
    EffectsProjections(r, blacklisted);
  }

  /** A blocked number gets the failure text, no gateway call, and one record whose status is
      that same text and whose phone number and message are the request's. */
  lemma BlacklistedOutcome(r: SmsRequest)
    ensures Reply(r, true) == "Failed: Phone number is blacklisted"
    ensures Dispatches(Effects(r, true)) == []
    ensures Published(Effects(r, true))
         == [("sms_events", SmsEvent(r.phoneNumber, r.message, Some(Reply(r, true)), None))]
  {
    EffectsProjections(r, true);
  }

  /** Any other number, whatever its message (empty or long), is dispatched exactly once with the
      request's phone number and message, gets one "Sent" record carrying the same two fields,
      and the answer "SMS sent to " followed by the phone number. */
  lemma SentOutcome(r: SmsRequest)
    ensures Reply(r, false) == "SMS sent to " + Render(r.phoneNumber)
    ensures Dispatches(Effects(r, false)) == [(r.phoneNumber, r.message)]
    ensures Published(Effects(r, false))
         == [("sms_events", SmsEvent(r.phoneNumber, r.message, Some("Sent"), None))]
  {
    EffectsProjections(r, false);
  }

  /** Publication is the last step on both branches, so the gateway call, when there is one,
      comes before it. */
  lemma DispatchBeforePublish(r: SmsRequest, blacklisted: bool)
    ensures var e := Effects(r, blacklisted);
      && e[|e| - 1].KafkaSend?
      && forall i, j :: 0 <= i < |e| && 0 <= j < |e| && e[i].Dispatch? && e[j].KafkaSend? ==> i < j
  {
  }

  /** A call never writes to the block-list. */
  lemma NeverWritesBlacklist(r: SmsRequest, blacklisted: bool)
    ensures Writes(Effects(r, blacklisted)) == []
  {
    EffectsProjections(r, blacklisted);
  }

  /** Once the phone number has passed `@NotBlank` (as every validated request's has), the answer
      names the phone number exactly as it was sent, never "null". */
  lemma ValidRequestReply(r: SmsRequest)
    requires NotBlank(r.phoneNumber)
    ensures Reply(r, false) == "SMS sent to " + r.phoneNumber.value
  {
  }

  // ---------------------------------------------------------------------------------------------
  // A sequence of calls against an unchanging block-list.

  /** The calls `sendSms(rs[0])`, ..., `sendSms(rs[|rs| - 1])` make, in order. */
  function EffectsAll(store: map<string, string>, rs: seq<SmsRequest>): seq<Interaction>
    decreases |rs|
  {
    if rs == [] then []
    else Effects(rs[0], Blacklisted(store, rs[0].phoneNumber)) + EffectsAll(store, rs[1..])
  }

  /** The requests that get through the block-list, in order. */
  function Permitted(store: map<string, string>, rs: seq<SmsRequest>): seq<SmsRequest>
    decreases |rs|
  {
    if rs == [] then []
    else (if Blacklisted(store, rs[0].phoneNumber) then [] else [rs[0]]) + Permitted(store, rs[1..])
  }

  /** The gateway calls a sequence of requests asks for. */
  function Pairs(rs: seq<SmsRequest>): (p: seq<(JString, JString)>)
    ensures |p| == |rs|
    ensures forall i :: 0 <= i < |rs| ==> p[i] == (rs[i].phoneNumber, rs[i].message)
    decreases |rs|
  {
    if rs == [] then [] else [(rs[0].phoneNumber, rs[0].message)] + Pairs(rs[1..])
  }

  /** The outcome record of each request, in order. */
  function Outcomes(store: map<string, string>, rs: seq<SmsRequest>): (es: seq<SmsEvent>)
    ensures |es| == |rs|
    ensures forall i :: 0 <= i < |rs| ==>
      es[i] == Outcome(rs[i], Blacklisted(store, rs[i].phoneNumber))
    decreases |rs|
  {
    if rs == [] then []
    else [Outcome(rs[0], Blacklisted(store, rs[0].phoneNumber))] + Outcomes(store, rs[1..])
  }

  /** The block-list key of each request, in order. */
  function Keys(rs: seq<SmsRequest>): (k: seq<string>)
    ensures |k| == |rs|
    ensures forall i :: 0 <= i < |rs| ==> k[i] == Key(rs[i].phoneNumber)
    decreases |rs|
  {
    if rs == [] then [] else [Key(rs[0].phoneNumber)] + Keys(rs[1..])
  }

  /** n calls make n lookups, one per request, in request order. */
  lemma {:induction false} ManyCallsLookups(store: map<string, string>, rs: seq<SmsRequest>)
    ensures Lookups(EffectsAll(store, rs)) == Keys(rs)
    decreases |rs|
  {
    if rs != [] {
      var r, b := rs[0], Blacklisted(store, rs[0].phoneNumber);
      ManyCallsLookups(store, rs[1..]);
      LookupsAppend(Effects(r, b), EffectsAll(store, rs[1..]));
      LookupFirstAndOnce(r, b);
    }
  }

  /** n calls publish n records, the outcome of each request in request order, whichever branch
      each took; identical requests are not merged. */
  lemma {:induction false} ManyCallsPublished(store: map<string, string>, rs: seq<SmsRequest>)
    ensures Published(EffectsAll(store, rs)) == OnTopic(Outcomes(store, rs))
    decreases |rs|
  {
    if rs != [] {
      var r, b := rs[0], Blacklisted(store, rs[0].phoneNumber);
      ManyCallsPublished(store, rs[1..]);
      PublishedAppend(Effects(r, b), EffectsAll(store, rs[1..]));
      EffectsProjections(r, b);
      assert Outcomes(store, rs) == [Outcome(r, b)] + Outcomes(store, rs[1..]);
      assert OnTopic(Outcomes(store, rs)) == [(Topic, Outcome(r, b))] + OnTopic(Outcomes(store, rs[1..]));
    }
  }

  /** The gateway sees exactly the requests that were not blocked, each once, in request order. */
  lemma {:induction false} ManyCallsDispatches(store: map<string, string>, rs: seq<SmsRequest>)
    ensures Dispatches(EffectsAll(store, rs)) == Pairs(Permitted(store, rs))
    decreases |rs|
  {
    if rs != [] {
      var r, b := rs[0], Blacklisted(store, rs[0].phoneNumber);
      var tail := EffectsAll(store, rs[1..]);
      assert EffectsAll(store, rs) == Effects(r, b) + tail;
      ManyCallsDispatches(store, rs[1..]);
      DispatchesAppend(Effects(r, b), tail);
      var rest := Permitted(store, rs[1..]);
      EffectsProjections(r, b);
      if b {
        assert Permitted(store, rs) == [] + rest;
      } else {
        assert Permitted(store, rs) == [r] + rest;
        assert Pairs([r] + rest) == [(r.phoneNumber, r.message)] + Pairs(rest);
      }
    }
  }

  /** However many calls are made, none writes to the block-list. */
  lemma {:induction false} ManyCallsNeverWrite(store: map<string, string>, rs: seq<SmsRequest>)
    ensures Writes(EffectsAll(store, rs)) == []
    decreases |rs|
  {
    if rs != [] {
      var r, b := rs[0], Blacklisted(store, rs[0].phoneNumber);
      ManyCallsNeverWrite(store, rs[1..]);
      WritesAppend(Effects(r, b), EffectsAll(store, rs[1..]));
      NeverWritesBlacklist(r, b);
    }
  }

  /** Sending the same unblocked request twice dispatches it twice and publishes two records. */
  lemma NoDeduplication(store: map<string, string>, r: SmsRequest)
    requires !Blacklisted(store, r.phoneNumber)
    ensures Dispatches(EffectsAll(store, [r, r])) == [(r.phoneNumber, r.message), (r.phoneNumber, r.message)]
    ensures |Published(EffectsAll(store, [r, r]))| == 2
  {
    ManyCallsDispatches(store, [r, r]);
    ManyCallsPublished(store, [r, r]);
    assert [r, r][1..] == [r] && [r][1..] == [];
    assert Permitted(store, [r]) == [r] + [];
    assert Permitted(store, [r, r]) == [r] + [r];
  }

  // ---------------------------------------------------------------------------------------------
  // The service object.

  class SmsService {
    const cache: BlacklistCache
    const eventProducer: SmsEventProducer
    const twillioService: TwillioService

    /** The three collaborators report into one journal, so that their calls can be ordered. */
    ghost predicate Valid() {
      cache.journal == eventProducer.journal && eventProducer.journal == twillioService.journal
    }

    constructor (cache: BlacklistCache, eventProducer: SmsEventProducer, twillioService: TwillioService)
      requires cache.journal == eventProducer.journal == twillioService.journal
      ensures Valid()
      ensures this.cache == cache && this.eventProducer == eventProducer
      ensures this.twillioService == twillioService
    {
      this.cache := cache;
      this.eventProducer := eventProducer;
      this.twillioService := twillioService;
    }

    method SendSms(request: SmsRequest) returns (result: string)
      requires Valid()
      modifies cache.journal
      ensures cache.store == old(cache.store)
      ensures result == Reply(request, Blacklisted(cache.store, request.phoneNumber))
      ensures cache.journal.log
           == old(cache.journal.log) + Effects(request, Blacklisted(cache.store, request.phoneNumber))
    {
      var phoneNumber := request.phoneNumber;
      var message := request.message;
      var blocked := cache.IsBlacklisted(phoneNumber);
      if blocked {
        var event := NewEvent(phoneNumber, message, BlacklistedReply);
        eventProducer.SendSmsEvent(event);
        return BlacklistedReply;
      }
      twillioService.SendSms(phoneNumber, message);
      var event := NewEvent(phoneNumber, message, SentStatus);
      eventProducer.SendSmsEvent(event);
      return Concat(SentPrefix, request.phoneNumber);
    }
  }

  /** Three calls in a row leave the journal extended by the three calls' interactions in order,
      and the block-list untouched. */
  method ThreeCalls(service: SmsService, r1: SmsRequest, r2: SmsRequest, r3: SmsRequest)
    returns (results: seq<string>)
    requires service.Valid()
    modifies service.cache.journal
    ensures service.cache.store == old(service.cache.store)
    ensures results == [
      Reply(r1, Blacklisted(service.cache.store, r1.phoneNumber)),
      Reply(r2, Blacklisted(service.cache.store, r2.phoneNumber)),
      Reply(r3, Blacklisted(service.cache.store, r3.phoneNumber))]
    ensures service.cache.journal.log
         == old(service.cache.journal.log) + EffectsAll(service.cache.store, [r1, r2, r3])
  {
    ghost var log := service.cache.journal.log;
    var a := service.SendSms(r1);
    var b := service.SendSms(r2);
    var c := service.SendSms(r3);
    results := [a, b, c];
    ThreeCallsJournal(log, service.cache.journal.log, service.cache.store, r1, r2, r3);
  }

  /** Three journal extensions compose into the journal of the three-request sequence. */
  lemma ThreeCallsJournal(log: seq<Interaction>, now: seq<Interaction>, store: map<string, string>,
                          r1: SmsRequest, r2: SmsRequest, r3: SmsRequest)
    requires now == log + Effects(r1, Blacklisted(store, r1.phoneNumber))
                        + Effects(r2, Blacklisted(store, r2.phoneNumber))
                        + Effects(r3, Blacklisted(store, r3.phoneNumber))
    ensures now == log + EffectsAll(store, [r1, r2, r3])
  {
    EffectsAllOfThree(store, r1, r2, r3);
  }

  lemma EffectsAllOfThree(store: map<string, string>, r1: SmsRequest, r2: SmsRequest, r3: SmsRequest)
    ensures EffectsAll(store, [r1, r2, r3])
         == Effects(r1, Blacklisted(store, r1.phoneNumber))
          + Effects(r2, Blacklisted(store, r2.phoneNumber))
          + Effects(r3, Blacklisted(store, r3.phoneNumber))
  {
    assert [r1, r2, r3][1..] == [r2, r3] && [r2, r3][1..] == [r3] && [r3][1..] == [];
    var e1, e2, e3 := Effects(r1, Blacklisted(store, r1.phoneNumber)),
      Effects(r2, Blacklisted(store, r2.phoneNumber)), Effects(r3, Blacklisted(store, r3.phoneNumber));
    assert EffectsAll(store, [r3]) == e3 + [] == e3;
    assert EffectsAll(store, [r2, r3]) == e2 + e3;
    assert EffectsAll(store, [r1, r2, r3]) == e1 + (e2 + e3);
    Associative(e1, e2, e3);
  }

  lemma Associative(a: seq<Interaction>, b: seq<Interaction>, c: seq<Interaction>)
    ensures a + (b + c) == a + b + c
  {
  }

  /** The wiring of the application and the two branches of the service's unit tests: the
      request "+1234567890" / "Test message" is first sent through, then, once the number is
      blocked, refused. `first` and `second` are the journal entries of the two calls. */
  method Scenarios() returns (sent: string, failed: string, first: seq<Interaction>, second: seq<Interaction>)
    ensures sent == "SMS sent to +1234567890"
    ensures Lookups(first) == ["blacklist:+1234567890"]
    ensures Dispatches(first) == [(Some("+1234567890"), Some("Test message"))]
    ensures Published(first) == [("sms_events", SmsEvent(Some("+1234567890"), Some("Test message"), Some("Sent"), None))]
    ensures failed == "Failed: Phone number is blacklisted"
    ensures Lookups(second) == ["blacklist:+1234567890"]
    ensures Dispatches(second) == []
    ensures Published(second)
         == [("sms_events", SmsEvent(Some("+1234567890"), Some("Test message"), Some(failed), None))]
  {
    var journal := new Journal();
    var cache := new BlacklistCache(map[], journal);
    var producer := new SmsEventProducer(journal);
    var gateway := new TwillioService(journal);
    var service := new SmsService(cache, producer, gateway);
    var request := SmsRequest(Some("+1234567890"), Some("Test message"));
    assert Key(request.phoneNumber) == "blacklist:+1234567890";

    sent := service.SendSms(request);
    first := journal.log;
    assert first == Effects(request, false);
    SentOutcome(request);
    LookupFirstAndOnce(request, false);

    cache.AddToBlacklist(Some("+1234567890"));
    var mark := |journal.log|;
    failed := service.SendSms(request);
    second := journal.log[mark..];
    assert second == Effects(request, true);
    BlacklistedOutcome(request);
    LookupFirstAndOnce(request, true);
  }
}
