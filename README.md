# sms-sender send pipeline in Dafny

This project models the decision core of the Java `sms-sender` service and proves its contracts.
When a caller asks `SmsService.sendSms` to deliver a message, the service looks the phone number
up in a Redis block-list. A blocked number gets a failure record on Kafka and the reply
`"Failed: Phone number is blacklisted"`. Any other number is handed to the Twilio gateway, then
gets a `"Sent"` record on Kafka and the reply `"SMS sent to " + phoneNumber`. Around it sit the
block-list cache (`BlacklistCache`), the Kafka producer (`SmsEventProducer`) and the validation
constraints on the incoming `SmsRequest`.

Modules, one per source component:

- `JavaStrings` (java_strings.dfy): Java `String` references. A reference may be null (`None`).
  Java's `+` renders null as `"null"`.
- `Events` (events.dfy): the outcome record `SmsEvent` (phone number, message, status, optional
  event id).
- `Interactions` (journal.dfy): a `Journal` object. It records, in order, every call the service
  layer makes into Redis (`HasKey`, `SetKey`, `DeleteKey`), Twilio (`Dispatch`) and Kafka
  (`KafkaSend`). Each collaborator's own log is a projection of it: `Lookups`, `Dispatches`,
  `Published`, `Writes`. Because there is one journal, ordering across collaborators can be
  stated ("the lookup comes first", "the dispatch comes before the publication").
- `Blacklist` (blacklist.dfy): the class `BlacklistCache`. Its field `store` is the Redis key
  space, a `map<string, string>`. Pure functions `Key`, `Blacklisted`, `Added` and `Removed`
  specify it.
- `EventProducer` (event_producer.dfy): the class `SmsEventProducer`, which appends
  `(sms_events, event)` to the journal. The pure functions `Publish` and `PublishAll` specify it.
- `Gateway` (gateway.dfy): the class `TwillioService`, which appends one `Dispatch` per call.
- `Requests` (requests.dfy): `SmsRequest` and its constraints. `@NotBlank` is modelled through
  Java's `trim()`. `@Pattern` is the regular expression written as a sequence of quantified
  character classes that must match the whole string.
- `Orchestrator` (orchestrator.dfy): the class `SmsService`. The pure functions `Reply`,
  `Outcome` and `Effects` give the answer, the record and the journal entries of one call, given
  the block-list's answer. `EffectsAll` gives the entries of a sequence of calls.

The class methods are proved against the pure functions: `SmsService.SendSms` ensures that its
reply is `Reply(...)`, that the journal grows by exactly `Effects(...)` and that the block-list is
unchanged. The lemmas then state what the source promises about those functions.

Where the service code and its unit tests tell different stories, the model follows the code:

- The block-list key is `"blacklist:" + phoneNumber` (BlacklistCache.java lines 9, 16, 20 and 24).
  `BlacklistCacheTest` stubs and verifies the bare number instead (BlacklistCacheTest.java lines
  36, 59 and 68).
- `sendSms` checks no validity of its request. It sends whatever it is given, and its unit test
  sends an empty message straight through (SmsServiceTest.java lines 124-135).
- `sendSms` only ever builds the statuses `"Sent"` and `"Failed: Phone number is blacklisted"`.
  The producer's tests send other statuses such as `"Failed"` and `"Blacklisted"`, and the
  producer forwards any status unchanged (SmsEventProducerTest.java lines 66-97).

## Model

| member | source | states |
|---|---|---|
| `JavaStrings.ConcatInjective` | sms-sender/src/main/java/com/example/demo/service/BlacklistCache.java:16 | Two operands behind the same literal prefix give the same string if and only if they render to the same text. |
| `JavaStrings.NullRendersAsLiteral` | sms-sender/src/main/java/com/example/demo/service/BlacklistCache.java:16 | A null operand concatenates exactly like the literal string "null". |
| `Blacklist.Added` | sms-sender/src/main/java/com/example/demo/service/BlacklistCache.java:19-21 | After adding p, p is blocked and its key holds "1". The key set gains exactly that key. Every other key keeps its value. |
| `Blacklist.Removed` | sms-sender/src/main/java/com/example/demo/service/BlacklistCache.java:23-25 | After removing p, p is not blocked. The key set loses exactly p's key. Every remaining key keeps its value. |
| `Blacklist.KeyInjective` | sms-sender/src/main/java/com/example/demo/service/BlacklistCache.java:16 | Two phone numbers share a Redis key if and only if they render to the same text. Distinct non-null numbers never share a key. |
| `Blacklist.AddLeavesOthers` | sms-sender/src/main/java/com/example/demo/service/BlacklistCache.java:20 | Adding p does not change whether any number with a different text is blocked. |
| `Blacklist.RemoveLeavesOthers` | sms-sender/src/main/java/com/example/demo/service/BlacklistCache.java:24 | Removing p does not change whether any number with a different text is blocked. |
| `Blacklist.AddIdempotent` | sms-sender/src/main/java/com/example/demo/service/BlacklistCache.java:20 | Adding the same number twice leaves the same key space as adding it once. |
| `Blacklist.RemoveAbsent` | sms-sender/src/main/java/com/example/demo/service/BlacklistCache.java:24 | Removing a number that is not blocked leaves the key space unchanged. |
| `Blacklist.RemoveUndoesAdd` | sms-sender/src/main/java/com/example/demo/service/BlacklistCache.java:19-25 | Adding and then removing a number that was not blocked restores the original key space. |
| `Blacklist.PlusSignIsSignificant` | sms-sender/src/main/java/com/example/demo/service/BlacklistCache.java:16 | Keys are not normalised: blocking "+1234567890" does not block "1234567890". |
| `Blacklist.NullSharesKeyWithLiteral` | sms-sender/src/main/java/com/example/demo/service/BlacklistCache.java:16 | Blocking a null phone number blocks the literal phone number "null", because both map to the key "blacklist:null". |
| `Blacklist.BlacklistCache.constructor` | sms-sender/src/main/java/com/example/demo/service/BlacklistCache.java:11-13 | The cache wraps the given key space and journal. |
| `Blacklist.BlacklistCache.IsBlacklisted` | sms-sender/src/main/java/com/example/demo/service/BlacklistCache.java:15-17 | The answer is true if and only if "blacklist:" + phoneNumber is a key. The key space is unchanged. Exactly one `HasKey` lookup of that key is recorded. |
| `Blacklist.BlacklistCache.AddToBlacklist` | sms-sender/src/main/java/com/example/demo/service/BlacklistCache.java:19-21 | The key space becomes `Added(old, p)`, and one `SetKey(key, "1")` is recorded. |
| `Blacklist.BlacklistCache.RemoveFromBlacklist` | sms-sender/src/main/java/com/example/demo/service/BlacklistCache.java:23-25 | The key space becomes `Removed(old, p)`, and one `DeleteKey(key)` is recorded. |
| `EventProducer.PublishAddsOneRecord` | sms-sender/src/main/java/com/example/demo/service/SmsEventProducer.java:14-15 | One send adds exactly one Kafka record: the event itself, on topic "sms_events". It adds no lookup, no gateway call and no Redis write. |
| `EventProducer.PublishForwardsVerbatim` | sms-sender/src/main/java/com/example/demo/service/SmsEventProducer.java:15 | A free-form status (for example "Blacklisted") and a caller-set event id arrive unchanged on "sms_events". |
| `EventProducer.PublishAllInOrder` | sms-sender/src/main/java/com/example/demo/service/SmsEventProducer.java:14-16 | n sends add exactly n records, in call order, each on "sms_events" and equal to its event. Nothing else changes. |
| `EventProducer.SmsEventProducer.constructor` | sms-sender/src/main/java/com/example/demo/service/SmsEventProducer.java:10-12 | The producer wraps the given journal. |
| `EventProducer.SmsEventProducer.SendSmsEvent` | sms-sender/src/main/java/com/example/demo/service/SmsEventProducer.java:14-17 | The journal becomes `Publish(old, smsEvent)`: one `KafkaSend("sms_events", smsEvent)` appended. |
| `Gateway.TwillioService.SendSms` | sms-sender/src/main/java/com/example/demo/service/SmsService.java:24 | One gateway call appends exactly one `Dispatch(phoneNumber, message)` to the journal. |
| `Requests.NotBlank` | sms-sender/src/main/java/com/example/demo/model/SmsRequest.java:7-10 | `@NotBlank` rejects null. A non-null string is non-blank if and only if it holds a character above U+0020, so empty and whitespace-only strings are blank. |
| `Requests.TrimmedIsVisible` | sms-sender/src/main/java/com/example/demo/model/SmsRequest.java:10 | If `trim()` leaves something, the original string holds a character above U+0020. |
| `Requests.VisibleSurvivesTrim` | sms-sender/src/main/java/com/example/demo/model/SmsRequest.java:10 | If the string holds a character above U+0020, `trim()` leaves a non-empty string. |
| `Requests.PatternHolds` | sms-sender/src/main/java/com/example/demo/model/SmsRequest.java:8 | `@Pattern` accepts null. It accepts any other value if and only if it is a well-formed phone number: an optional '+', then 10 to 15 ASCII digits, the first not '0'. |
| `Requests.PhonePatternIff` | sms-sender/src/main/java/com/example/demo/model/SmsRequest.java:8 | The pattern accepts a string if and only if it is an optional '+' followed by 10 to 15 ASCII digits whose first digit is not '0'. |
| `Requests.IsValid` | sms-sender/src/main/java/com/example/demo/model/SmsRequest.java:7-11 | A request passes all three constraints if and only if its phone number is present and well formed and its message is present and holds a visible character. |
| `Requests.Violations` | sms-sender/src/main/java/com/example/demo/model/SmsRequest.java:7-10 | Each constraint's own message is reported if and only if that constraint fails. Nothing is reported if and only if the request is valid. |
| `Requests.AcceptsPlainInternationalNumber` | sms-sender/src/test/java/com/example/demo/SmsSenderApplicationTests.java:35-57 | "+1234567890" with the message "Hello World" is valid. |
| `Requests.RejectsIllFormed` | sms-sender/src/main/java/com/example/demo/model/SmsRequest.java:8 | A phone number that is not well formed makes the request invalid, whatever the message. |
| `Requests.RejectsLeadingZero` | sms-sender/src/test/java/com/example/demo/SmsSenderApplicationTests.java:60-75 | "0123456789" is rejected. |
| `Requests.RejectsWrongLength` | sms-sender/src/test/java/com/example/demo/SmsSenderApplicationTests.java:78-109 | "+12" (too few digits) and "+12345678901234567890" (too many) are rejected. |
| `Requests.RejectsNonDigits` | sms-sender/src/test/java/com/example/demo/SmsSenderApplicationTests.java:112-143 | "+123abc7890" and "+123-456-7890" are rejected. |
| `Requests.RejectsMissingFields` | sms-sender/src/test/java/com/example/demo/SmsSenderApplicationTests.java:146-192 | A missing or empty phone number is rejected, and so is a missing or empty message. |
| `Orchestrator.Reply` | sms-sender/src/main/java/com/example/demo/service/SmsService.java:19-27 | The reply is the failure text if and only if the number is blocked. Otherwise it is "SMS sent to " followed by the phone number as Java's `+` renders it. |
| `Orchestrator.Outcome` | sms-sender/src/main/java/com/example/demo/service/SmsService.java:20-25 | The record carries the request's own phone number and message and no event id. Its status is "Sent" if and only if the number is not blocked, and equals the reply if and only if it is blocked. |
| `Orchestrator.Effects` | sms-sender/src/main/java/com/example/demo/service/SmsService.java:19-26 | One call makes two interactions when the number is blocked and three otherwise. The lookup of the request's key comes first and the publication of its outcome last. When not blocked, the gateway call with the request's fields comes in between. |
| `Orchestrator.LookupFirstAndOnce` | sms-sender/src/main/java/com/example/demo/service/SmsService.java:19 | The first interaction of a call is the lookup of the request's key, and the call makes exactly that one lookup. |
| `Orchestrator.BlacklistedOutcome` | sms-sender/src/main/java/com/example/demo/service/SmsService.java:19-23 | A blocked number gets "Failed: Phone number is blacklisted" and no gateway call. Exactly one record is published on "sms_events": the request's phone number and message, with status equal to the reply, and no event id. |
| `Orchestrator.SentOutcome` | sms-sender/src/main/java/com/example/demo/service/SmsService.java:24-27 | Any other number gets "SMS sent to " + phoneNumber. The gateway is called exactly once, with the request's phone number and message (any message, empty included). Exactly one "Sent" record carrying the same two fields is published. |
| `Orchestrator.DispatchBeforePublish` | sms-sender/src/main/java/com/example/demo/service/SmsService.java:24-26 | Publication is the last interaction on both branches. Every gateway call comes before every publication. |
| `Orchestrator.NeverWritesBlacklist` | sms-sender/src/main/java/com/example/demo/service/SmsService.java:16-28 | A call issues no Redis write on either branch. |
| `Orchestrator.ValidRequestReply` | sms-sender/src/main/java/com/example/demo/service/SmsService.java:27 | For any request whose phone number passes `@NotBlank`, which every validated request does, the success reply is "SMS sent to " followed by the phone number's own characters, never "null". |
| `Orchestrator.ManyCallsLookups` | sms-sender/src/test/java/com/example/demo/SmsServiceTest.java:138-155 | n calls make exactly n lookups, the i-th one of the i-th request's key (`Keys`). |
| `Orchestrator.ManyCallsPublished` | sms-sender/src/test/java/com/example/demo/SmsServiceTest.java:169-180 | n calls publish exactly n records on "sms_events", the i-th being the i-th request's outcome, on both branches. Identical requests are not merged. |
| `Orchestrator.ManyCallsDispatches` | sms-sender/src/main/java/com/example/demo/service/SmsService.java:19-24 | Over n calls, the gateway receives exactly the unblocked requests' (phone number, message) pairs, each once and in request order. |
| `Orchestrator.ManyCallsNeverWrite` | sms-sender/src/main/java/com/example/demo/service/SmsService.java:8-10 | However many calls are made, none writes to the block-list. |
| `Orchestrator.NoDeduplication` | sms-sender/src/main/java/com/example/demo/service/SmsService.java:16-28 | Sending the same unblocked request twice dispatches it twice and publishes two records. |
| `Orchestrator.SmsService.constructor` | sms-sender/src/main/java/com/example/demo/service/SmsService.java:11-15 | The service holds exactly the three collaborators it is given, and all three report into one journal. |
| `Orchestrator.SmsService.SendSms` | sms-sender/src/main/java/com/example/demo/service/SmsService.java:16-28 | The reply is `Reply(request, blocked)`. The journal grows by exactly `Effects(request, blocked)`, where `blocked` means the request's key is in the key space. The key space is unchanged. |
| `Orchestrator.ThreeCalls` | sms-sender/src/test/java/com/example/demo/SmsServiceTest.java:137-155 | Three consecutive calls return the three replies in order. The journal grows by `EffectsAll` of the three requests, and the block-list is untouched. Because the service keeps no state, the calls compose. |
| `Orchestrator.Scenarios` | sms-sender/src/test/java/com/example/demo/SmsServiceTest.java:48-86 | With the real collaborators wired to one block-list, "+1234567890" / "Test message" first gets "SMS sent to +1234567890", one lookup, one gateway call and one "Sent" record. Once the number is blocked, it gets the failure text, one lookup, no gateway call and one record whose status is that text. |
| `Orchestrator.ThreeCallsJournal` | sms-sender/src/main/java/com/example/demo/service/SmsService.java:16-28 | Three single-call journal extensions, one after another, equal the extension by the three-request sequence. |

## Left out

- The HTTP layer (`SmsControllerV1`): routing, JSON binding and the `ResponseEntity.ok` wrapping. The 400 response for an invalid request is not modelled; validity is a predicate.
- The Bean Validation machinery. `@NotBlank` is modelled on Hibernate Validator's rule, `trim().length() > 0`. That implementation is not part of this model.
- Java strings are sequences of UTF-16 code units. A Dafny `char` is a Unicode scalar value, so a supplementary character is one `char` here and a lone surrogate, which a Java string can hold, cannot be represented. No proved property depends on this: the U+0020 bound of `trim()`, the ASCII digit ranges and the injectivity of the prefixed key all carry over.
- `Blacklist.BlacklistCache.IsBlacklisted`: `Boolean.TRUE.equals` also maps a null `hasKey` reply to false. Redis gives such a reply inside a pipeline or transaction. In the model, the key space always answers.
- Redis and Kafka wire behaviour, Kafka's asynchronous send result and any collaborator failure or unavailability. The source has no error path for these.
- The Java sources of `TwillioService` and `SmsEvent` are not among the modelled files. `Gateway.TwillioService` is modelled from its call site alone, as a call record. `Events.SmsEvent` is modelled from its uses; its three-argument constructor is taken to leave the event id null.
- The `System.out` logging in `SmsEventProducer`.
- The mutable getters and setters of `SmsRequest` and `SmsEvent`. Both are immutable datatypes; `WithEventId` stands for `setEventId`.
- Concurrency. Calls are modelled one at a time. The many-call lemmas assume no administrative change to the block-list happens between calls; `sendSms` itself never changes it.
- The Go `smsstore` service: its HTTP server, Kafka consumer loop and MongoDB repository.
