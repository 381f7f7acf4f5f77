# Event Hub translation producer and translator relay, in Dafny

This project models two pieces of a live speech-translation system.

The first is `EventHubTranslationProducer` (event_sender.py). It packs translation events greedily,
in order, into batches whose size is capped by the hub. Every batch in one call uses the partition
key of the first event. Each batch is sent with up to three attempts. The producer keeps the
`events_sent`, `batches_sent` and `errors` counters across calls.

The second is the server side of the translator app (translator_app.py): the `ConnectionManager`
broadcast hub, the input rules of the `/publish` handler, and `translate_text` with its echo
fallback.

Modules and files:

- `wrappers.dfy`, `Wrappers`: `Option`, `Outcome` and `Result`.
- `translation_event.dfy`, `TranslationEvents`: the `TranslationEvent` record, `to_dict` over a
  key datatype `Field`, the inverse `FromDict`, and the partition key.
- `event_batch.dfy`, `EventBatching`:
  - `EventData` and `Batch` (`EventDataBatch` with `add` as `TryAdd`).
  - The packing the `for` loop performs, written as a pure left fold: `PackStep` and `PackAll`.
  - Its properties: every batch uses the key and respects the limit; nothing is lost, duplicated
    or reordered; the packing is greedy; only the first batch can be empty; the batch count.
- `event_hub.dfy`, `EventHub`:
  - The SDK client as a class, `HubClient`. It records the attempts made and the batches it
    accepted.
  - The hub's answers are an oracle `accepts(k)`: whether the `k`-th send attempt ever made on
    this client goes through.
  - `RetrySend` is the three-attempt policy of `_send_batch_with_retry`.
  - `Deliver` sends a sequence of batches in order and stops at the first batch whose attempts
    are all refused.
- `producer.dfy`, `EventSender`:
  - The producer class. Its fields are the settings, `client` (the `_producer` field, `null`
    before `connect`), the retry budget `maxAttempts` (set to 3) and the three counters.
  - Its methods are proved against the specification function `SendEffect`. That function packs
    the events, then delivers the packing.
  - The lemmas beside them state what a call delivers and counts.
- `text_rules.dfy`, `TextRules`: Python's `str.strip()` with no arguments, and its properties.
- `translator_app.dfy`, `TranslatorApp`:
  - JSON values and Python truthiness.
  - `ParsePublish`: the input rules of `publish`.
  - `TranslateText`, with the HTTP round trip as an oracle.
  - The `WebSocket` and `ConnectionManager` classes.
  - The `Publish` handler.

Behaviour the model keeps as the code has it:

- A call stops at its first failure. The batches after a batch refused on all its attempts are
  never sent.
- Counters already incremented for batches delivered earlier in the failing call stay incremented.
- tenacity retries after any exception, three attempts in all.
- An event too large for an empty batch stops the call.
  - The open batch is still sent and counted first. It is an empty batch when the oversized event
    is the first event.
  - The second `add` then raises, the handler counts one error, and the later events are never
    packed (`TooLargeAt`, `PackOversizedFirst`).
- `close` leaves `_producer` set, so a second `close` closes the client again and logs again.

## Model

| member | source | states |
|---|---|---|
| TranslationEvents.ToDict | event_sender.py:34-47 | the dictionary has exactly the ten keys, `event_type` is always "translation" and `timestamp` is the clock reading taken at serialisation |
| TranslationEvents.ToDictRoundTrip | event_sender.py:36-46 | the eight event fields are copied unchanged: reading the dictionary back gives the event and the timestamp |
| TranslationEvents.ToDictInjective | event_sender.py:34-47 | two different events serialised at the same moment give different dictionaries |
| TranslationEvents.NameRoundTrip | event_sender.py:37-46 | each key is recovered from its JSON name |
| TranslationEvents.NamesDistinct | event_sender.py:37-46 | no two keys share a JSON name |
| TranslationEvents.PartitionKey | event_sender.py:129 | the key is the source language, then "-to-", then the target language |
| EventBatching.NewBatch | event_sender.py:130 | `create_batch` gives a batch with no events and size 0 |
| EventBatching.Fits | event_sender.py:138 | the capacity test of `add`: the bytes already in the batch plus the event's bytes stay within the batch's limit |
| EventBatching.TryAdd | event_sender.py:138 | `add` succeeds exactly when the event fits the remaining capacity, and then appends it at the end; otherwise (ValueError) the batch is unchanged |
| EventBatching.FirstOversized | event_sender.py:150-151 | the index of the first event too large for an empty batch: every earlier event fits alone, that one does not |
| EventBatching.FirstOversizedUnique | event_sender.py:150-151 | that index is the only one with those properties |
| EventBatching.PackStep | event_sender.py:137-152 | one pass of the loop body: add to the open batch; or close it and open a new batch with the event; or stop when even an empty batch refuses the event; nothing once stopped |
| EventBatching.PackAll | event_sender.py:131-152 | the loop over all events, starting from one empty batch for the first event's key; the lemmas below state its properties |
| EventBatching.PackAllInvariant | event_sender.py:133-152 | after every prefix of the events, the loop state is well formed, holds exactly those events in order, and was closed only on refused events |
| EventBatching.PackRespectsKeyAndCapacity | event_sender.py:129-130 | every batch of a call carries the key and limit it was opened with and stays within the limit, whatever the later events' languages |
| EventBatching.PackPreservesOrder | event_sender.py:133-152 | the batches hold the events in order, none lost or duplicated, up to the first oversized event; packing stops early exactly when some event is oversized |
| EventBatching.PackBatchesNonEmpty | event_sender.py:139-152 | only the first batch can be empty, exactly when the first event is oversized, and then it is the only batch |
| EventBatching.PackIsGreedy | event_sender.py:141-152 | every batch after the first was opened by an event that the batch before it refused |
| EventBatching.PackBatchCount | event_sender.py:141-159 | the batches number one per event that did not fit the open batch, plus the final open batch unless an oversized event stopped the loop |
| EventBatching.PackClosedCount | event_sender.py:141-145 | each event that hit the ValueError branch closed exactly one batch |
| EventBatching.PackNext | event_sender.py:137-152 | one loop pass: the event joins the open batch if it fits; otherwise the batch is closed and the event opens a new one, or stops the loop if it fits no batch |
| EventBatching.PackPrefix | event_sender.py:143-145 | a batch sent before later events are packed stays among the first batches sent; once an oversized event stopped the loop, later events change nothing |
| EventBatching.PackOne | event_sender.py:109-111 | a single event goes out in one batch, or an empty batch if it is oversized |
| EventBatching.PackTwoFitTogether | event_sender.py:137-139 | two events that fit together share one batch |
| EventBatching.PackThirdOverflows | event_sender.py:141-152 | an event that overflows the open batch opens a second batch |
| EventBatching.PackOversizedFirst | event_sender.py:143-151 | an oversized first event is preceded by one empty batch, and nothing after it is packed |
| EventHub.RetrySend | event_sender.py:104-107 | a send makes at most 3 attempts, at least one when the budget is not zero, and all 3 when it fails |
| EventHub.RetrySendMeaning | event_sender.py:104-107 | a send succeeds exactly when one of its attempts is accepted; the last attempt is the first accepted one, and every one before it was refused |
| EventHub.RetryAfterFailures | event_sender.py:104 | a hub that fails N times and then accepts gets the batch exactly when N < 3, after N + 1 attempts |
| EventHub.Deliver | event_sender.py:143-159 | the batches are sent in order, each with its retries, stopping at the first batch refused on all attempts; it never reports more batches delivered than it was given |
| EventHub.DeliverAbortsOnFailure | event_sender.py:143-170 | sending stops at the first batch refused on all its attempts; all batches before it went through; the batches after it are never tried |
| EventHub.DeliverAttemptsBound | event_sender.py:104 | n batches cost at most 3n attempts |
| EventHub.DeliverAppend | event_sender.py:143-156 | after n delivered batches, the next batches are sent from the attempt where those left off |
| EventHub.HubClient.constructor | event_sender.py:80-83 | `from_connection_string` gives an open client with no attempts and nothing delivered |
| EventHub.HubClient.SendBatch | event_sender.py:107 | one attempt: the batch is accepted and recorded exactly when the hub accepts that attempt |
| EventHub.HubClient.Close | event_sender.py:92 | the client is closed and nothing it delivered changes |
| EventSender.OrEnv | event_sender.py:54-55 | `arg or os.environ.get(name)`: the argument when it is non-empty, otherwise the environment variable if it is set |
| EventSender.ResolveSettings | event_sender.py:53-58 | each setting is the argument if it is non-empty, otherwise the environment variable; it is a ValueError exactly when either setting is still missing or empty |
| EventSender.EventHubTranslationProducer.Create | event_sender.py:53-66 | construction fails with MissingSettings when the settings cannot be resolved; otherwise the producer is unconnected and all counters are 0 |
| EventSender.EventHubTranslationProducer.constructor | event_sender.py:60-66 | a new producer has no client and zero counters |
| EventSender.EventHubTranslationProducer.Connect | event_sender.py:77-87 | on success the client is fresh, open and empty; on failure the error is re-raised and the client is unchanged; no counter moves |
| EventSender.EventHubTranslationProducer.Close | event_sender.py:89-94 | closes the client only if there is one; the client stays set |
| EventSender.EventHubTranslationProducer.SendBatchWithRetry | event_sender.py:104-107 | the loop makes exactly the attempts RetrySend describes, and the hub records the batch exactly when one was accepted |
| EventSender.EventHubTranslationProducer.SendAndCount | event_sender.py:143-145 | a delivered batch adds 1 to `batches_sent` and its event count to `events_sent`; a refused one changes no counter |
| EventSender.EventHubTranslationProducer.Absorb | event_sender.py:137-152 | the loop body, with each of its three outcomes: added; closed, sent and reopened; or failed |
| EventSender.EventHubTranslationProducer.PackEvent | event_sender.py:133-152 | one loop pass keeps the packing, the delivered batches and the counters in step with PackAll and Deliver |
| EventSender.EventHubTranslationProducer.PackAndSend | event_sender.py:131-152 | the `for` loop either packs all events, with the closed batches delivered, or stops at the failing event in one of the two ways the code fails |
| EventSender.EventHubTranslationProducer.SendAll | event_sender.py:127-170 | the result, the batches the hub received, the attempts and all three counters are exactly those of SendEffect; a failure adds 1 to `errors` |
| EventSender.EventHubTranslationProducer.SendTranslationEvents | event_sender.py:113-170 | with no client it fails with NotConnected and changes no counter; an empty list changes nothing; otherwise it has the effect of SendEffect |
| EventSender.EventHubTranslationProducer.SendTranslationEvent | event_sender.py:109-111 | it has the effect of sending the one-event list |
| EventSender.EventHubTranslationProducer.SendInSession | event_sender.py:68-75 | entering connects and leaving closes the fresh client whatever the call did; a failed connect changes nothing |
| EventSender.Serialised | event_sender.py:135 | one `EventData` per event, in order, holding the serialised `to_dict` of that event |
| EventSender.EffectOf | event_sender.py:143-170 | what a call does to the hub and the counters for a given packing: deliver its batches in order until one is refused on all attempts, then fail with SendFailed, or with EventTooLarge if packing stopped, or pass |
| EventSender.SendEffect | event_sender.py:113-170 | the whole-call effect that every producer method is proved against: nothing for an empty list, otherwise EffectOf of the greedy packing under the first event's key |
| EventSender.EffectOfAccounts | event_sender.py:143-170 | a call delivers a prefix of the packing and counts exactly it; it succeeds exactly when everything was delivered and no event was oversized; it ends with one error otherwise |
| EventSender.EffectOfAttempts | event_sender.py:104-107 | at least one attempt per delivered batch and at most 3; a refused batch used all 3 attempts, each one refused |
| EventSender.SendEffectAccounts | event_sender.py:133-161 | the hub receives a prefix of the call's events; on success it receives all of them and `events_sent` grows by the list's length; an oversized event makes the call fail, and EventTooLarge only happens when one exists; errors grow by at most 1 |
| EventSender.SendEffectBatches | event_sender.py:129-159 | everything delivered carries the first event's key and respects the limit, and batches after the first are nonempty and were opened on a refused event; on success the final batch holds an event |
| EventSender.SendEffectBatchCount | event_sender.py:141-158 | on success, `batches_sent` grows by the number of overflow events plus 1 |
| EventSender.SendEffectAttempts | event_sender.py:104-107 | the attempt bounds of EffectOfAttempts, for a whole call |
| EventSender.SendOneEffect | event_sender.py:109-111 | `send_translation_event` delivers one batch of the keyed event, sends an empty batch and fails when the event is oversized, and delivers nothing when the batch is refused 3 times |
| EventSender.TooLargeAt | event_sender.py:143-151 | an event that fits no batch still has the open batch sent and counted before the call fails with EventTooLarge |
| EventSender.RefusedAt | event_sender.py:143-170 | a batch refused on all attempts fails the call, with only the earlier batches delivered and counted |
| TextRules.IsSpace | translator_app.py:93 | the characters `str.isspace` accepts, which `strip()` removes |
| TextRules.Strip | translator_app.py:93 | the result is empty exactly when the text is all whitespace, and otherwise starts and ends with non-whitespace |
| TextRules.StripExact | translator_app.py:93 | stripping removes exactly the surrounding whitespace: trimmed text with whitespace around it strips back to itself |
| TextRules.StripIdempotent | translator_app.py:93 | stripping twice is the same as stripping once |
| TextRules.StripIsInfix | translator_app.py:93 | the result is the part of the text between its leading and its trailing whitespace |
| TextRules.StripExamples | translator_app.py:93-94 | whitespace-only text strips to nothing; text with whitespace around a word strips to the word |
| TranslatorApp.Truthy | translator_app.py:93-97 | Python truthiness of a decoded JSON value: `None`, `False`, zero and empty strings, lists and objects are false |
| TranslatorApp.GetOr | translator_app.py:93-97 | `payload.get(k) or d` is either the fallback or the payload's value, and it is true whenever the fallback is true |
| TranslatorApp.ParsePublish | translator_app.py:93-97 | missing, false or all-whitespace text gives 400 "empty text"; a non-string text makes `strip` raise (500); otherwise the text is stripped and the languages default to "en" and "ko" |
| TranslatorApp.PublishStripsAndDefaults | translator_app.py:93-97 | non-blank text with no languages is accepted stripped, as en to ko |
| TranslatorApp.PublishRefusesBlank | translator_app.py:93-95 | whitespace-only text is refused with 400, whatever else the request holds |
| TranslatorApp.PublishNumbers | translator_app.py:93 | the number 0 counts as missing text; another number makes `strip` raise |
| TranslatorApp.ConfigFromEnv | translator_app.py:26-28 | the service counts as configured exactly when both TRANSLATOR_KEY and TRANSLATOR_REGION are set and not empty, and the endpoint defaults when its variable is unset |
| TranslatorApp.TranslateParams | translator_app.py:77-78 | the query is API version 3.0 and the target language, plus `from` exactly when the source language is true |
| TranslatorApp.TranslateCall | translator_app.py:76-84 | the request a configured `translate_text` posts: URL, query parameters, the key, region and content-type headers, and the `[{"Text": text}]` body |
| TranslatorApp.Translation | translator_app.py:89 | `data[0]["translations"][0]["text"]`, or no value where that indexing raises |
| TranslatorApp.BroadcastBody | translator_app.py:99 | the broadcast object with the stripped transcript and the translation |
| TranslatorApp.TranslateCallParams | translator_app.py:76-84 | a configured call posts to "<endpoint>/translate" with those parameters and the text as its body |
| TranslatorApp.TranslateText | translator_app.py:73-75 | without a key and region the text is echoed unchanged |
| TranslatorApp.TranslateAnswered | translator_app.py:85-89 | a configured call whose answer holds a translation at `[0]["translations"][0]["text"]` returns exactly that translation |
| TranslatorApp.TranslateOneAnswer | translator_app.py:85-89 | the smallest documented answer, one translation of one text, returns that translation |
| TranslatorApp.TranslateRaises | translator_app.py:85-89 | a configured call raises exactly when the request fails or its answer holds no translation where it is read |
| TranslatorApp.TranslateNoTranslations | translator_app.py:89 | an answer with an empty `translations` list raises |
| TranslatorApp.PublishSendsFrom | translator_app.py:78 | the languages `publish` passes are always true, so a configured call always sends the `from` parameter |
| TranslatorApp.EchoWhenNotConfigured | translator_app.py:74-75 | without a key and region, the translation is the stripped text itself, and the broadcast body carries it twice: as the transcript and as the translation |
| TranslatorApp.FailedSends | translator_app.py:55-58 | exactly the sockets whose send raises |
| TranslatorApp.WebSocket.SendText | translator_app.py:57 | the message arrives exactly when the send succeeds |
| TranslatorApp.WebSocket.Accept | translator_app.py:51 | the handshake completes when it succeeds, and otherwise raises, leaving the socket unaccepted; nothing is sent |
| TranslatorApp.ConnectionManager.constructor | translator_app.py:48-49 | the manager starts with no sockets |
| TranslatorApp.ConnectionManager.Connect | translator_app.py:50-51 | a socket whose handshake succeeds is accepted and added to the active set; when the handshake raises, the active set is unchanged |
| TranslatorApp.ConnectionManager.Disconnect | translator_app.py:52-53 | removes the socket; nothing happens if it is absent |
| TranslatorApp.ConnectionManager.Broadcast | translator_app.py:54-59 | every socket active at the start gets one send; exactly those whose send raised are removed, and all others remain |
| TranslatorApp.ConnectionManager.SendToEach | translator_app.py:55-58 | the first loop sends to every active socket once and collects exactly those whose send raised |
| TranslatorApp.ConnectionManager.DisconnectAll | translator_app.py:59 | the second loop removes exactly the collected sockets |
| TranslatorApp.Publish | translator_app.py:91-100 | a refused request gets its error and nothing is translated or broadcast; a translation that raises gives 500 without a broadcast; otherwise the transcript and the translation are broadcast and the answer is `{"ok": true}` |

## Left out

- Timestamps: `datetime.now` in `to_dict` becomes a parameter `clock(i)`, which gives the timestamp text for the i-th event of a call. `start_time` and the duration in `_log_stats` are left out.
- Logging, including `_log_stats`: it has no effect on state.
- `json.dumps` is a parameter: `serialise` in the producer and `dumps` in `Publish`. The encoding itself is not modelled.
- `confidence_score` is an opaque 64-bit pattern. No floating-point arithmetic is done on it.
- JSON numbers in requests are modelled as reals.
- SDK internals:
  - A batch's size is the sum of its events' body lengths. The SDK's per-event and per-batch framing overhead is left out.
  - A failing `create_batch` is not modelled.
  - Whether the SDK accepts the connection string is the parameter `parses`.
- Network behaviour is modelled by oracles:
  - send attempts by `accepts`;
  - socket sends by `delivers`;
  - the Translator HTTP round trip by `service`.
- A refused send attempt is assumed to deliver nothing (`HubClient.SendBatch`). A send that reached the hub but raised afterwards, for example on a time-out, is not modelled; tenacity would retry it and the hub would then hold the batch twice.
- `start_time` is set at construction; it is left out with the other clock readings.
- tenacity's exponential wait between attempts is wall-clock behaviour and is left out. The attempt count is modelled.
- EventSender.EventHubTranslationProducer.SendBatchWithRetry: tenacity raises RetryError after the last attempt. The model folds it into SendFailed. Both `except` branches of the source count one error and re-raise, so the effect is the same.
- asyncio scheduling is left out. Each call runs to completion, and `async with` is modelled as connect, call, close (`SendInSession`).
- TranslatorApp.ConnectionManager.SendToEach: the order in which `list(self.active)` visits sockets is unspecified. The model picks any order, and nothing it proves depends on the order.
- TranslatorApp.TranslateText: a service answer that is not valid JSON is folded into `None` (raises).
- Routes and middleware are left out as web-framework wiring: `/ws` (`ws_stream`), `/ws/translate` (`translate_ws` and its recognition loop), `/speech/token`, `/speech/config`, `/`, `/health`, CORS and static files.
- Two module-level defects are not reproduced: `app` is used at translator_app.py:31 before it is defined at line 108, and `translator` is undefined at translator_app.py:138. The model treats the handlers as registered on a working app.
- The `SPEECH_KEY` and `SPEECH_REGION` settings (translator_app.py:24-25) serve only the left-out speech routes.
- translator-app.py and speech_demo.py are not part of this model. They are speech-SDK I/O loops.
