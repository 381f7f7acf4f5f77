/**
 * `EventHubTranslationProducer`: publishes translation events to an Event Hub in capacity-bounded
 * batches that share one partition key, and keeps running counts of what it sent.
 */
module EventSender {
  import opened Wrappers
  import opened TranslationEvents
  import opened EventBatching
  import opened EventHub

  /** The exceptions the producer raises. */
  datatype ProducerError =
    | MissingSettings  // ValueError from the constructor
    | ConnectFailed    // the SDK refused the connection string
    | NotConnected     // RuntimeError: no client
    | EventTooLarge    // ValueError: an event does not fit even an empty batch
    | SendFailed       // a batch was refused on every one of its attempts

  /** The connection string and hub name the producer was built with. */
  datatype Settings = Settings(connectionString: string, eventhubName: string)

  const ConnectionStringVar: string := "EVENT_HUB_CONNECTION_STR"
  const HubNameVar: string := "EVENT_HUB_NAME"

  /** Python truthiness of an optional string: present and not empty. */
  predicate NonEmpty(o: Option<string>) {
    o.Some? && o.value != ""
  }

  /** `arg or os.environ.get(name)`. */
  function OrEnv(arg: Option<string>, env: map<string, string>, name: string): Option<string> {
    if NonEmpty(arg) then arg else if name in env then Some(env[name]) else None
  }

  /**
   * The settings the constructor ends up with: each argument, or the environment variable when
   * the argument is missing or empty; a ValueError when either is still missing or empty.
   */
  function ResolveSettings(connectionString: Option<string>, eventhubName: Option<string>, env: map<string, string>)
    : (r: Result<Settings, ProducerError>)
    ensures r.Ok? <==>
      && (NonEmpty(connectionString) || (ConnectionStringVar in env && env[ConnectionStringVar] != ""))
      && (NonEmpty(eventhubName) || (HubNameVar in env && env[HubNameVar] != ""))
    ensures r.Err? ==> r.error == MissingSettings
    ensures r.Ok? ==> r.value.connectionString != "" && r.value.eventhubName != ""
    ensures r.Ok? && NonEmpty(connectionString) ==> r.value.connectionString == connectionString.value
    ensures r.Ok? && !NonEmpty(connectionString) ==> r.value.connectionString == env[ConnectionStringVar]
    ensures r.Ok? && NonEmpty(eventhubName) ==> r.value.eventhubName == eventhubName.value
    ensures r.Ok? && !NonEmpty(eventhubName) ==> r.value.eventhubName == env[HubNameVar]
  {
    var cs := OrEnv(connectionString, env, ConnectionStringVar);
    var name := OrEnv(eventhubName, env, HubNameVar);
    if !NonEmpty(cs) || !NonEmpty(name) then Err(MissingSettings)
    else Ok(Settings(cs.value, name.value))
  }

  /** The events of one call as the hub receives them: `EventData(body=json.dumps(t.to_dict()))`. */
  function Serialised(translations: seq<TranslationEvent>, serialise: Dict -> string, clock: nat -> Timestamp)
    : (data: seq<EventData>)
    ensures |data| == |translations|
  {
    seq(|translations|, i requires 0 <= i < |translations| => EventData(serialise(ToDict(translations[i], clock(i)))))
  }

  /** What one call of `send_translation_events` on a connected producer returns and adds to the counts. */
  datatype CallEffect = CallEffect(
    result: Outcome<ProducerError>,
    delivered: seq<Batch>,  // the batches the hub accepted, in order
    attempts: nat,          // send attempts made
    batches: nat,           // added to batches_sent
    events: nat,            // added to events_sent
    errors: nat)            // added to errors

  /** The greedy packing of one call's events under the first event's partition key. */
  function Packed(translations: seq<TranslationEvent>, serialise: Dict -> string, clock: nat -> Timestamp,
                  maxBatchSize: nat): Packing
    requires translations != []
  {
    PackAll(PartitionKey(translations[0]), maxBatchSize, Serialised(translations, serialise, clock))
  }

  /**
   * Sending the batches of packing `p` in order to a hub that accepts its `k`-th attempt exactly
   * when `accepts(k)`, `start` attempts having been made before: delivery stops at the first batch
   * refused on all its attempts; then, or when an event too large for any batch stopped the
   * packing, the call fails.
   */
  function EffectOf(p: Packing, accepts: nat -> bool, budget: nat, start: nat): CallEffect {
    var bs := Batches(p);
    var d := Deliver(accepts, budget, start, |bs|);
    var result := if d.sent < |bs| then Fail(SendFailed) else if p.tooLarge then Fail(EventTooLarge) else Pass;
    CallEffect(result, bs[..d.sent], d.attempts, d.sent, |Flatten(bs[..d.sent])|, if result.Pass? then 0 else 1)
  }

  /**
   * The effect of `send_translation_events(translations)` on a connected producer whose hub takes
   * batches of at most `maxBatchSize` bytes: nothing for an empty list, otherwise the effect of
   * sending the greedy packing of the events.
   */
  function SendEffect(translations: seq<TranslationEvent>, serialise: Dict -> string, clock: nat -> Timestamp,
                      maxBatchSize: nat, accepts: nat -> bool, budget: nat, start: nat): CallEffect
  {
    if translations == [] then CallEffect(Pass, [], 0, 0, 0, 0)
    else EffectOf(Packed(translations, serialise, clock, maxBatchSize), accepts, budget, start)
  }

  /**
   * The call's events before index `i` were packed into the closed batches `closed` and the open
   * `batch`, for the first event's partition key, and the loop has not stopped.
   */
  ghost predicate PackedUpTo(translations: seq<TranslationEvent>, serialise: Dict -> string, clock: nat -> Timestamp,
                             maxBatchSize: nat, i: nat, closed: seq<Batch>, batch: Batch)
  {
    && translations != [] && i <= |translations|
    && batch.partitionKey == PartitionKey(translations[0]) && batch.maxSize == maxBatchSize
    && PackAll(PartitionKey(translations[0]), maxBatchSize, Serialised(translations, serialise, clock)[..i])
       == Packing(closed, batch, false)
  }

  /** The effect of a call ending with a send refused on all its attempts, `closed + [batch]` opening the batches. */
  lemma EffectOfFailedSend(p: Packing, accepts: nat -> bool, budget: nat, start: nat, closed: seq<Batch>, batch: Batch, at: nat)
    requires closed + [batch] <= Batches(p)
    requires DeliveredAll(accepts, budget, start, |closed|, at)
    requires !RetrySend(accepts, at, budget).ok
    ensures EffectOf(p, accepts, budget, start) == CallEffect(Fail(SendFailed), closed, at - start + budget, |closed|, |Flatten(closed)|, 1)
  {
    var bs := Batches(p);
    var rest := bs[|closed|..];
    assert bs == closed + rest;
    DeliverStops(accepts, budget, start, |closed|, |rest|, at);
    assert bs[..|closed|] == closed;
  }

  /** The effect of a call in which every batch of the packing was delivered. */
  lemma EffectOfAllSent(p: Packing, accepts: nat -> bool, budget: nat, start: nat, at: nat)
    requires DeliveredAll(accepts, budget, start, |Batches(p)|, at)
    ensures EffectOf(p, accepts, budget, start)
         == CallEffect(if p.tooLarge then Fail(EventTooLarge) else Pass, Batches(p), at - start, |Batches(p)|,
                       |Flatten(Batches(p))|, if p.tooLarge then 1 else 0)
  {
    assert Batches(p)[..|Batches(p)|] == Batches(p);
  }

  /**
   * A call whose events before `i` were packed into `closed` and the open `batch`, and in which
   * sending `batch` (when `i` is the end, or when the `i`-th event did not fit it) was refused on
   * every attempt: it fails with what `closed` delivered.
   */
  lemma RefusedAt(translations: seq<TranslationEvent>, serialise: Dict -> string, clock: nat -> Timestamp,
                  maxBatchSize: nat, accepts: nat -> bool, budget: nat, start: nat, i: nat, closed: seq<Batch>, batch: Batch, at: nat)
    requires PackedUpTo(translations, serialise, clock, maxBatchSize, i, closed, batch)
    requires i < |translations| ==> !Fits(batch, Serialised(translations, serialise, clock)[i])
    requires DeliveredAll(accepts, budget, start, |closed|, at)
    requires !RetrySend(accepts, at, budget).ok
    ensures SendEffect(translations, serialise, clock, maxBatchSize, accepts, budget, start)
         == CallEffect(Fail(SendFailed), closed, at - start + budget, |closed|, |Flatten(closed)|, 1)
  {
    var key := PartitionKey(translations[0]);
    var data := Serialised(translations, serialise, clock);
    if i < |translations| {
      PackNext(key, maxBatchSize, data, i, closed, batch);
      PackPrefix(key, maxBatchSize, data, i + 1);
    } else {
      assert data[..i] == data;
    }
    EffectOfFailedSend(PackAll(key, maxBatchSize, data), accepts, budget, start, closed, batch, at);
  }

  /**
   * A call in which the `i`-th event did not fit the open `batch`, `batch` was delivered behind
   * `closed`, and the event does not fit an empty batch either: it fails with `EventTooLarge`.
   */
  lemma TooLargeAt(translations: seq<TranslationEvent>, serialise: Dict -> string, clock: nat -> Timestamp,
                   maxBatchSize: nat, accepts: nat -> bool, budget: nat, start: nat, i: nat, closed: seq<Batch>, batch: Batch, at: nat)
    requires PackedUpTo(translations, serialise, clock, maxBatchSize, i, closed, batch) && i < |translations|
    requires !Fits(batch, Serialised(translations, serialise, clock)[i])
    requires !Fits(NewBatch(PartitionKey(translations[0]), maxBatchSize), Serialised(translations, serialise, clock)[i])
    requires DeliveredAll(accepts, budget, start, |closed + [batch]|, at)
    ensures SendEffect(translations, serialise, clock, maxBatchSize, accepts, budget, start)
         == CallEffect(Fail(EventTooLarge), closed + [batch], at - start, |closed| + 1, |Flatten(closed + [batch])|, 1)
  {
    var key := PartitionKey(translations[0]);
    var data := Serialised(translations, serialise, clock);
    PackNext(key, maxBatchSize, data, i, closed, batch);
    PackPrefix(key, maxBatchSize, data, i + 1);
    EffectOfAllSent(PackAll(key, maxBatchSize, data), accepts, budget, start, at);
  }

  /** A call whose packing ended with `closed` and the open `batch`, all of them delivered: it succeeds. */
  lemma AllSentAt(translations: seq<TranslationEvent>, serialise: Dict -> string, clock: nat -> Timestamp,
                  maxBatchSize: nat, accepts: nat -> bool, budget: nat, start: nat, closed: seq<Batch>, batch: Batch, at: nat)
    requires PackedUpTo(translations, serialise, clock, maxBatchSize, |translations|, closed, batch)
    requires DeliveredAll(accepts, budget, start, |closed + [batch]|, at)
    ensures SendEffect(translations, serialise, clock, maxBatchSize, accepts, budget, start)
         == CallEffect(Pass, closed + [batch], at - start, |closed| + 1, |Flatten(closed + [batch])|, 0)
  {
    var data := Serialised(translations, serialise, clock);
    assert data[..|translations|] == data;
    EffectOfAllSent(PackAll(PartitionKey(translations[0]), maxBatchSize, data), accepts, budget, start, at);
  }

  /**
   * A call delivers a prefix of the packing's batches and counts exactly those; it succeeds
   * exactly when all of them were delivered and no event was too large, and counts one error
   * otherwise.
   */
  lemma EffectOfAccounts(p: Packing, accepts: nat -> bool, budget: nat, start: nat)
    ensures var e := EffectOf(p, accepts, budget, start);
      && e.delivered <= Batches(p)
      && e.batches == |e.delivered| && e.events == |Flatten(e.delivered)|
      && (e.result.Pass? || e.result == Fail(SendFailed) || e.result == Fail(EventTooLarge))
      && (e.result.Pass? <==> e.delivered == Batches(p) && !p.tooLarge)
      && (e.result == Fail(EventTooLarge) <==> e.delivered == Batches(p) && p.tooLarge)
      && e.errors == if e.result.Pass? then 0 else 1
  {
    var bs := Batches(p);
    var d := Deliver(accepts, budget, start, |bs|);
    if d.sent == |bs| {
      assert bs[..d.sent] == bs;
    } else {
      assert |bs[..d.sent]| < |bs|;
    }
  }

  /**
   * Attempts of a call: at least one per delivered batch and at most `budget`; a call that failed
   * to send also spent the whole budget on the refused batch, every one of those attempts refused.
   */
  lemma EffectOfAttempts(p: Packing, accepts: nat -> bool, budget: nat, start: nat)
    ensures var e := EffectOf(p, accepts, budget, start);
      && e.batches <= e.attempts
      && (e.result != Fail(SendFailed) ==> e.attempts <= budget * e.batches)
      && (e.result == Fail(SendFailed) ==>
            && budget <= e.attempts <= budget * (e.batches + 1)
            && forall k | start + e.attempts - budget <= k < start + e.attempts :: !accepts(k))
  {
    var bs := Batches(p);
    var d := Deliver(accepts, budget, start, |bs|);
    DeliverAbortsOnFailure(accepts, budget, start, |bs|);
    if d.sent < |bs| {
      DeliverAttemptsBound(accepts, budget, start, d.sent);
      assert budget * (d.sent + 1) == budget * d.sent + budget;
    } else {
      DeliverAttemptsBound(accepts, budget, start, |bs|);
    }
  }

  /**
   * No event is lost, duplicated or reordered: the hub receives a prefix of the call's events
   * and, when the call succeeds, all of them, each counted once. An event too large for any batch
   * makes the call fail, and it is the only reason besides a refused send.
   */
  lemma SendEffectAccounts(translations: seq<TranslationEvent>, serialise: Dict -> string, clock: nat -> Timestamp,
                           maxBatchSize: nat, accepts: nat -> bool, budget: nat, start: nat)
    ensures var e := SendEffect(translations, serialise, clock, maxBatchSize, accepts, budget, start);
      var data := Serialised(translations, serialise, clock);
      && (e.result.Pass? || e.result == Fail(SendFailed) || e.result == Fail(EventTooLarge))
      && e.errors == (if e.result.Pass? then 0 else 1)
      && e.batches == |e.delivered| && e.events == |Flatten(e.delivered)|
      && Flatten(e.delivered) <= data
      && (e.result.Pass? ==> Flatten(e.delivered) == data && e.events == |translations|)
      && ((exists j | 0 <= j < |data| :: WireSize(data[j]) > maxBatchSize) ==> e.result.Fail?)
      && (e.result == Fail(EventTooLarge) ==> exists j | 0 <= j < |data| :: WireSize(data[j]) > maxBatchSize)
  {
    if translations != [] {
      var key := PartitionKey(translations[0]);
      var data := Serialised(translations, serialise, clock);
      var p := PackAll(key, maxBatchSize, data);
      var e := EffectOf(p, accepts, budget, start);
      EffectOfAccounts(p, accepts, budget, start);
      PackPreservesOrder(key, maxBatchSize, data);
      var bs := Batches(p);
      FlattenPrefix(bs, |e.delivered|);
      assert bs[..|e.delivered|] == e.delivered;
      var k := FirstOversized(data, maxBatchSize);
      assert data[..k] <= data;
      if !p.tooLarge {
        assert data[..k] == data;
      }
    }
  }

  /**
   * Every batch of `bs` is bound for `key` and respects the limit `maxSize`; every batch after
   * the first holds an event, the first of which the batch before it refused.
   */
  ghost predicate WellPacked(bs: seq<Batch>, key: string, maxSize: nat) {
    && (forall b | b in bs :: b.partitionKey == key && b.maxSize == maxSize && TotalSize(b.items) <= maxSize)
    && Greedy(bs)
    && (forall j | 0 < j < |bs| :: bs[j].items != [])
  }

  /** The batches sent before a failure are as well packed as all of them. */
  lemma WellPackedPrefix(bs: seq<Batch>, key: string, maxSize: nat, k: nat)
    requires WellPacked(bs, key, maxSize) && k <= |bs|
    ensures WellPacked(bs[..k], key, maxSize)
  {
    var pre := bs[..k];
    forall j | 0 < j < |pre| ensures RejectedBy(pre, j) {
      assert RejectedBy(bs, j);
    }
    forall b | b in pre ensures b in bs {
      var j :| 0 <= j < |pre| && pre[j] == b;
      assert bs[j] == b;
    }
  }

  /** The packing of a call's events is well packed, and ends in a batch holding an event when no event is too large. */
  lemma PackedWell(key: string, maxSize: nat, data: seq<EventData>)
    requires data != []
    ensures WellPacked(Batches(PackAll(key, maxSize, data)), key, maxSize)
    ensures var p := PackAll(key, maxSize, data);
      !p.tooLarge ==> Batches(p)[|Batches(p)| - 1].items != []
  {
    var p := PackAll(key, maxSize, data);
    PackRespectsKeyAndCapacity(key, maxSize, data);
    PackIsGreedy(key, maxSize, data);
    PackBatchesNonEmpty(key, maxSize, data);
    PackPreservesOrder(key, maxSize, data);
    if !p.tooLarge {
      assert WireSize(data[0]) <= maxSize;
    }
  }

  /**
   * Every batch a call delivers carries the partition key of its first event and respects the
   * hub's limit; batches after the first are not empty and each was opened by an event the
   * batch before it refused; a successful call's last batch holds at least one event.
   */
  lemma SendEffectBatches(translations: seq<TranslationEvent>, serialise: Dict -> string, clock: nat -> Timestamp,
                          maxBatchSize: nat, accepts: nat -> bool, budget: nat, start: nat)
    requires translations != []
    ensures var e := SendEffect(translations, serialise, clock, maxBatchSize, accepts, budget, start);
      && WellPacked(e.delivered, PartitionKey(translations[0]), maxBatchSize)
      && (e.result.Pass? ==> e.delivered != [] && e.delivered[|e.delivered| - 1].items != [])
  {
    var key := PartitionKey(translations[0]);
    var data := Serialised(translations, serialise, clock);
    var p := PackAll(key, maxBatchSize, data);
    var e := EffectOf(p, accepts, budget, start);
    EffectOfAccounts(p, accepts, budget, start);
    PackedWell(key, maxBatchSize, data);
    WellPackedPrefix(Batches(p), key, maxBatchSize, |e.delivered|);
    assert Batches(p)[..|e.delivered|] == e.delivered;
  }

  /**
   * A successful call sends one batch per event the open batch refused, plus the final batch; a
   * call stopped by an oversized event sends one per refused event, the oversized one included.
   */
  lemma SendEffectBatchCount(translations: seq<TranslationEvent>, serialise: Dict -> string, clock: nat -> Timestamp,
                             maxBatchSize: nat, accepts: nat -> bool, budget: nat, start: nat)
    requires translations != []
    ensures var e := SendEffect(translations, serialise, clock, maxBatchSize, accepts, budget, start);
      var data := Serialised(translations, serialise, clock);
      var overflows := Overflows(PartitionKey(translations[0]), maxBatchSize, data, |data|);
      && (e.result.Pass? ==> e.batches == overflows + 1)
      && (e.result == Fail(EventTooLarge) ==> e.batches == overflows)
      && e.batches <= overflows + 1
  {
    var key := PartitionKey(translations[0]);
    var data := Serialised(translations, serialise, clock);
    var p := PackAll(key, maxBatchSize, data);
    EffectOfAccounts(p, accepts, budget, start);
    PackBatchCount(key, maxBatchSize, data);
  }

  /** Attempts of a call, as EffectOfAttempts states them for its packing. */
  lemma SendEffectAttempts(translations: seq<TranslationEvent>, serialise: Dict -> string, clock: nat -> Timestamp,
                           maxBatchSize: nat, accepts: nat -> bool, budget: nat, start: nat)
    ensures var e := SendEffect(translations, serialise, clock, maxBatchSize, accepts, budget, start);
      && e.batches <= e.attempts
      && (e.result != Fail(SendFailed) ==> e.attempts <= budget * e.batches)
      && (e.result == Fail(SendFailed) ==>
            && budget <= e.attempts <= budget * (e.batches + 1)
            && forall k | start + e.attempts - budget <= k < start + e.attempts :: !accepts(k))
  {
    if translations != [] {
      EffectOfAttempts(Packed(translations, serialise, clock, maxBatchSize), accepts, budget, start);
    }
  }

  /**
   * `send_translation_event(t)`: one batch for `"<source>-to-<target>"` holding the event, or,
   * when the event is too large for any batch, the empty batch is sent first and the call then
   * fails; a batch refused on all its attempts fails the call with nothing delivered.
   */
  lemma SendOneEffect(t: TranslationEvent, serialise: Dict -> string, clock: nat -> Timestamp,
                      maxBatchSize: nat, accepts: nat -> bool, budget: nat, start: nat)
    ensures var d := EventData(serialise(ToDict(t, clock(0))));
      var first := RetrySend(accepts, start, budget);
      var sent := if WireSize(d) <= maxBatchSize then Batch(PartitionKey(t), maxBatchSize, [d])
                  else Batch(PartitionKey(t), maxBatchSize, []);
      SendEffect([t], serialise, clock, maxBatchSize, accepts, budget, start)
      == if !first.ok then CallEffect(Fail(SendFailed), [], budget, 0, 0, 1)
         else if WireSize(d) <= maxBatchSize then CallEffect(Pass, [sent], first.attempts, 1, 1, 0)
         else CallEffect(Fail(EventTooLarge), [sent], first.attempts, 1, 0, 1)
  {
    var d := EventData(serialise(ToDict(t, clock(0))));
    var data := Serialised([t], serialise, clock);
    assert data == [d];
    var p := PackAll(PartitionKey(t), maxBatchSize, data);
    PackOne(PartitionKey(t), maxBatchSize, d);
    DeliverCons(accepts, budget, start, 1);
    FlattenSnoc([], Batches(p)[0]);
  }

  /** The producer: its settings, its SDK client (`_producer`, null before `connect`) and its counters. */
  class EventHubTranslationProducer {
    const connectionString: string
    const eventhubName: string
    const maxAttempts: nat
    var client: HubClient?
    var eventsSent: nat
    var batchesSent: nat
    var errors: nat

    /** The part of `__init__` after the settings were found. */
    constructor (settings: Settings)
      requires settings.connectionString != "" && settings.eventhubName != ""
      ensures connectionString == settings.connectionString && eventhubName == settings.eventhubName
      ensures maxAttempts == MaxAttempts
      ensures client == null && eventsSent == 0 && batchesSent == 0 && errors == 0
    {
      connectionString := settings.connectionString;
      eventhubName := settings.eventhubName;
      maxAttempts := MaxAttempts;
      client := null;
      eventsSent, batchesSent, errors := 0, 0, 0;
    }

    /** `__init__`: the arguments or the environment must supply both settings; otherwise ValueError. */
    static method Create(connectionString: Option<string>, eventhubName: Option<string>, env: map<string, string>)
      returns (r: Result<EventHubTranslationProducer, ProducerError>)
      ensures ResolveSettings(connectionString, eventhubName, env).Err? ==> r == Err(MissingSettings)
      ensures ResolveSettings(connectionString, eventhubName, env).Ok? ==>
        && r.Ok? && fresh(r.value)
        && r.value.connectionString == ResolveSettings(connectionString, eventhubName, env).value.connectionString
        && r.value.eventhubName == ResolveSettings(connectionString, eventhubName, env).value.eventhubName
        && r.value.maxAttempts == MaxAttempts && r.value.client == null
        && r.value.eventsSent == 0 && r.value.batchesSent == 0 && r.value.errors == 0
    {
      var settings := ResolveSettings(connectionString, eventhubName, env);
      if settings.Err? {
        return Err(settings.error);
      }
      var producer := new EventHubTranslationProducer(settings.value);
      return Ok(producer);
    }

    /**
     * `connect`: builds a new client for a hub taking batches of at most `maxBatchSize` bytes and
     * accepting the send attempts `accepts` allows; when the SDK refuses the connection string
     * (`parses` false) the error is re-raised and nothing changes. No counter moves either way.
     */
    method Connect(parses: bool, maxBatchSize: nat, accepts: nat -> bool) returns (r: Outcome<ProducerError>)
      modifies this
      ensures parses ==> r == Pass && client != null && fresh(client)
      ensures parses ==> client.maxBatchSize == maxBatchSize && client.accepts == accepts
      ensures parses ==> client.attempts == 0 && client.delivered == [] && !client.isClosed
      ensures !parses ==> r == Fail(ConnectFailed) && client == old(client)
      ensures eventsSent == old(eventsSent) && batchesSent == old(batchesSent) && errors == old(errors)
    {
      if !parses {
        return Fail(ConnectFailed);
      }
      client := new HubClient(maxBatchSize, accepts);
      r := Pass;
    }

    /**
     * `close`: closes the client when there is one and does nothing otherwise. The client stays
     * set, so a later call closes it again; no counter moves.
     */
    method Close()
      modifies client
      ensures client == old(client)
      ensures old(client) != null ==> client.isClosed
      ensures old(client) != null ==> client.attempts == old(client.attempts) && client.delivered == old(client.delivered)
    {
      if client != null {
        client.Close();
      }
    }

    /** `_send_batch_with_retry`: up to `maxAttempts` attempts, stopping at the first the hub accepts. */
    method SendBatchWithRetry(batch: Batch) returns (ok: bool)
      requires client != null
      modifies client
      ensures ok == RetrySend(client.accepts, old(client.attempts), maxAttempts).ok
      ensures client.attempts == old(client.attempts) + RetrySend(client.accepts, old(client.attempts), maxAttempts).attempts
      ensures client.delivered == if ok then old(client.delivered) + [batch] else old(client.delivered)
      ensures client.isClosed == old(client.isClosed)
    {
      var hub := client;
      ghost var start := hub.attempts;
      ghost var outcome := RetrySend(hub.accepts, start, maxAttempts);
      ghost var left := maxAttempts;
      var attempt := 0;
      ok := false;
      while attempt < maxAttempts && !ok
        invariant 0 <= attempt <= maxAttempts && left == maxAttempts - attempt
        invariant hub.attempts == start + attempt
        invariant ok ==> outcome == Retry(attempt, true)
        invariant !ok ==> outcome.ok == RetrySend(hub.accepts, hub.attempts, left).ok
        invariant !ok ==> outcome.attempts == attempt + RetrySend(hub.accepts, hub.attempts, left).attempts
        invariant hub.delivered == if ok then old(hub.delivered) + [batch] else old(hub.delivered)
        invariant hub.isClosed == old(hub.isClosed)
      {
        RetryStep(hub.accepts, hub.attempts, left);
        ok := hub.SendBatch(batch);
        attempt, left := attempt + 1, left - 1;
      }
    }

    /**
     * The step `send_translation_events` takes at both of its sends: the batch goes out with
     * retries and, once the hub accepted it, the batch and its events are counted. `closed` are
     * the batches this call delivered before, from `start` attempts on.
     */
    method SendAndCount(batch: Batch, count: nat, ghost start: nat, ghost closed: seq<Batch>) returns (ok: bool)
      requires client != null && DeliveredAll(client.accepts, maxAttempts, start, |closed|, client.attempts)
      modifies this, client
      ensures client == old(client)
      ensures ok == RetrySend(client.accepts, old(client.attempts), maxAttempts).ok
      ensures !ok ==> client.attempts == old(client.attempts) + maxAttempts
      ensures ok ==> DeliveredAll(client.accepts, maxAttempts, start, |closed + [batch]|, client.attempts)
      ensures client.delivered == if ok then old(client.delivered) + [batch] else old(client.delivered)
      ensures batchesSent == old(batchesSent) + (if ok then 1 else 0)
      ensures eventsSent == old(eventsSent) + (if ok then count else 0)
      ensures errors == old(errors) && client.isClosed == old(client.isClosed)
    {
      ghost var before := client.attempts;
      ok := SendBatchWithRetry(batch);
      if ok {
        DeliverSnoc(client.accepts, maxAttempts, start, |closed|, before);
        batchesSent := batchesSent + 1;
        eventsSent := eventsSent + count;
      }
    }

    /**
     * One pass of the body of the `for` loop of `send_translation_events`, up to the exception
     * handlers: the event joins the open batch when it fits; otherwise the open batch is sent with
     * retries and counted, and the event opens a new batch for the same key, which raises
     * `EventTooLarge` when even an empty batch cannot take it.
     */
    method Absorb(batch: Batch, count: nat, eventData: EventData, ghost start: nat, ghost closed: seq<Batch>)
      returns (r: Outcome<ProducerError>, next: Batch, nextCount: nat)
      requires client != null && DeliveredAll(client.accepts, maxAttempts, start, |closed|, client.attempts)
      modifies this, client
      ensures client == old(client) && errors == old(errors) && client.isClosed == old(client.isClosed)
      ensures Fits(batch, eventData) ==>
        && r == Pass && Some(next) == TryAdd(batch, eventData) && nextCount == count + 1
        && client.attempts == old(client.attempts) && client.delivered == old(client.delivered)
        && batchesSent == old(batchesSent) && eventsSent == old(eventsSent)
      ensures !Fits(batch, eventData) && !RetrySend(client.accepts, old(client.attempts), maxAttempts).ok ==>
        && r == Fail(SendFailed)
        && client.attempts == old(client.attempts) + maxAttempts && client.delivered == old(client.delivered)
        && batchesSent == old(batchesSent) && eventsSent == old(eventsSent)
      ensures !Fits(batch, eventData) && RetrySend(client.accepts, old(client.attempts), maxAttempts).ok ==>
        && DeliveredAll(client.accepts, maxAttempts, start, |closed + [batch]|, client.attempts)
        && client.delivered == old(client.delivered) + [batch]
        && batchesSent == old(batchesSent) + 1 && eventsSent == old(eventsSent) + count
        && (r.Pass? <==> Fits(NewBatch(batch.partitionKey, batch.maxSize), eventData))
        && (r.Fail? ==> r == Fail(EventTooLarge))
        && (r.Pass? ==> Some(next) == TryAdd(NewBatch(batch.partitionKey, batch.maxSize), eventData) && nextCount == 1)
    {
      var added := TryAdd(batch, eventData);
      if added.Some? {
        return Pass, added.value, count + 1;
      }
      var ok := SendAndCount(batch, count, start, closed);
      if !ok {
        return Fail(SendFailed), batch, count;
      }
      var again := TryAdd(NewBatch(batch.partitionKey, batch.maxSize), eventData);
      if again.None? {
        return Fail(EventTooLarge), batch, count;
      }
      r, next, nextCount := Pass, again.value, 1;
    }

    /**
     * One pass of the `for` loop of `send_translation_events` over the `k`-th event, with the events
     * before it packed into `closed` and the open `batch`, `closed` already delivered behind the
     * batches `delivered0`. It keeps the loop going with the packing of one more event, or stops it
     * the way `PackAndSend` describes.
     */
    method PackEvent(translations: seq<TranslationEvent>, serialise: Dict -> string, clock: nat -> Timestamp,
                     k: nat, batch: Batch, count: nat, ghost start: nat, ghost closed: seq<Batch>,
                     ghost delivered0: seq<Batch>, ghost batches0: nat, ghost events0: nat)
      returns (r: Outcome<ProducerError>, next: Batch, nextCount: nat, ghost nextClosed: seq<Batch>)
      requires client != null && k < |translations|
      requires PackedUpTo(translations, serialise, clock, client.maxBatchSize, k, closed, batch)
      requires count == |batch.items| && (k > 0 ==> count > 0)
      requires DeliveredAll(client.accepts, maxAttempts, start, |closed|, client.attempts)
      requires client.delivered == delivered0 + closed
      requires batchesSent == batches0 + |closed| && eventsSent == events0 + |Flatten(closed)|
      modifies this, client
      ensures client == old(client) && errors == old(errors) && client.isClosed == old(client.isClosed)
      ensures r.Pass? || r == Fail(SendFailed) || r == Fail(EventTooLarge)
      ensures r.Fail? ==> !Fits(batch, Serialised(translations, serialise, clock)[k])
      ensures r == Fail(SendFailed) ==>
        && !RetrySend(client.accepts, old(client.attempts), maxAttempts).ok
        && client.attempts == old(client.attempts) + maxAttempts
        && client.delivered == old(client.delivered)
        && batchesSent == old(batchesSent) && eventsSent == old(eventsSent)
      ensures r == Fail(EventTooLarge) ==>
        && !Fits(NewBatch(batch.partitionKey, batch.maxSize), Serialised(translations, serialise, clock)[k])
        && DeliveredAll(client.accepts, maxAttempts, start, |closed + [batch]|, client.attempts)
        && client.delivered == delivered0 + (closed + [batch])
        && batchesSent == batches0 + |closed + [batch]| && eventsSent == events0 + |Flatten(closed + [batch])|
      ensures r.Pass? ==>
        && PackedUpTo(translations, serialise, clock, client.maxBatchSize, k + 1, nextClosed, next)
        && nextCount == |next.items| > 0
        && DeliveredAll(client.accepts, maxAttempts, start, |nextClosed|, client.attempts)
        && client.delivered == delivered0 + nextClosed
        && batchesSent == batches0 + |nextClosed| && eventsSent == events0 + |Flatten(nextClosed)|
    {
      var hub := client;
      ghost var data := Serialised(translations, serialise, clock);
      var eventData := EventData(serialise(ToDict(translations[k], clock(k))));
      assert eventData == data[k];
      PackNext(batch.partitionKey, hub.maxBatchSize, data, k, closed, batch);
      r, next, nextCount := Absorb(batch, count, eventData, start, closed);
      nextClosed := closed;
      if r != Fail(SendFailed) && !Fits(batch, eventData) {
        FlattenSnoc(closed, batch);
        AppendOne(delivered0, closed, batch);
        nextClosed := closed + [batch];
      }
    }

    /**
     * The `for` loop of `send_translation_events` on a connected producer. When it fails, it
     * stopped at the `i`-th event: the events before it were packed into `closed` and the open
     * `batch`, the event did not fit `batch`, and either sending `batch` was refused on all its
     * attempts, from attempt `at` on, or `batch` was delivered and the event does not fit an empty
     * batch either. Otherwise every event was packed, `closed` was delivered and `batch` of
     * `count` events is still open.
     */
    method PackAndSend(translations: seq<TranslationEvent>, serialise: Dict -> string, clock: nat -> Timestamp)
      returns (r: Outcome<ProducerError>, batch: Batch, count: nat, ghost closed: seq<Batch>, ghost i: nat, ghost at: nat)
      requires client != null && translations != []
      modifies this, client
      ensures client == old(client) && errors == old(errors) && client.isClosed == old(client.isClosed)
      ensures r.Pass? || r == Fail(SendFailed) || r == Fail(EventTooLarge)
      ensures PackedUpTo(translations, serialise, clock, client.maxBatchSize, if r.Pass? then |translations| else i, closed, batch)
      ensures r.Fail? ==> i < |translations| && !Fits(batch, Serialised(translations, serialise, clock)[i])
      ensures r == Fail(SendFailed) ==>
        && DeliveredAll(client.accepts, maxAttempts, old(client.attempts), |closed|, at) && !RetrySend(client.accepts, at, maxAttempts).ok
        && client.attempts == at + maxAttempts
      ensures r == Fail(EventTooLarge) ==>
        && !Fits(NewBatch(batch.partitionKey, batch.maxSize), Serialised(translations, serialise, clock)[i])
        && DeliveredAll(client.accepts, maxAttempts, old(client.attempts), |closed + [batch]|, client.attempts)
      ensures r.Pass? ==>
        && count == |batch.items| > 0
        && DeliveredAll(client.accepts, maxAttempts, old(client.attempts), |closed|, client.attempts)
      ensures var sent := if r == Fail(EventTooLarge) then closed + [batch] else closed;
        && client.delivered == old(client.delivered) + sent
        && batchesSent == old(batchesSent) + |sent|
        && eventsSent == old(eventsSent) + |Flatten(sent)|
    {
      var hub := client;
      ghost var start := hub.attempts;
      ghost var delivered := hub.delivered;
      ghost var batches0, events0 := batchesSent, eventsSent;
      batch := NewBatch(PartitionKey(translations[0]), hub.maxBatchSize);
      count := 0;
      closed := [];
      assert Serialised(translations, serialise, clock)[..0] == [];
      var k := 0;
      while k < |translations|
        invariant client == hub && errors == old(errors) && hub.isClosed == old(hub.isClosed)
        invariant PackedUpTo(translations, serialise, clock, hub.maxBatchSize, k, closed, batch)
        invariant count == |batch.items| && (k > 0 ==> count > 0)
        invariant DeliveredAll(hub.accepts, maxAttempts, start, |closed|, hub.attempts)
        invariant hub.delivered == delivered + closed
        invariant batchesSent == batches0 + |closed|
        invariant eventsSent == events0 + |Flatten(closed)|
      {
        ghost var before := hub.attempts;
        var outcome, next, nextCount;
        ghost var nextClosed;
        outcome, next, nextCount, nextClosed := PackEvent(translations, serialise, clock, k, batch, count, start, closed,
                                                          delivered, batches0, events0);
        if outcome.Fail? {
          return outcome, batch, count, closed, k, before;
        }
        batch, count, closed := next, nextCount, nextClosed;
        k := k + 1;
      }
      r, i, at := Pass, k, hub.attempts;
    }

    /**
     * `send_translation_events` on a connected producer and a non-empty list: the loop, the
     * final send of the open batch, and the handler that counts an error and re-raises.
     */
    method SendAll(translations: seq<TranslationEvent>, serialise: Dict -> string, clock: nat -> Timestamp)
      returns (r: Outcome<ProducerError>)
      requires client != null && translations != []
      modifies this, client
      ensures client == old(client)
      ensures var e := SendEffect(translations, serialise, clock, client.maxBatchSize, client.accepts, maxAttempts, old(client.attempts));
        && r == e.result
        && client.delivered == old(client.delivered) + e.delivered
        && client.attempts == old(client.attempts) + e.attempts
        && batchesSent == old(batchesSent) + e.batches
        && eventsSent == old(eventsSent) + e.events
        && errors == old(errors) + e.errors
        && client.isClosed == old(client.isClosed)
    {
      var hub := client;
      ghost var start := hub.attempts;
      var batch: Batch, eventsInCurrentBatch: nat;
      ghost var closed: seq<Batch>, i: nat, at: nat;
      ghost var delivered0 := hub.delivered;
      r, batch, eventsInCurrentBatch, closed, i, at := PackAndSend(translations, serialise, clock);
      ghost var sent: seq<Batch>;
      if r.Pass? {
        ghost var before := hub.attempts;
        var ok := SendAndCount(batch, eventsInCurrentBatch, start, closed);
        if ok {
          FlattenSnoc(closed, batch);
          AppendOne(delivered0, closed, batch);
          AllSentAt(translations, serialise, clock, hub.maxBatchSize, hub.accepts, maxAttempts, start, closed, batch, hub.attempts);
          sent := closed + [batch];
        } else {
          RefusedAt(translations, serialise, clock, hub.maxBatchSize, hub.accepts, maxAttempts, start, |translations|, closed, batch, before);
          r, sent := Fail(SendFailed), closed;
        }
      } else if r == Fail(SendFailed) {
        RefusedAt(translations, serialise, clock, hub.maxBatchSize, hub.accepts, maxAttempts, start, i, closed, batch, at);
        sent := closed;
      } else {
        TooLargeAt(translations, serialise, clock, hub.maxBatchSize, hub.accepts, maxAttempts, start, i, closed, batch, hub.attempts);
        sent := closed + [batch];
      }
      assert hub.delivered == delivered0 + sent;
      if r.Fail? {
        errors := errors + 1;
      }
    }

    /**
     * `send_translation_events`: RuntimeError without a client; nothing at all for an empty list;
     * otherwise the effect `SendEffect` describes, on the hub and on the counters. Every failure
     * adds one to `errors`; what earlier batches added to the other counters stays.
     */
    method SendTranslationEvents(translations: seq<TranslationEvent>, serialise: Dict -> string, clock: nat -> Timestamp)
      returns (r: Outcome<ProducerError>)
      modifies this, client
      ensures client == old(client)
      ensures old(client) == null ==> r == Fail(NotConnected)
      ensures old(client) == null ==> eventsSent == old(eventsSent) && batchesSent == old(batchesSent) && errors == old(errors)
      ensures old(client) != null ==>
        var e := SendEffect(translations, serialise, clock, client.maxBatchSize, client.accepts, maxAttempts, old(client.attempts));
        && r == e.result
        && client.delivered == old(client.delivered) + e.delivered
        && client.attempts == old(client.attempts) + e.attempts
        && batchesSent == old(batchesSent) + e.batches
        && eventsSent == old(eventsSent) + e.events
        && errors == old(errors) + e.errors
        && client.isClosed == old(client.isClosed)
    {
      if client == null {
        return Fail(NotConnected);
      }
      if translations == [] {
        return Pass;
      }
      r := SendAll(translations, serialise, clock);
    }

    /** `send_translation_event`: the list holding just `t`. */
    method SendTranslationEvent(t: TranslationEvent, serialise: Dict -> string, clock: nat -> Timestamp)
      returns (r: Outcome<ProducerError>)
      modifies this, client
      ensures client == old(client)
      ensures old(client) == null ==> r == Fail(NotConnected)
      ensures old(client) == null ==> eventsSent == old(eventsSent) && batchesSent == old(batchesSent) && errors == old(errors)
      ensures old(client) != null ==>
        var e := SendEffect([t], serialise, clock, client.maxBatchSize, client.accepts, maxAttempts, old(client.attempts));
        && r == e.result
        && client.delivered == old(client.delivered) + e.delivered
        && client.attempts == old(client.attempts) + e.attempts
        && batchesSent == old(batchesSent) + e.batches
        && eventsSent == old(eventsSent) + e.events
        && errors == old(errors) + e.errors
        && client.isClosed == old(client.isClosed)
    {
      r := SendTranslationEvents([t], serialise, clock);
    }

    /**
     * `async with producer: await producer.send_translation_events(translations)`: `__aenter__`
     * connects, and `__aexit__` closes the new client whether the call succeeded or raised.
     */
    method SendInSession(parses: bool, maxBatchSize: nat, accepts: nat -> bool,
                         translations: seq<TranslationEvent>, serialise: Dict -> string, clock: nat -> Timestamp)
      returns (r: Outcome<ProducerError>)
      modifies this
      ensures !parses ==> r == Fail(ConnectFailed) && client == old(client)
      ensures !parses ==> eventsSent == old(eventsSent) && batchesSent == old(batchesSent) && errors == old(errors)
      ensures parses ==> client != null && fresh(client) && client.isClosed
      ensures parses ==>
        var e := SendEffect(translations, serialise, clock, maxBatchSize, accepts, maxAttempts, 0);
        && r == e.result
        && client.delivered == e.delivered && client.attempts == e.attempts
        && batchesSent == old(batchesSent) + e.batches
        && eventsSent == old(eventsSent) + e.events
        && errors == old(errors) + e.errors
    {
      r := Connect(parses, maxBatchSize, accepts);
      if r.Fail? {
        return;
      }
      r := SendTranslationEvents(translations, serialise, clock);
      Close();
    }
  }
}
