/**
 * Serialised events and the capacity-bounded batches `send_translation_events` fills.
 * `PackAll` is the packing the producer's loop performs when every send succeeds; the lemmas
 * at the end state what that packing guarantees.
 */
module EventBatching {
  import opened Wrappers

  /** One serialised event: the JSON text of its body. */
  datatype EventData = EventData(body: string)

  /** Bytes the event takes up in a batch. */
  function WireSize(d: EventData): nat {
    |d.body|
  }

  /** Bytes taken up by a sequence of events. */
  function TotalSize(items: seq<EventData>): nat {
    if items == [] then 0 else TotalSize(items[..|items| - 1]) + WireSize(items[|items| - 1])
  }

  lemma TotalSizeSnoc(items: seq<EventData>, d: EventData)
    ensures TotalSize(items + [d]) == TotalSize(items) + WireSize(d)
  {
    assert (items + [d])[..|items|] == items;
  }

  /** An `EventDataBatch`: the events added so far, all bound for one partition, and the byte limit. */
  datatype Batch = Batch(partitionKey: string, maxSize: nat, items: seq<EventData>)

  /** `create_batch(partition_key=key)` on a hub whose batches hold at most `maxSize` bytes. */
  function NewBatch(key: string, maxSize: nat): (b: Batch)
    ensures b.items == [] && TotalSize(b.items) == 0
  {
    Batch(key, maxSize, [])
  }

  /** Whether `d` can still be added to `b`. */
  predicate Fits(b: Batch, d: EventData) {
    TotalSize(b.items) + WireSize(d) <= b.maxSize
  }

  /** `EventDataBatch.add`: appends `d` when it fits; `None` is the ValueError of a full batch. */
  function TryAdd(b: Batch, d: EventData): (r: Option<Batch>)
    ensures r.Some? <==> Fits(b, d)
    ensures r.Some? ==> r.value == Batch(b.partitionKey, b.maxSize, b.items + [d])
    ensures r.Some? ==> TotalSize(r.value.items) == TotalSize(b.items) + WireSize(d) <= b.maxSize
  {
    if Fits(b, d) then
      TotalSizeSnoc(b.items, d);
      Some(b.(items := b.items + [d]))
    else None
  }

  /** The events of a sequence of batches, in order. */
  function Flatten(bs: seq<Batch>): seq<EventData> {
    if bs == [] then [] else Flatten(bs[..|bs| - 1]) + bs[|bs| - 1].items
  }

  lemma FlattenSnoc(bs: seq<Batch>, b: Batch)
    ensures Flatten(bs + [b]) == Flatten(bs) + b.items
  {
    assert (bs + [b])[..|bs|] == bs;
  }

  /** The events of the first `k` batches are a prefix of the events of all of them. */
  lemma {:induction false} FlattenPrefix(bs: seq<Batch>, k: nat)
    requires k <= |bs|
    ensures Flatten(bs[..k]) <= Flatten(bs)
  {
    if k == |bs| {
      assert bs[..k] == bs;
    } else {
      var init := bs[..|bs| - 1];
      assert init[..k] == bs[..k];
      FlattenPrefix(init, k);
      assert init + [bs[|bs| - 1]] == bs;
      FlattenSnoc(init, bs[|bs| - 1]);
    }
  }

  lemma AppendOne<T>(a: seq<T>, b: seq<T>, x: T)
    ensures (a + b) + [x] == a + (b + [x])
  {
  }

  /** Index of the first event too large for even an empty batch, or `|data|` when there is none. */
  function FirstOversized(data: seq<EventData>, maxSize: nat): (i: nat)
    ensures i <= |data|
    ensures forall j | 0 <= j < i :: WireSize(data[j]) <= maxSize
    ensures i < |data| ==> WireSize(data[i]) > maxSize
  {
    if data == [] then 0
    else if WireSize(data[0]) > maxSize then 0
    else 1 + FirstOversized(data[1..], maxSize)
  }

  /** The contract of FirstOversized determines its value. */
  lemma FirstOversizedUnique(data: seq<EventData>, maxSize: nat, i: nat)
    requires i <= |data|
    requires forall j | 0 <= j < i :: WireSize(data[j]) <= maxSize
    requires i < |data| ==> WireSize(data[i]) > maxSize
    ensures FirstOversized(data, maxSize) == i
  {
  }

  /**
   * The loop's state after some prefix of the events: the batches already closed (each of them
   * sent before the next was opened), the open batch, and whether an event too large for an
   * empty batch stopped the loop.
   */
  datatype Packing = Packing(closed: seq<Batch>, current: Batch, tooLarge: bool)

  /** One iteration of the loop: add to the open batch, or send it and add to a new one. */
  function PackStep(p: Packing, d: EventData): Packing {
    if p.tooLarge then p
    else
      var added := TryAdd(p.current, d);
      if added.Some? then p.(current := added.value)
      else
        var empty := NewBatch(p.current.partitionKey, p.current.maxSize);
        var again := TryAdd(empty, d);
        if again.Some? then Packing(p.closed + [p.current], again.value, false)
        else Packing(p.closed + [p.current], empty, true)
  }

  /** The loop's state after all of `data`, starting from one empty batch for `key`. */
  function PackAll(key: string, maxSize: nat, data: seq<EventData>): Packing {
    if data == [] then Packing([], NewBatch(key, maxSize), false)
    else PackStep(PackAll(key, maxSize, data[..|data| - 1]), data[|data| - 1])
  }

  /** The batches sent, in order, when every send succeeds: the open batch is sent last unless the loop stopped. */
  function Batches(p: Packing): seq<Batch> {
    if p.tooLarge then p.closed else p.closed + [p.current]
  }

  /** Every batch is bound for `key`, has limit `maxSize` and respects it. */
  ghost predicate WellFormed(bs: seq<Batch>, key: string, maxSize: nat) {
    forall j | 0 <= j < |bs| ::
      bs[j].partitionKey == key && bs[j].maxSize == maxSize && TotalSize(bs[j].items) <= maxSize
  }

  /** Greedy: the first event of every batch did not fit into the batch before it. */
  ghost predicate Greedy(bs: seq<Batch>) {
    forall j | 0 < j < |bs| :: RejectedBy(bs, j)
  }

  /** The first event of batch `j` was refused by batch `j - 1`. */
  ghost predicate RejectedBy(bs: seq<Batch>, j: nat)
    requires 0 < j < |bs|
  {
    bs[j].items != [] && !Fits(bs[j - 1], bs[j].items[0])
  }

  /** What holds of the loop's state after the events `data`. */
  ghost predicate PackInvariant(key: string, maxSize: nat, data: seq<EventData>, p: Packing) {
    && WellFormed(p.closed + [p.current], key, maxSize)
    && PackContents(maxSize, data, p)
    && PackOrder(maxSize, data, p)
  }

  /** The events held so far are those of `data`, up to the first one too large for a batch. */
  ghost predicate PackContents(maxSize: nat, data: seq<EventData>, p: Packing) {
    && (p.tooLarge <==> FirstOversized(data, maxSize) < |data|)
    && (p.tooLarge ==> Flatten(p.closed) == data[..FirstOversized(data, maxSize)] && p.current.items == [])
    && (!p.tooLarge ==> Flatten(p.closed) + p.current.items == data)
  }

  /** Which batches may be empty, and why each closed batch was closed. */
  ghost predicate PackOrder(maxSize: nat, data: seq<EventData>, p: Packing) {
    && (!p.tooLarge && data != [] ==> p.current.items != [])
    && (p.closed != [] ==> data != [])
    && (p.tooLarge ==> p.closed != [])
    && (p.closed != [] ==> (p.closed[0].items == [] <==> WireSize(data[0]) > maxSize))
    && (p.closed != [] && p.closed[0].items == [] ==> p.tooLarge && |p.closed| == 1)
    && (forall j | 0 < j < |p.closed| :: p.closed[j].items != [])
    && Greedy(p.closed)
    && (!p.tooLarge && p.closed != [] ==> !Fits(p.closed[|p.closed| - 1], p.current.items[0]))
  }

  lemma StepStopped(key: string, maxSize: nat, data: seq<EventData>, p: Packing, d: EventData)
    requires PackInvariant(key, maxSize, data, p) && p.tooLarge
    ensures PackInvariant(key, maxSize, data + [d], p)
  {
    var k := FirstOversized(data, maxSize);
    FirstOversizedUnique(data + [d], maxSize, k);
    assert (data + [d])[..k] == data[..k];
  }

  lemma StepAdd(key: string, maxSize: nat, data: seq<EventData>, p: Packing, d: EventData)
    requires PackInvariant(key, maxSize, data, p) && !p.tooLarge && Fits(p.current, d)
    ensures PackInvariant(key, maxSize, data + [d],
                          p.(current := Batch(p.current.partitionKey, p.current.maxSize, p.current.items + [d])))
  {
    var q := p.(current := Batch(p.current.partitionKey, p.current.maxSize, p.current.items + [d]));
    assert (p.closed + [p.current])[|p.closed|] == p.current;
    assert WireSize(d) <= maxSize;
    FirstOversizedUnique(data + [d], maxSize, |data + [d]|);
    TotalSizeSnoc(p.current.items, d);
    assert data != [] ==> q.current.items[0] == p.current.items[0];
    forall j | 0 <= j < |q.closed + [q.current]|
      ensures (q.closed + [q.current])[j].partitionKey == key
      ensures (q.closed + [q.current])[j].maxSize == maxSize
      ensures TotalSize((q.closed + [q.current])[j].items) <= maxSize
    {
      if j < |q.closed| {
        assert (q.closed + [q.current])[j] == (p.closed + [p.current])[j];
      } else {
        assert (p.closed + [p.current])[j] == p.current;
      }
    }
  }

  /** Closing the open batch keeps every batch well formed, as long as the new open batch is. */
  lemma CloseWellFormed(key: string, maxSize: nat, p: Packing, next: Batch)
    requires WellFormed(p.closed + [p.current], key, maxSize)
    requires next.partitionKey == key && next.maxSize == maxSize && TotalSize(next.items) <= maxSize
    ensures WellFormed((p.closed + [p.current]) + [next], key, maxSize)
  {
  }

  /** Closing an open batch that refused the event keeps the closed batches greedy. */
  lemma CloseGreedy(maxSize: nat, data: seq<EventData>, p: Packing)
    requires PackOrder(maxSize, data, p) && !p.tooLarge && data != []
    ensures Greedy(p.closed + [p.current])
  {
    var q := p.closed + [p.current];
    forall j | 0 < j < |q| ensures RejectedBy(q, j) {
      if j < |p.closed| {
        assert RejectedBy(p.closed, j);
      }
    }
  }

  lemma StepNewBatch(key: string, maxSize: nat, data: seq<EventData>, p: Packing, d: EventData)
    requires PackInvariant(key, maxSize, data, p) && !p.tooLarge && !Fits(p.current, d)
    requires WireSize(d) <= maxSize
    ensures PackInvariant(key, maxSize, data + [d], Packing(p.closed + [p.current], Batch(key, maxSize, [d]), false))
  {
    assert (p.closed + [p.current])[|p.closed|] == p.current;
    assert data == [] ==> p.closed == [] && p.current.items == [] && Fits(p.current, d);
    TotalSizeSnoc([], d);
    CloseWellFormed(key, maxSize, p, Batch(key, maxSize, [d]));
    NewBatchContents(maxSize, data, p, d);
    CloseGreedy(maxSize, data, p);
  }

  lemma NewBatchContents(maxSize: nat, data: seq<EventData>, p: Packing, d: EventData)
    requires PackContents(maxSize, data, p) && !p.tooLarge && WireSize(d) <= maxSize
    ensures PackContents(maxSize, data + [d], Packing(p.closed + [p.current], Batch(p.current.partitionKey, maxSize, [d]), false))
  {
    FirstOversizedUnique(data + [d], maxSize, |data + [d]|);
    FlattenSnoc(p.closed, p.current);
  }

  lemma OversizedContents(maxSize: nat, data: seq<EventData>, p: Packing, d: EventData, next: Batch)
    requires PackContents(maxSize, data, p) && !p.tooLarge && WireSize(d) > maxSize && next.items == []
    ensures PackContents(maxSize, data + [d], Packing(p.closed + [p.current], next, true))
  {
    FirstOversizedUnique(data + [d], maxSize, |data|);
    assert (data + [d])[..|data|] == data;
    FlattenSnoc(p.closed, p.current);
  }

  lemma StepOversized(key: string, maxSize: nat, data: seq<EventData>, p: Packing, d: EventData)
    requires PackInvariant(key, maxSize, data, p) && !p.tooLarge
    requires WireSize(d) > maxSize
    ensures PackInvariant(key, maxSize, data + [d], Packing(p.closed + [p.current], NewBatch(key, maxSize), true))
  {
    CloseWellFormed(key, maxSize, p, NewBatch(key, maxSize));
    OversizedContents(maxSize, data, p, d, NewBatch(key, maxSize));
    if data != [] {
      CloseGreedy(maxSize, data, p);
    }
    assert (p.closed + [p.current])[|p.closed|] == p.current;
  }

  lemma PackStepKeepsInvariant(key: string, maxSize: nat, data: seq<EventData>, d: EventData)
    requires PackInvariant(key, maxSize, data, PackAll(key, maxSize, data))
    ensures PackInvariant(key, maxSize, data + [d], PackAll(key, maxSize, data + [d]))
  {
    assert (data + [d])[..|data|] == data;
    var p := PackAll(key, maxSize, data);
    assert PackAll(key, maxSize, data + [d]) == PackStep(p, d);
    if p.tooLarge {
      StepStopped(key, maxSize, data, p, d);
    } else if Fits(p.current, d) {
      StepAdd(key, maxSize, data, p, d);
    } else if WireSize(d) <= maxSize {
      StepNewBatch(key, maxSize, data, p, d);
    } else {
      StepOversized(key, maxSize, data, p, d);
    }
  }

  lemma {:induction false} PackAllInvariant(key: string, maxSize: nat, data: seq<EventData>)
    ensures PackInvariant(key, maxSize, data, PackAll(key, maxSize, data))
  {
    if data == [] {
    } else {
      var init := data[..|data| - 1];
      assert init + [data[|data| - 1]] == data;
      PackAllInvariant(key, maxSize, init);
      PackStepKeepsInvariant(key, maxSize, init, data[|data| - 1]);
    }
  }

  /** Every batch of one call goes to `key`, whatever the later events are, and none exceeds the limit. */
  lemma PackRespectsKeyAndCapacity(key: string, maxSize: nat, data: seq<EventData>)
    ensures forall b | b in Batches(PackAll(key, maxSize, data)) ::
      b.partitionKey == key && b.maxSize == maxSize && TotalSize(b.items) <= maxSize
  {
    var p := PackAll(key, maxSize, data);
    PackAllInvariant(key, maxSize, data);
    forall b | b in Batches(p)
      ensures b.partitionKey == key && b.maxSize == maxSize && TotalSize(b.items) <= maxSize
    {
      var j :| 0 <= j < |Batches(p)| && Batches(p)[j] == b;
      assert b == (p.closed + [p.current])[j];
    }
  }

  /**
   * No event is lost, duplicated or reordered: the batches hold exactly the events before the
   * first one too large for a batch, and the packing stops early exactly when there is such an event.
   */
  lemma PackPreservesOrder(key: string, maxSize: nat, data: seq<EventData>)
    ensures Flatten(Batches(PackAll(key, maxSize, data))) == data[..FirstOversized(data, maxSize)]
    ensures PackAll(key, maxSize, data).tooLarge <==> exists j | 0 <= j < |data| :: WireSize(data[j]) > maxSize
  {
    var p := PackAll(key, maxSize, data);
    PackAllInvariant(key, maxSize, data);
    var k := FirstOversized(data, maxSize);
    if !p.tooLarge {
      FlattenSnoc(p.closed, p.current);
      assert data[..k] == data;
    } else {
      assert WireSize(data[k]) > maxSize;
    }
  }

  /**
   * Only the first batch can be empty, exactly when the first event alone is too large, and then
   * it is the only batch; in particular the last batch sent holds at least one event otherwise.
   */
  lemma PackBatchesNonEmpty(key: string, maxSize: nat, data: seq<EventData>)
    requires data != []
    ensures var bs := Batches(PackAll(key, maxSize, data));
      && bs != []
      && (forall j | 0 < j < |bs| :: bs[j].items != [])
      && (bs[0].items == [] <==> WireSize(data[0]) > maxSize)
      && (bs[0].items == [] ==> |bs| == 1)
  {
    var p := PackAll(key, maxSize, data);
    PackAllInvariant(key, maxSize, data);
    var bs := Batches(p);
    if !p.tooLarge {
      assert FirstOversized(data, maxSize) == |data|;
      assert WireSize(data[0]) <= maxSize;
      forall j | 0 < j < |bs| ensures bs[j].items != [] {
        if j < |p.closed| {
          assert bs[j] == p.closed[j];
        }
      }
      if p.closed != [] {
        assert bs[0] == p.closed[0];
      }
    }
  }

  /** First fit in order: each batch after the first was opened by an event the previous batch refused. */
  lemma PackIsGreedy(key: string, maxSize: nat, data: seq<EventData>)
    ensures Greedy(Batches(PackAll(key, maxSize, data)))
  {
    var p := PackAll(key, maxSize, data);
    PackAllInvariant(key, maxSize, data);
    if !p.tooLarge {
      var bs := p.closed + [p.current];
      forall j | 0 < j < |bs| ensures RejectedBy(bs, j) {
        if j < |p.closed| {
          assert RejectedBy(p.closed, j);
        }
      }
    }
  }

  /** Two small events that fit together go out in one batch. */
  lemma PackTwoFitTogether(key: string)
    ensures Batches(PackAll(key, 10, [EventData("ab"), EventData("cde")]))
         == [Batch(key, 10, [EventData("ab"), EventData("cde")])]
  {
    var a, b := EventData("ab"), EventData("cde");
    assert [a, b][..1] == [a];
    assert [a][..0] == [];
    TotalSizeSnoc([], a);
    assert PackAll(key, 10, [a]) == Packing([], Batch(key, 10, [a]), false);
    TotalSizeSnoc([a], b);
    assert PackAll(key, 10, [a, b]) == Packing([], Batch(key, 10, [a, b]), false);
  }

  /** Three events each just under half the limit: the third opens a second batch. */
  lemma PackThirdOverflows(key: string)
    ensures Batches(PackAll(key, 10, [EventData("abcd"), EventData("efgh"), EventData("ijkl")]))
         == [Batch(key, 10, [EventData("abcd"), EventData("efgh")]), Batch(key, 10, [EventData("ijkl")])]
  {
    var a, b, c := EventData("abcd"), EventData("efgh"), EventData("ijkl");
    assert [a, b, c][..2] == [a, b];
    assert [a, b][..1] == [a];
    assert [a][..0] == [];
    TotalSizeSnoc([], a);
    assert PackAll(key, 10, [a]) == Packing([], Batch(key, 10, [a]), false);
    TotalSizeSnoc([a], b);
    assert PackAll(key, 10, [a, b]) == Packing([], Batch(key, 10, [a, b]), false);
    TotalSizeSnoc([], c);
    assert !Fits(Batch(key, 10, [a, b]), c);
    assert PackAll(key, 10, [a, b, c]) == Packing([Batch(key, 10, [a, b])], Batch(key, 10, [c]), false);
  }

  /** An event larger than the limit, sent first: the empty first batch is the only one, and packing stops. */
  lemma PackOversizedFirst(key: string)
    ensures PackAll(key, 2, [EventData("abc"), EventData("d")])
         == Packing([Batch(key, 2, [])], Batch(key, 2, []), true)
  {
    var a, b := EventData("abc"), EventData("d");
    assert [a, b][..1] == [a];
    assert [a][..0] == [];
    assert !Fits(Batch(key, 2, []), a);
    assert PackAll(key, 2, [a]) == Packing([Batch(key, 2, [])], Batch(key, 2, []), true);
  }

  /** One more event of `data` is one more step of the loop. */
  lemma PackAllSnoc(key: string, maxSize: nat, data: seq<EventData>, i: nat)
    requires i < |data|
    ensures PackAll(key, maxSize, data[..i + 1]) == PackStep(PackAll(key, maxSize, data[..i]), data[i])
  {
    assert data[..i + 1][..i] == data[..i];
  }

  /** The packing of a single event. */
  lemma PackOne(key: string, maxSize: nat, d: EventData)
    ensures Batches(PackAll(key, maxSize, [d]))
         == [if WireSize(d) <= maxSize then Batch(key, maxSize, [d]) else Batch(key, maxSize, [])]
    ensures PackAll(key, maxSize, [d]).tooLarge <==> WireSize(d) > maxSize
  {
    PackAllSnoc(key, maxSize, [d], 0);
    assert [d][..1] == [d] && [d][..0] == [];
    TotalSizeSnoc([], d);
  }

  /**
   * One more event, as the loop body handles it: added to the open batch when it fits; otherwise
   * the open batch is closed and the event opens a new one, or stops the loop when even an empty
   * batch cannot take it.
   */
  lemma PackNext(key: string, maxSize: nat, data: seq<EventData>, i: nat, closed: seq<Batch>, current: Batch)
    requires i < |data|
    requires current.partitionKey == key && current.maxSize == maxSize
    requires PackAll(key, maxSize, data[..i]) == Packing(closed, current, false)
    ensures TryAdd(current, data[i]).Some? ==>
      PackAll(key, maxSize, data[..i + 1]) == Packing(closed, TryAdd(current, data[i]).value, false)
    ensures TryAdd(current, data[i]).None? && TryAdd(NewBatch(key, maxSize), data[i]).Some? ==>
      PackAll(key, maxSize, data[..i + 1]) == Packing(closed + [current], TryAdd(NewBatch(key, maxSize), data[i]).value, false)
    ensures TryAdd(current, data[i]).None? && TryAdd(NewBatch(key, maxSize), data[i]).None? ==>
      PackAll(key, maxSize, data[..i + 1]) == Packing(closed + [current], NewBatch(key, maxSize), true)
  {
    PackAllSnoc(key, maxSize, data, i);
  }

  /** A step of the loop never takes back a closed batch, and does nothing once the loop has stopped. */
  lemma PackStepGrows(p: Packing, d: EventData)
    ensures p.closed <= PackStep(p, d).closed
    ensures p.tooLarge ==> PackStep(p, d) == p
  {
  }

  /**
   * The batches the loop has already sent after a prefix of the events stay the first batches
   * sent, and once an event too large for a batch has stopped the loop nothing changes any more.
   */
  lemma {:induction false} PackPrefix(key: string, maxSize: nat, data: seq<EventData>, i: nat)
    requires i <= |data|
    ensures PackAll(key, maxSize, data[..i]).closed <= PackAll(key, maxSize, data).closed
    ensures PackAll(key, maxSize, data[..i]).tooLarge ==> PackAll(key, maxSize, data) == PackAll(key, maxSize, data[..i])
  {
    if i == |data| {
      assert data[..i] == data;
    } else {
      var init := data[..|data| - 1];
      assert init[..i] == data[..i];
      PackPrefix(key, maxSize, init, i);
      assert PackAll(key, maxSize, data) == PackStep(PackAll(key, maxSize, init), data[|data| - 1]);
      PackStepGrows(PackAll(key, maxSize, init), data[|data| - 1]);
    }
  }

  /** The loop is still running at the `i`-th event and the open batch refuses it: the `ValueError` branch. */
  ghost predicate Overflowed(key: string, maxSize: nat, data: seq<EventData>, i: nat)
    requires i < |data|
  {
    var p := PackAll(key, maxSize, data[..i]);
    !p.tooLarge && !Fits(p.current, data[i])
  }

  /** How many of the first `n` events took the `ValueError` branch. */
  ghost function Overflows(key: string, maxSize: nat, data: seq<EventData>, n: nat): nat
    requires n <= |data|
  {
    if n == 0 then 0 else Overflows(key, maxSize, data, n - 1) + (if Overflowed(key, maxSize, data, n - 1) then 1 else 0)
  }

  /** Every event that took the `ValueError` branch closed exactly one batch. */
  lemma {:induction false} PackClosedCount(key: string, maxSize: nat, data: seq<EventData>, n: nat)
    requires n <= |data|
    ensures |PackAll(key, maxSize, data[..n]).closed| == Overflows(key, maxSize, data, n)
  {
    if n > 0 {
      PackClosedCount(key, maxSize, data, n - 1);
      PackAllSnoc(key, maxSize, data, n - 1);
    } else {
      assert data[..0] == [];
    }
  }

  /**
   * The batches of a packing: one per event that did not fit the open batch, and the last open
   * batch on top unless an event too large for any batch stopped the loop.
   */
  lemma PackBatchCount(key: string, maxSize: nat, data: seq<EventData>)
    ensures var p := PackAll(key, maxSize, data);
      |Batches(p)| == Overflows(key, maxSize, data, |data|) + (if p.tooLarge then 0 else 1)
  {
    PackClosedCount(key, maxSize, data, |data|);
    assert data[..|data|] == data;
  }
}
