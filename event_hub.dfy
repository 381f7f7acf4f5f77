/**
 * The hub end of the producer: the SDK's `EventHubProducerClient` reduced to the batches it
 * accepts, and the retry policy of `_send_batch_with_retry`.
 */
module EventHub {
  import opened EventBatching

  /** `stop_after_attempt(3)`: attempts per batch, the first one included. */
  const MaxAttempts: nat := 3

  /** How a retried send ended: the attempts it made and whether the last one was accepted. */
  datatype Retry = Retry(attempts: nat, ok: bool)

  /**
   * A send retried up to `budget` times, the hub accepting its `k`-th attempt exactly when
   * `accepts(k)`; tenacity retries after every exception and stops after the first success.
   */
  function RetrySend(accepts: nat -> bool, start: nat, budget: nat): (r: Retry)
    ensures r.attempts <= budget
    ensures budget > 0 ==> r.attempts >= 1
    ensures r.ok ==> r.attempts >= 1
    ensures !r.ok ==> r.attempts == budget
    decreases budget
  {
    if budget == 0 then Retry(0, false)
    else if accepts(start) then Retry(1, true)
    else
      var rest := RetrySend(accepts, start + 1, budget - 1);
      Retry(rest.attempts + 1, rest.ok)
  }

  /** One attempt of a retried send: accepted, it ends the send; refused, the rest of the budget follows. */
  lemma RetryStep(accepts: nat -> bool, start: nat, budget: nat)
    requires budget > 0
    ensures accepts(start) ==> RetrySend(accepts, start, budget) == Retry(1, true)
    ensures !accepts(start) ==>
      && RetrySend(accepts, start, budget).ok == RetrySend(accepts, start + 1, budget - 1).ok
      && RetrySend(accepts, start, budget).attempts == RetrySend(accepts, start + 1, budget - 1).attempts + 1
  {
  }

  /**
   * A retried send succeeds exactly when one of its `budget` attempts is accepted; it stops at the
   * first accepted attempt, and every attempt before that one was refused.
   */
  lemma {:induction false} RetrySendMeaning(accepts: nat -> bool, start: nat, budget: nat)
    ensures var r := RetrySend(accepts, start, budget);
      && (r.ok <==> exists k | start <= k < start + budget :: accepts(k))
      && (r.ok ==> accepts(start + r.attempts - 1))
      && (forall k | start <= k < start + r.attempts - 1 :: !accepts(k))
    decreases budget
  {
    if budget > 0 && !accepts(start) {
      RetrySendMeaning(accepts, start + 1, budget - 1);
      var r := RetrySend(accepts, start, budget);
      if r.ok {
        var k :| start + 1 <= k < start + 1 + (budget - 1) && accepts(k);
      }
    }
  }

  /**
   * A hub that fails `failures` times in a row and then accepts: the batch is delivered exactly
   * when `failures < MaxAttempts`, after `failures + 1` attempts, and otherwise after `MaxAttempts`.
   */
  lemma RetryAfterFailures(accepts: nat -> bool, start: nat, failures: nat)
    requires forall k | start <= k < start + failures :: !accepts(k)
    requires accepts(start + failures)
    ensures RetrySend(accepts, start, MaxAttempts).ok <==> failures < MaxAttempts
    ensures RetrySend(accepts, start, MaxAttempts).attempts == if failures < MaxAttempts then failures + 1 else MaxAttempts
  {
    var r := RetrySend(accepts, start, MaxAttempts);
    RetrySendMeaning(accepts, start, MaxAttempts);
    assert r.attempts >= 1;
    assert r.ok ==> accepts(start + r.attempts - 1);
    assert failures < MaxAttempts ==> r.ok;
  }

  /** How a sequence of batches fared: how many were delivered, and the attempts made. */
  datatype Delivery = Delivery(sent: nat, attempts: nat)

  /**
   * Sends `n` batches in order, each retried up to `budget` times, stopping at the first batch
   * whose retries are exhausted. The hub's answers depend on the attempt only, so only the number
   * of batches matters.
   */
  function Deliver(accepts: nat -> bool, budget: nat, start: nat, n: nat): (r: Delivery)
    ensures r.sent <= n
    decreases n
  {
    if n == 0 then Delivery(0, 0)
    else
      var first := RetrySend(accepts, start, budget);
      if !first.ok then Delivery(0, first.attempts)
      else
        var rest := Deliver(accepts, budget, start + first.attempts, n - 1);
        Delivery(rest.sent + 1, rest.attempts + first.attempts)
  }

  /** All `n` batches went through, `start` attempts having been made before them and `at` after. */
  ghost predicate DeliveredAll(accepts: nat -> bool, budget: nat, start: nat, n: nat, at: nat) {
    start <= at && Deliver(accepts, budget, start, n) == Delivery(n, at - start)
  }

  /** The first of `n > 0` batches is retried; the others follow when it went through. */
  lemma DeliverCons(accepts: nat -> bool, budget: nat, start: nat, n: nat)
    requires n > 0
    ensures var first := RetrySend(accepts, start, budget);
      var rest := Deliver(accepts, budget, start + first.attempts, n - 1);
      Deliver(accepts, budget, start, n) == if first.ok then Delivery(rest.sent + 1, rest.attempts + first.attempts)
                                            else Delivery(0, first.attempts)
  {
  }

  /** Once `n` batches went through, the `m` batches after them are sent from where they left off. */
  lemma {:induction false} DeliverAppend(accepts: nat -> bool, budget: nat, start: nat, n: nat, m: nat, at: nat)
    requires DeliveredAll(accepts, budget, start, n, at)
    ensures Deliver(accepts, budget, start, n + m)
         == Delivery(n + Deliver(accepts, budget, at, m).sent, at - start + Deliver(accepts, budget, at, m).attempts)
    decreases n
  {
    if n > 0 {
      var next := start + RetrySend(accepts, start, budget).attempts;
      DeliverFirstOk(accepts, budget, start, n, at);
      DeliverAppend(accepts, budget, next, n - 1, m, at);
      DeliverAppendStep(accepts, budget, start, n, m, at);
    }
  }

  /** The first of `n > 0` delivered batches went through, and the other `n - 1` after it. */
  lemma DeliverFirstOk(accepts: nat -> bool, budget: nat, start: nat, n: nat, at: nat)
    requires DeliveredAll(accepts, budget, start, n, at) && n > 0
    ensures RetrySend(accepts, start, budget).ok
    ensures DeliveredAll(accepts, budget, start + RetrySend(accepts, start, budget).attempts, n - 1, at)
  {
    DeliverCons(accepts, budget, start, n);
  }

  /** The induction step of DeliverAppend. */
  lemma DeliverAppendStep(accepts: nat -> bool, budget: nat, start: nat, n: nat, m: nat, at: nat)
    requires n > 0 && start + RetrySend(accepts, start, budget).attempts <= at && RetrySend(accepts, start, budget).ok
    requires var next := start + RetrySend(accepts, start, budget).attempts;
      Deliver(accepts, budget, next, n - 1 + m)
      == Delivery(n - 1 + Deliver(accepts, budget, at, m).sent, at - next + Deliver(accepts, budget, at, m).attempts)
    ensures Deliver(accepts, budget, start, n + m)
         == Delivery(n + Deliver(accepts, budget, at, m).sent, at - start + Deliver(accepts, budget, at, m).attempts)
  {
    DeliverCons(accepts, budget, start, n + m);
  }

  /** One more batch after `n` delivered ones is retried from where they left off. */
  lemma DeliverSnoc(accepts: nat -> bool, budget: nat, start: nat, n: nat, at: nat)
    requires DeliveredAll(accepts, budget, start, n, at)
    requires RetrySend(accepts, at, budget).ok
    ensures DeliveredAll(accepts, budget, start, n + 1, at + RetrySend(accepts, at, budget).attempts)
  {
    DeliverAppend(accepts, budget, start, n, 1, at);
    DeliverCons(accepts, budget, at, 1);
  }

  /** After `n` delivered batches, a batch refused on all its attempts stops the delivery of the `m` remaining ones. */
  lemma DeliverStops(accepts: nat -> bool, budget: nat, start: nat, n: nat, m: nat, at: nat)
    requires DeliveredAll(accepts, budget, start, n, at) && m > 0
    requires !RetrySend(accepts, at, budget).ok
    ensures Deliver(accepts, budget, start, n + m) == Delivery(n, at - start + budget)
  {
    DeliverAppend(accepts, budget, start, n, m, at);
    DeliverCons(accepts, budget, at, m);
  }

  /**
   * Delivery aborts on the first failure: every batch before it went through, and it was retried
   * from the attempt after theirs and refused, which took `budget` attempts; the batches after it
   * were never tried. Each delivered batch cost at least one attempt.
   */
  ghost predicate AbortsOnFailure(accepts: nat -> bool, budget: nat, start: nat, n: nat) {
    var r := Deliver(accepts, budget, start, n);
    && r.sent <= n
    && r.sent <= r.attempts
    && (r.sent < n ==>
          && r.attempts >= budget
          && Deliver(accepts, budget, start, r.sent) == Delivery(r.sent, r.attempts - budget)
          && !RetrySend(accepts, start + r.attempts - budget, budget).ok)
  }

  /**
   * Every delivery aborts on its first failure, as AbortsOnFailure states; the hub refused each
   * of the last `budget` attempts.
   */
  lemma DeliverAbortsOnFailure(accepts: nat -> bool, budget: nat, start: nat, n: nat)
    ensures AbortsOnFailure(accepts, budget, start, n)
    ensures var r := Deliver(accepts, budget, start, n);
      r.sent < n ==> forall k | start + r.attempts - budget <= k < start + r.attempts :: !accepts(k)
  {
    DeliverAborts(accepts, budget, start, n);
    var r := Deliver(accepts, budget, start, n);
    if r.sent < n {
      RetrySendMeaning(accepts, start + r.attempts - budget, budget);
    }
  }

  lemma {:induction false} DeliverAborts(accepts: nat -> bool, budget: nat, start: nat, n: nat)
    ensures AbortsOnFailure(accepts, budget, start, n)
    decreases n
  {
    if n > 0 {
      var first := RetrySend(accepts, start, budget);
      if !first.ok {
        AbortsAtFirst(accepts, budget, start, n);
      } else {
        var next := start + first.attempts;
        DeliverAborts(accepts, budget, next, n - 1);
        if Deliver(accepts, budget, next, n - 1).sent < n - 1 {
          AbortsLater(accepts, budget, start, n);
        } else {
          AbortsNever(accepts, budget, start, n);
        }
      }
    }
  }

  /** The induction step of DeliverAborts when the first batch went through and a later one failed. */
  lemma AbortsLater(accepts: nat -> bool, budget: nat, start: nat, n: nat)
    requires n > 0 && RetrySend(accepts, start, budget).ok
    requires var next := start + RetrySend(accepts, start, budget).attempts;
      && AbortsOnFailure(accepts, budget, next, n - 1)
      && Deliver(accepts, budget, next, n - 1).sent < n - 1
    ensures AbortsOnFailure(accepts, budget, start, n)
  {
    var first := RetrySend(accepts, start, budget);
    var next := start + first.attempts;
    var rest := Deliver(accepts, budget, next, n - 1);
    DeliverCons(accepts, budget, start, n);
    DeliverPrefixStep(accepts, budget, start, rest.sent, rest.attempts - budget);
    assert start + (rest.attempts + first.attempts) - budget == next + rest.attempts - budget;
  }

  /** The batches before the failing one, with the first batch in front of them. */
  lemma DeliverPrefixStep(accepts: nat -> bool, budget: nat, start: nat, k: nat, a: nat)
    requires RetrySend(accepts, start, budget).ok
    requires Deliver(accepts, budget, start + RetrySend(accepts, start, budget).attempts, k) == Delivery(k, a)
    ensures Deliver(accepts, budget, start, k + 1) == Delivery(k + 1, a + RetrySend(accepts, start, budget).attempts)
  {
    DeliverCons(accepts, budget, start, k + 1);
  }

  /** The induction step of DeliverAborts when every batch went through. */
  lemma AbortsNever(accepts: nat -> bool, budget: nat, start: nat, n: nat)
    requires n > 0 && RetrySend(accepts, start, budget).ok
    requires var next := start + RetrySend(accepts, start, budget).attempts;
      && AbortsOnFailure(accepts, budget, next, n - 1)
      && Deliver(accepts, budget, next, n - 1).sent == n - 1
    ensures AbortsOnFailure(accepts, budget, start, n)
  {
    DeliverCons(accepts, budget, start, n);
  }

  /** The base case of DeliverAborts: the first batch is refused on every attempt. */
  lemma AbortsAtFirst(accepts: nat -> bool, budget: nat, start: nat, n: nat)
    requires n > 0 && !RetrySend(accepts, start, budget).ok
    ensures AbortsOnFailure(accepts, budget, start, n)
  {
    DeliverCons(accepts, budget, start, n);
    assert Deliver(accepts, budget, start, n) == Delivery(0, budget);
    assert Deliver(accepts, budget, start, 0) == Delivery(0, 0);
  }

  /** Each batch costs at most `budget` attempts. */
  lemma {:induction false} DeliverAttemptsBound(accepts: nat -> bool, budget: nat, start: nat, n: nat)
    ensures Deliver(accepts, budget, start, n).attempts <= budget * n
    decreases n
  {
    if n > 0 {
      var first := RetrySend(accepts, start, budget);
      DeliverCons(accepts, budget, start, n);
      assert budget * n == budget * (n - 1) + budget;
      if first.ok {
        DeliverAttemptsBound(accepts, budget, start + first.attempts, n - 1);
      }
    }
  }

  /**
   * `EventHubProducerClient`, as far as the producer sees it: the largest batch the hub takes,
   * whether it accepts each send attempt, the attempts made, the batches it accepted, in order,
   * and whether the client was closed.
   */
  class HubClient {
    const maxBatchSize: nat
    const accepts: nat -> bool
    var attempts: nat
    var delivered: seq<Batch>
    var isClosed: bool

    constructor (maxBatchSize: nat, accepts: nat -> bool)
      ensures this.maxBatchSize == maxBatchSize && this.accepts == accepts
      ensures attempts == 0 && delivered == [] && !isClosed
    {
      this.maxBatchSize := maxBatchSize;
      this.accepts := accepts;
      attempts := 0;
      delivered := [];
      isClosed := false;
    }

    /** `send_batch`: one attempt, accepted or raising. */
    method SendBatch(b: Batch) returns (ok: bool)
      modifies this
      ensures ok == accepts(old(attempts))
      ensures attempts == old(attempts) + 1
      ensures delivered == if ok then old(delivered) + [b] else old(delivered)
      ensures isClosed == old(isClosed)
    {
      ok := accepts(attempts);
      attempts := attempts + 1;
      if ok {
        delivered := delivered + [b];
      }
    }

    /** `close`. */
    method Close()
      modifies this
      ensures isClosed
      ensures attempts == old(attempts) && delivered == old(delivered)
    {
      isClosed := true;
    }
  }
}
