/** Retries inside one delivery, and deliveries until a message is acknowledged. */
module Redelivery {
  import opened Wrappers
  import opened ReportRepository

  datatype Settings = Settings(maxAttempts: int, baseDelay: real, threshold: int)

  function Pow2(n: nat): nat {
    if n == 0 then 1 else 2 * Pow2(n - 1)
  }

  lemma {:induction false} Pow2Grows(m: nat, n: nat)
    requires m <= n
    ensures 1 <= Pow2(m) <= Pow2(n)
    decreases n
  {
    if m < n {
      Pow2Grows(m, n - 1);
    } else if m > 0 {
      Pow2Grows(m - 1, n - 1);
    }
  }

  /** The sleep after the failure of attempt i. */
  function Delay(base: real, i: nat): real {
    base * Pow2(i) as real
  }

  /** The sleeps after the first n failures together. */
  function Backoff(base: real, n: nat): real {
    if n == 0 then 0.0 else Backoff(base, n - 1) + Delay(base, n - 1)
  }

  lemma {:induction false} BackoffIs(base: real, n: nat)
    ensures Backoff(base, n) == base * (Pow2(n) - 1) as real
  {
    if n > 0 {
      BackoffIs(base, n - 1);
      assert Pow2(n) as real == Pow2(n - 1) as real + Pow2(n - 1) as real;
    }
  }

  lemma BackoffBound(base: real, n: nat, most: nat)
    requires base >= 0.0 && n <= most
    ensures Backoff(base, n) <= base * (Pow2(most) - 1) as real
  {
    BackoffIs(base, n);
    Pow2Grows(n, most);
    var more := (Pow2(most) - Pow2(n)) as real;
    assert base * more >= 0.0;
    assert base * (Pow2(most) - 1) as real == base * (Pow2(n) - 1) as real + base * more;
  }

  /** All sleeps between so many calls: the delay doubles each time. */
  function Slept(base: real, calls: nat): real {
    if calls == 0 then 0.0 else base * (Pow2(calls - 1) - 1) as real
  }

  lemma SleptFor(base: real, calls: nat, most: nat)
    requires base >= 0.0 && 0 < calls <= most
    ensures Backoff(base, calls - 1) == Slept(base, calls) <= Slept(base, most)
  {
    BackoffIs(base, calls - 1);
    BackoffBound(base, calls - 1, most - 1);
  }

  /** `call(i)` is the outcome of attempt i, None when it raises. `failures` counts the increments of
      the job's retry counter. */
  method WithRetry<T>(call: nat -> Option<T>, k: Settings) returns (r: Option<T>, calls: nat, failures: nat, slept: real)
    requires k.baseDelay >= 0.0
    ensures calls <= Max(k.maxAttempts, 0)
    ensures r.Some? ==> calls > 0 && r == call(calls - 1) && failures == calls - 1
    ensures r.None? ==> calls == Max(k.maxAttempts, 0) && failures == calls
    ensures forall i | 0 <= i < failures :: call(i).None?
    ensures slept == Slept(k.baseDelay, calls)
    ensures k.maxAttempts > 0 ==> slept <= Slept(k.baseDelay, k.maxAttempts)
  {
    r, calls, failures, slept := None, 0, 0, 0.0;
    var attempt := 0;
    while attempt < k.maxAttempts
      invariant 0 <= attempt <= Max(k.maxAttempts, 0)
      invariant r.None? && calls == failures == attempt
      invariant forall i | 0 <= i < attempt :: call(i).None?
      invariant slept == Backoff(k.baseDelay, if attempt == k.maxAttempts && attempt > 0 then attempt - 1 else attempt)
    {
      r := call(attempt);
      calls := calls + 1;
      if r.Some? {
        SleptFor(k.baseDelay, calls, k.maxAttempts);
        return;
      }
      failures := failures + 1;
      if attempt + 1 < k.maxAttempts {
        slept := slept + Delay(k.baseDelay, attempt);
      }
      attempt := attempt + 1;
    }
    if calls > 0 { SleptFor(k.baseDelay, calls, k.maxAttempts); }
  }

  // ------------------------------------------------------------------ one delivery

  /** What one delivery meets: the row it reads, the answer to each of its statements and
      publications, the evaluator, and the ways it can be cut short. */
  datatype World<T> = World(
    seen: Option<Report>,
    pairs: bool,
    source: bool,
    topics: nat,
    created: bool,                          // the row was still missing
    entered: bool,                          // the move to PROCESSING hit the row
    completed: bool,                        // the completing statement hit the row
    failed: bool,                           // giving up hit the row
    announceRaises: bool,                   // the PROCESSING event cannot be published
    outcomeRaises: bool,                    // the terminal event cannot be published
    evaluate: (nat, nat) -> Option<T>,      // topic, attempt
    summarize: nat -> Option<string>,
    dies: bool)                             // the process dies before the acknowledgement

  /** The answer of the first attempt that gets one, among those that are made. */
  ghost predicate IsAnswer<T>(call: nat -> Option<T>, k: Settings, x: T) {
    exists a: nat :: a < k.maxAttempts && call(a) == Some(x) && forall b: nat | b < a :: call(b).None?
  }

  ghost predicate Exhausted<T>(call: nat -> Option<T>, k: Settings) {
    forall a: nat | a < k.maxAttempts :: call(a).None?
  }

  function Asking<T>(w: World<T>, topic: nat): nat -> Option<T> {
    (attempt: nat) => w.evaluate(topic, attempt)
  }

  /** Topic by topic, stopping at the first one whose attempts are used up. */
  method EvaluateAll<T>(w: World<T>, k: Settings) returns (results: Option<seq<T>>, calls: nat)
    requires k.baseDelay >= 0.0
    ensures calls <= w.topics * Max(k.maxAttempts, 0)
    ensures results.Some? ==> |results.value| == w.topics
    ensures results.Some? ==> forall i | 0 <= i < w.topics :: IsAnswer(Asking(w, i), k, results.value[i])
    ensures results.None? ==> exists i: nat :: i < w.topics && Exhausted(Asking(w, i), k)
  {
    var done: seq<T> := [];
    calls := 0;
    for topic := 0 to w.topics
      invariant |done| == topic && calls <= topic * Max(k.maxAttempts, 0)
      invariant forall i | 0 <= i < topic :: IsAnswer(Asking(w, i), k, done[i])
    {
      var r, n, _, _ := WithRetry(Asking(w, topic), k);
      calls := calls + n;
      assert calls <= topic * Max(k.maxAttempts, 0) + Max(k.maxAttempts, 0) == (topic + 1) * Max(k.maxAttempts, 0);
      TopicsBound(topic + 1, w.topics, Max(k.maxAttempts, 0));
      if r.None? {
        assert Exhausted(Asking(w, topic), k);
        return None, calls;
      }
      assert Asking(w, topic)(n - 1) == Some(r.value);
      done := done + [r.value];
    }
    return Some(done), calls;
  }

  lemma TopicsBound(m: nat, n: nat, a: nat)
    requires m <= n
    ensures m * a <= n * a
  {
    assert (n - m) * a >= 0;
  }

  /** Whether the text results are still to be made, and this delivery may try. */
  predicate Pending<T>(w: World<T>, k: Settings, count: nat) {
    && (w.seen.Some? ==> !IsTerminal(w.seen.value.status) && w.seen.value.textAt.None?)
    && count < k.threshold && w.pairs
  }

  /** Whether it is this delivery's to start them, which it announces. */
  predicate Starts<T>(w: World<T>, k: Settings, count: nat) {
    && Pending(w, k, count) && w.entered
    && (w.seen.None? ==> w.source && w.created)
    && (w.seen.Some? ==> w.seen.value.status == PENDING)
  }

  /** Whether it evaluates: it started and announced that, or takes over what an earlier one left. */
  predicate Evaluates<T>(w: World<T>, k: Settings, count: nat) {
    || (Starts(w, k, count) && !w.announceRaises)
    || (Pending(w, k, count) && w.seen.Some? && w.seen.value.status != PENDING && count > 1)
  }

  ghost predicate AllAnswered<T>(w: World<T>, k: Settings) {
    && (forall topic: nat | topic < w.topics :: !Exhausted(Asking(w, topic), k))
    && !Exhausted(w.summarize, k)
  }

  /** `normal` is false when an exception leaves the handler, `stored` is what is saved, and `calls`
      counts evaluator calls. Results are stored exactly if this delivery evaluates and every topic and
      the summary are answered in time; an exception leaves it exactly if it does not get there, or if
      something could not be published. */
  method ProcessGenerationRequest<T>(w: World<T>, k: Settings, count: nat)
      returns (normal: bool, calls: nat, stored: Option<(seq<T>, string)>)
    requires k.baseDelay >= 0.0
    ensures stored.Some? <==> Evaluates(w, k, count) && AllAnswered(w, k)
    ensures stored.Some? ==>
              && |stored.value.0| == w.topics && IsAnswer(w.summarize, k, stored.value.1)
              && forall i | 0 <= i < w.topics :: IsAnswer(Asking(w, i), k, stored.value.0[i])
    ensures Evaluates(w, k, count) && stored.None? ==> !normal
    ensures Starts(w, k, count) && w.announceRaises ==> !normal
    ensures !normal ==> w.outcomeRaises || (Starts(w, k, count) && w.announceRaises)
                        || (Evaluates(w, k, count) && stored.None?)
    ensures !Evaluates(w, k, count) ==> calls == 0
    ensures calls <= (w.topics + 1) * Max(k.maxAttempts, 0)
    ensures count >= k.threshold ==> calls == 0 && (normal || w.outcomeRaises)
    ensures w.seen.Some? && (IsTerminal(w.seen.value.status) || w.seen.value.textAt.Some?) ==> calls == 0
  {
    calls, stored := 0, None;
    assert (w.topics + 1) * Max(k.maxAttempts, 0) >= 0;
    if w.seen.Some? {
      if IsTerminal(w.seen.value.status) { return true, 0, None; }
      if w.seen.value.textAt.Some? { return !(w.completed && w.outcomeRaises), 0, None; }
    }
    if count >= k.threshold {
      if w.seen.None? { return true, 0, None; }
      return !(w.failed && w.outcomeRaises), 0, None;
    }
    if !w.pairs { return true, 0, None; }
    if w.seen.None? && (!w.source || !w.created) { return true, 0, None; }
    if w.seen.None? || w.seen.value.status == PENDING {
      if !w.entered { return true, 0, None; }
      if w.announceRaises { return false, 0, None; }
    } else if count <= 1 {
      return true, 0, None;
    }
    var results, n := EvaluateAll(w, k);
    calls := n;
    assert (w.topics + 1) * Max(k.maxAttempts, 0) == w.topics * Max(k.maxAttempts, 0) + Max(k.maxAttempts, 0);
    if results.None? { return false, calls, None; }
    var summary, m, _, _ := WithRetry(w.summarize, k);
    calls := calls + m;
    if summary.None? { return false, calls, None; }
    return !(w.completed && w.outcomeRaises), calls, Some((results.value, summary.value));
  }

  /** A malformed message is removed; any other is acknowledged when its processing returned. */
  method HandleEntry<T>(wellFormed: bool, w: World<T>, k: Settings, count: nat) returns (acked: bool, calls: nat)
    requires k.baseDelay >= 0.0
    ensures calls <= (w.topics + 1) * Max(k.maxAttempts, 0)
    ensures !wellFormed ==> acked && calls == 0
    ensures count >= k.threshold ==> calls == 0 && (acked || w.outcomeRaises || w.dies)
    ensures wellFormed && (w.dies || (Evaluates(w, k, count) && !AllAnswered(w, k))) ==> !acked
    ensures !w.dies && Evaluates(w, k, count) && AllAnswered(w, k) && !w.outcomeRaises ==> acked
  {
    calls := 0;
    assert (w.topics + 1) * Max(k.maxAttempts, 0) >= 0;
    if !wellFormed { return true, 0; }
    var normal, n, _ := ProcessGenerationRequest(w, k, count);
    acked, calls := normal && !w.dies, n;
  }

  // ------------------------------------------------------------------ deliveries until acknowledged

  /** The evaluator calls all deliveries of one message may make together. */
  function Budget(k: Settings, topics: nat): nat {
    Max(k.threshold - 1, 0) * ((topics + 1) * Max(k.maxAttempts, 0))
  }

  /** Only deliveries before the threshold have a share in the budget. */
  lemma OneMoreDelivery(deliveries: nat, threshold: int, per: nat)
    ensures var before, after := Min(deliveries, Max(threshold - 1, 0)), Min(deliveries + 1, Max(threshold - 1, 0));
            && before * per <= after * per
            && (deliveries + 1 < threshold ==> before * per + per == after * per)
  {
    var before, after := Min(deliveries, Max(threshold - 1, 0)), Min(deliveries + 1, Max(threshold - 1, 0));
    TopicsBound(before, after, per);
    if deliveries + 1 < threshold { assert after == before + 1; }
  }

  /** However many deliveries a message gets, whatever raises and whoever dies, the evaluator is
      called at most (threshold - 1) * (topics + 1) * attempts times; and if no delivery from the
      threshold on dies or fails to publish, the message is acknowledged by then. */
  method DeliverUntilAcked<T>(worlds: nat -> World<T>, topics: nat, k: Settings, most: nat)
      returns (acked: bool, deliveries: nat, calls: nat)
    requires k.baseDelay >= 0.0
    requires forall n: nat :: worlds(n).topics == topics
    ensures deliveries <= most
    ensures calls <= Budget(k, topics)
    ensures most >= Max(k.threshold, 1)
            && (forall n: nat :: n >= k.threshold ==> !worlds(n).outcomeRaises && !worlds(n).dies)
            ==> acked && deliveries <= Max(k.threshold, 1)
  {
    ghost var per := (topics + 1) * Max(k.maxAttempts, 0);
    acked, deliveries, calls := false, 0, 0;
    while deliveries < most && !acked
      invariant deliveries <= most
      invariant calls <= Min(deliveries, Max(k.threshold - 1, 0)) * per
      invariant (forall n: nat :: n >= k.threshold ==> !worlds(n).outcomeRaises && !worlds(n).dies) ==>
                  deliveries <= Max(k.threshold, 1) && (deliveries >= Max(k.threshold, 1) ==> acked)
      decreases most - deliveries
    {
      var n := deliveries + 1;
      var a, c := HandleEntry(true, worlds(n), k, n);
      OneMoreDelivery(deliveries, k.threshold, per);
      acked, deliveries, calls := a, n, calls + c;
    }
    TopicsBound(Min(deliveries, Max(k.threshold - 1, 0)), Max(k.threshold - 1, 0), per);
  }
}
