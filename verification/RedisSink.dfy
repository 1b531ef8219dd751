/** The transcript writer: one FIFO queue, one drain loop, an ordered copy that may have gaps. */
module RedisSink {
  import opened Wrappers
  import opened Subsequences

  const QUEUE_MAX_SIZE := 256

  /** `sent` is the history of everything handed to enqueue, `stored` the Redis list. */
  datatype Sink<T> = Sink(stored: seq<T>, inFlight: Option<T>, queue: seq<T>, closed: bool, sent: seq<T>)

  datatype Event<T> =
    | Enqueue(item: T)
    | Take                // the drain loop gets the next item
    | Settle(ok: bool)    // the pipelined RPUSH succeeded, or raised
    | Shut                // aclose() was entered
    | Cancel(ok: bool)    // the drain task is cancelled or the process dies; a sent command may still land

  function InFlight<T>(k: Sink<T>): seq<T> {
    if k.inFlight.Some? then [k.inFlight.value] else []
  }

  function Pending<T>(k: Sink<T>): seq<T> {
    InFlight(k) + k.queue
  }

  function Settled<T>(k: Sink<T>, ok: bool): Sink<T> {
    k.(stored := if ok then k.stored + InFlight(k) else k.stored, inFlight := None)
  }

  function Step<T>(k: Sink<T>, e: Event<T>): Sink<T> {
    match e
    case Enqueue(x) =>
      var k := k.(sent := k.sent + [x]);
      if k.closed || |k.queue| >= QUEUE_MAX_SIZE then k else k.(queue := k.queue + [x])
    case Take =>
      if k.inFlight.Some? || k.queue == [] then k
      else k.(inFlight := Some(k.queue[0]), queue := k.queue[1..])
    case Settle(ok) => Settled(k, ok)
    case Shut => k.(closed := true)
    case Cancel(ok) => Settled(k, ok).(queue := [], closed := true)
  }

  function Exec<T>(k: Sink<T>, es: seq<Event<T>>): Sink<T> {
    if es == [] then k else Step(Exec(k, es[..|es| - 1]), es[|es| - 1])
  }

  /** A writer that goes on with the list it finds. */
  function Opened<T>(list: seq<T>): Sink<T> {
    Sink(list, None, [], false, list)
  }

  class RedisTranscriptWriter<T(0)> {
    var queue: seq<T>
    var inFlight: Option<T>
    var closed: bool
    var stored: seq<T>
    ghost var sent: seq<T>

    constructor (list: seq<T>)
      ensures View() == Opened(list)
    {
      queue, inFlight, closed, stored, sent := [], None, false, list, list;
    }

    ghost function View(): Sink<T>
      reads this
    {
      Sink(stored, inFlight, queue, closed, sent)
    }

    method EnqueueItem(item: T)
      modifies this
      ensures View() == Step(old(View()), Enqueue(item))
    {
      sent := sent + [item];
      if closed { return; }
      if |queue| < QUEUE_MAX_SIZE {
        queue := queue + [item];
      }
    }

    method TakeNext()
      modifies this
      ensures View() == Step(old(View()), Take)
    {
      if inFlight.None? && queue != [] {
        inFlight := Some(queue[0]);
        queue := queue[1..];
      }
    }

    method SettleItem(ok: bool)
      modifies this
      ensures View() == Step(old(View()), Settle(ok))
    {
      if ok && inFlight.Some? { stored := stored + [inFlight.value]; }
      inFlight := None;
    }

    /** aclose() up to the bounded wait: from here on nothing is accepted. */
    method BeginClose()
      modifies this
      ensures View() == Step(old(View()), Shut)
    {
      closed := true;
    }

    /** aclose() after the bounded wait: the drain task is cancelled and what is queued is lost. */
    method CancelDrain(ok: bool)
      modifies this
      ensures View() == Step(old(View()), Cancel(ok))
    {
      SettleItem(ok);
      queue := [];
      closed := true;
    }
  }

  /** The copy never reorders, duplicates or invents: at every moment what is stored, followed by
      what is still on its way, is a subsequence of what was handed over. */
  ghost predicate Ordered<T>(k: Sink<T>) {
    Sub(k.stored + Pending(k), k.sent)
  }

  lemma StepKeepsOrder<T>(k: Sink<T>, e: Event<T>)
    requires Ordered(k)
    ensures Ordered(Step(k, e))
  {
    var all := k.stored + Pending(k);
    match e
    case Enqueue(x) =>
      SubExtend(all, k.sent, x);
      assert k.stored + (InFlight(k) + (k.queue + [x])) == all + [x];
    case Take =>
      if k.inFlight.None? && k.queue != [] {
        assert k.stored + ([k.queue[0]] + k.queue[1..]) == all;
      }
    case Settle(ok) => SettleKeepsOrder(k, ok);
    case Shut =>
    case Cancel(ok) =>
      SettleKeepsOrder(k, ok);
      var s := Settled(k, ok);
      Prefix(s.stored, s.stored + Pending(s), k.sent);
      var t := Step(k, e);
      assert t.stored + Pending(t) == s.stored;
  }

  lemma SettleKeepsOrder<T>(k: Sink<T>, ok: bool)
    requires Ordered(k)
    ensures Ordered(Settled(k, ok))
  {
    var t := Settled(k, ok);
    if ok || k.inFlight.None? {
      assert t.stored + Pending(t) == k.stored + Pending(k);
    } else {
      SubLose(k.stored, Pending(k), k.sent);
      assert t.stored + Pending(t) == k.stored + Pending(k)[1..];
    }
  }

  lemma {:induction false} Prefix<T>(a: seq<T>, b: seq<T>, c: seq<T>)
    requires a <= b && Sub(b, c)
    ensures Sub(a, c)
  {
    SubRefl(a);
    SubTail(a, a, b[|a|..]);
    assert a + b[|a|..] == b;
    SubTrans(a, b, c);
  }

  /** Whatever the timing and the failures, the list that survives is an ordered subsequence. */
  lemma {:induction false} CopyIsSubsequence<T>(k: Sink<T>, es: seq<Event<T>>)
    requires Ordered(k)
    ensures Ordered(Exec(k, es)) && Sub(Exec(k, es).stored, Exec(k, es).sent)
  {
    if es == [] {
      Prefix(k.stored, k.stored + Pending(k), k.sent);
    } else {
      CopyIsSubsequence(k, es[..|es| - 1]);
      var b := Exec(k, es[..|es| - 1]);
      StepKeepsOrder(b, es[|es| - 1]);
      var s := Exec(k, es);
      Prefix(s.stored, s.stored + Pending(s), s.sent);
    }
  }

  /** The list a writer found is in front of everything it does. */
  function Onto<T>(list: seq<T>, k: Sink<T>): Sink<T> {
    k.(stored := list + k.stored, sent := list + k.sent)
  }

  lemma StepOnto<T>(list: seq<T>, k: Sink<T>, e: Event<T>)
    ensures Step(Onto(list, k), e) == Onto(list, Step(k, e))
  {
    if e.Enqueue? {
      assert list + (k.sent + [e.item]) == (list + k.sent) + [e.item];
    } else if e.Settle? || e.Cancel? {
      assert list + (k.stored + InFlight(k)) == (list + k.stored) + InFlight(k);
    }
  }

  lemma {:induction false} ExecOnto<T>(list: seq<T>, k: Sink<T>, es: seq<Event<T>>)
    ensures Exec(Onto(list, k), es) == Onto(list, Exec(k, es))
  {
    if es != [] {
      ExecOnto(list, k, es[..|es| - 1]);
      StepOnto(list, Exec(k, es[..|es| - 1]), es[|es| - 1]);
    }
  }

  /** A writer never takes anything back: what it found stays in front, and behind it stands an
      ordered subsequence of what it was handed itself. */
  lemma ListOnlyGrows<T>(list: seq<T>, es: seq<Event<T>>)
    ensures var k := Exec(Opened(list), es);
            && list <= k.stored && list <= k.sent
            && Sub(k.stored[|list|..], k.sent[|list|..])
  {
    var none := Opened<T>([]);
    assert Onto(list, none) == Opened(list);
    ExecOnto(list, none, es);
    CopyIsSubsequence(none, es);
    var k := Exec(none, es);
    assert (list + k.stored)[|list|..] == k.stored && (list + k.sent)[|list|..] == k.sent;
  }

  /** A step that loses nothing: the queue has room, the writer is open, the command succeeds. */
  predicate LosesNothing<T>(k: Sink<T>, e: Event<T>) {
    match e
    case Enqueue(_) => !k.closed && |k.queue| < QUEUE_MAX_SIZE
    case Settle(ok) => ok
    case Cancel(_) => false
    case _ => true
  }

  lemma StepLosesNothing<T>(k: Sink<T>, e: Event<T>)
    requires k.stored + Pending(k) == k.sent && LosesNothing(k, e)
    ensures Step(k, e).stored + Pending(Step(k, e)) == Step(k, e).sent
  {
    var s := Step(k, e);
    match e
    case Enqueue(x) => assert s.stored + Pending(s) == (k.stored + Pending(k)) + [x];
    case Take =>
      if k.inFlight.None? && k.queue != [] { assert [k.queue[0]] + k.queue[1..] == k.queue; }
    case Settle(_) => assert s.stored + Pending(s) == k.stored + Pending(k);
    case Shut =>
    case Cancel(_) =>
  }

  /** Without a full queue, a failed command or a shutdown the copy is complete once drained. */
  lemma {:induction false} IntactCopy<T>(k: Sink<T>, es: seq<Event<T>>)
    requires k.stored + Pending(k) == k.sent
    requires forall i | 0 <= i < |es| :: LosesNothing(Exec(k, es[..i]), es[i])
    ensures Exec(k, es).stored + Pending(Exec(k, es)) == Exec(k, es).sent
    ensures Pending(Exec(k, es)) == [] ==> Exec(k, es).stored == Exec(k, es).sent
  {
    if es != [] {
      var front := es[..|es| - 1];
      forall i | 0 <= i < |front|
        ensures LosesNothing(Exec(k, front[..i]), front[i])
      {
        assert front[..i] == es[..i];
      }
      IntactCopy(k, front);
      StepLosesNothing(Exec(k, front), es[|es| - 1]);
    }
  }

  // ------------------------------------------------------------------ what the drain loop achieves

  /** So many rounds of the drain loop, all of them successful. */
  function Rounds<T>(n: nat): seq<Event<T>> {
    if n == 0 then [] else Rounds(n - 1) + [Take, Settle(true)]
  }

  lemma TwoMore<T>(k: Sink<T>, es: seq<Event<T>>, e: Event<T>, f: Event<T>)
    ensures Exec(k, es + [e, f]) == Step(Step(Exec(k, es), e), f)
  {
    var all := es + [e, f];
    assert all[..|all| - 1] == es + [e];
    assert (es + [e])[..|es|] == es;
  }

  lemma OneRound<T>(k: Sink<T>)
    requires k.inFlight.None? && k.queue != []
    ensures Step(Step(k, Take), Settle(true)) == k.(stored := k.stored + [k.queue[0]], queue := k.queue[1..])
  {
  }

  /** A round moves the oldest item to the end of the list: n rounds move n of them, closed or not. */
  lemma {:induction false} RoundsMove<T>(k: Sink<T>, n: nat)
    requires k.inFlight.None? && n <= |k.queue|
    ensures Exec(k, Rounds(n)) == k.(stored := k.stored + k.queue[..n], queue := k.queue[n..])
  {
    if n > 0 {
      RoundsMove(k, n - 1);
      TwoMore(k, Rounds(n - 1), Take, Settle(true));
      OneRound(k.(stored := k.stored + k.queue[..n - 1], queue := k.queue[n - 1..]));
      assert k.queue[..n] == k.queue[..n - 1] + [k.queue[n - 1]];
      assert k.stored + k.queue[..n] == (k.stored + k.queue[..n - 1]) + [k.queue[n - 1]];
    }
  }

  /** The drain loop gets everything out that was accepted, whatever happened before. */
  lemma DrainLoopDrains<T>(k: Sink<T>)
    ensures var d := Exec(Step(k, Settle(true)), Rounds(|k.queue|));
            Pending(d) == [] && d.stored == k.stored + Pending(k)
  {
    RoundsMove(Step(k, Settle(true)), |k.queue|);
    assert k.stored + InFlight(k) + k.queue == k.stored + Pending(k);
  }

  /** The queue is bounded, and a writer that was closed takes nothing more. */
  lemma {:induction false} AcceptsWithinBounds<T>(k: Sink<T>, es: seq<Event<T>>)
    requires |k.queue| <= QUEUE_MAX_SIZE
    ensures |Exec(k, es).queue| <= QUEUE_MAX_SIZE
    ensures k.closed ==> Exec(k, es).closed && Sub(Exec(k, es).stored + Pending(Exec(k, es)), k.stored + Pending(k))
  {
    if es == [] {
      SubRefl(k.stored + Pending(k));
    } else {
      AcceptsWithinBounds(k, es[..|es| - 1]);
      var b, e := Exec(k, es[..|es| - 1]), es[|es| - 1];
      if k.closed {
        ClosedOnlyLoses(b, e);
        SubTrans(Step(b, e).stored + Pending(Step(b, e)), b.stored + Pending(b), k.stored + Pending(k));
      }
    }
  }

  lemma ClosedOnlyLoses<T>(k: Sink<T>, e: Event<T>)
    requires k.closed
    ensures Step(k, e).closed
    ensures Sub(Step(k, e).stored + Pending(Step(k, e)), k.stored + Pending(k))
  {
    var all := k.stored + Pending(k);
    SubRefl(all);
    if !e.Enqueue? { StepKeepsOrder(k.(sent := all), e); }
  }
}
