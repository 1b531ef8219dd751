/** The end sequence: which effects a run has, in which order, and how long it can take. */
module EndSequences {
  import opened Wrappers
  import opened EndStates

  datatype Guarded = FlushStep | PurgeStep | RoomStep

  datatype Call = CloseWriter | AskOwner(step: Guarded) | Flush | Purge | Publish | DeleteRoom(attempt: nat)

  /** How an external call behaves when left alone. */
  datatype Behaviour = Answers(value: bool, after: nat) | Raises(after: nat) | Hangs

  type World = Call -> Behaviour

  /** Which callbacks are injected, and the limits. */
  datatype Config = Config(
    hasWriter: bool, hasFlush: bool, hasPurge: bool, hasPublish: bool, hasRoom: bool, hasGuard: bool,
    timeout: nat, attempts: int, backoff: nat)

  datatype Effect =
    | Called(call: Call, result: Option<bool>, took: nat)   // no result: raised or timed out
    | Pause(length: nat)
    | Shutdown(cause: EndCause)

  /** wait_for(): the answer if it comes in time. */
  function InTime(b: Behaviour, timeout: nat): Option<bool> {
    if b.Answers? && b.after <= timeout then Some(b.value) else None
  }

  function Took(b: Behaviour, timeout: nat): nat {
    if b.Hangs? || b.after > timeout then timeout else b.after
  }

  function Tried(k: Config, w: World, c: Call): Effect {
    Called(c, InTime(w(c), k.timeout), Took(w(c), k.timeout))
  }

  // ------------------------------------------------------------------ the effects of each step

  function FinalizeTrace(k: Config, w: World): seq<Effect> {
    if k.hasWriter then [Tried(k, w, CloseWriter)] else []
  }

  function AskTrace(k: Config, w: World, step: Guarded): seq<Effect> {
    if k.hasGuard then [Tried(k, w, AskOwner(step))] else []
  }

  /** Only a clear "no" stops a step: an owner check that fails or hangs lets it pass. */
  predicate Allowed(k: Config, w: World, step: Guarded) {
    k.hasGuard ==> InTime(w(AskOwner(step)), k.timeout) != Some(false)
  }

  function StepTrace(k: Config, w: World, step: Guarded, c: Call): seq<Effect> {
    AskTrace(k, w, step) + (if Allowed(k, w, step) then [Tried(k, w, c)] else [])
  }

  predicate FlushSucceeds(k: Config, w: World) {
    k.hasFlush && Allowed(k, w, FlushStep) && InTime(w(Flush), k.timeout) == Some(true)
  }

  function FlushTrace(k: Config, w: World): seq<Effect> {
    if k.hasFlush then StepTrace(k, w, FlushStep, Flush) else []
  }

  function PurgeTrace(k: Config, w: World): seq<Effect> {
    if k.hasPurge then StepTrace(k, w, PurgeStep, Purge) else []
  }

  function PublishTrace(k: Config, w: World): seq<Effect> {
    if k.hasPublish then [Tried(k, w, Publish)] else []
  }

  /** Attempts from number i on, with a pause between two of them. */
  function DeleteTrace(k: Config, w: World, i: nat): seq<Effect>
    decreases k.attempts - i
  {
    if i > k.attempts then []
    else if InTime(w(DeleteRoom(i)), k.timeout).Some? then [Tried(k, w, DeleteRoom(i))]
    else [Tried(k, w, DeleteRoom(i))] + (if i < k.attempts then [Pause(k.backoff)] else []) + DeleteTrace(k, w, i + 1)
  }

  function RoomTrace(k: Config, w: World): seq<Effect> {
    if !k.hasRoom then []
    else AskTrace(k, w, RoomStep) + (if Allowed(k, w, RoomStep) then DeleteTrace(k, w, 1) else [])
  }

  function KeepTrace(k: Config, w: World, cause: EndCause): seq<Effect> {
    if cause == RECONNECT_TIMEOUT then []
    else FlushTrace(k, w) + (if FlushSucceeds(k, w) then PurgeTrace(k, w) + PublishTrace(k, w) else [])
  }

  function RunTrace(k: Config, w: World, cause: EndCause): seq<Effect> {
    FinalizeTrace(k, w) + KeepTrace(k, w, cause) + RoomTrace(k, w) + [Shutdown(cause)]
  }

  lemma AttemptUnfolds(k: Config, w: World, i: nat, before: seq<Effect>)
    requires i <= k.attempts
    ensures var one := [Tried(k, w, DeleteRoom(i))];
            if InTime(w(DeleteRoom(i)), k.timeout).Some? then before + DeleteTrace(k, w, i) == before + one
            else if i < k.attempts then
              before + DeleteTrace(k, w, i) == before + one + [Pause(k.backoff)] + DeleteTrace(k, w, i + 1)
            else before + DeleteTrace(k, w, i) == before + one + DeleteTrace(k, w, i + 1)
  {
    var one := [Tried(k, w, DeleteRoom(i))];
    assert one + [] == one;
  }

  // ------------------------------------------------------------------ the object

  class EndSequence {
    const config: Config
    ghost var trace: seq<Effect>

    constructor (config: Config)
      ensures this.config == config && trace == []
    {
      this.config, trace := config, [];
    }

    /** One external call under the step timeout. */
    method Await(w: World, c: Call) returns (r: Option<bool>)
      modifies this
      ensures trace == old(trace) + [Tried(config, w, c)] && r == InTime(w(c), config.timeout)
    {
      r := InTime(w(c), config.timeout);
      trace := trace + [Tried(config, w, c)];
    }

    method IsAllowed(w: World, step: Guarded) returns (ok: bool)
      modifies this
      ensures trace == old(trace) + AskTrace(config, w, step) && ok == Allowed(config, w, step)
    {
      if !config.hasGuard { return true; }
      var r := Await(w, AskOwner(step));
      return r != Some(false);
    }

    method FinalizeLog(w: World)
      modifies this
      ensures trace == old(trace) + FinalizeTrace(config, w)
    {
      if !config.hasWriter { return; }
      var _ := Await(w, CloseWriter);
    }

    method FlushTranscript(w: World) returns (ok: bool)
      modifies this
      ensures trace == old(trace) + FlushTrace(config, w) && ok == FlushSucceeds(config, w)
    {
      if !config.hasFlush { return false; }
      var allowed := IsAllowed(w, FlushStep);
      if !allowed { return false; }
      var r := Await(w, Flush);
      return r == Some(true);
    }

    method PurgeRedis(w: World)
      modifies this
      ensures trace == old(trace) + PurgeTrace(config, w)
    {
      if !config.hasPurge { return; }
      var allowed := IsAllowed(w, PurgeStep);
      if !allowed { return; }
      var _ := Await(w, Purge);
    }

    method PublishReportRequest(w: World)
      modifies this
      ensures trace == old(trace) + PublishTrace(config, w)
    {
      if !config.hasPublish { return; }
      var _ := Await(w, Publish);
    }

    method DeleteTheRoom(w: World)
      modifies this
      ensures trace == old(trace) + RoomTrace(config, w)
    {
      if !config.hasRoom { return; }
      ghost var asked := AskTrace(config, w, RoomStep);
      var allowed := IsAllowed(w, RoomStep);
      if allowed {
        DeleteAttempts(w);
        assert RoomTrace(config, w) == asked + DeleteTrace(config, w, 1);
      } else {
        assert RoomTrace(config, w) == asked;
      }
    }

    method DeleteAttempts(w: World)
      modifies this
      ensures trace == old(trace) + DeleteTrace(config, w, 1)
    {
      var i := 1;
      while i <= config.attempts
        invariant 1 <= i
        invariant old(trace) + DeleteTrace(config, w, 1) == trace + DeleteTrace(config, w, i)
        decreases config.attempts - i
      {
        AttemptUnfolds(config, w, i, trace);
        var r := Await(w, DeleteRoom(i));
        if r.Some? { return; }
        if i < config.attempts { trace := trace + [Pause(config.backoff)]; }
        i := i + 1;
      }
    }

    method KeepTranscript(w: World, cause: EndCause)
      modifies this
      ensures trace == old(trace) + KeepTrace(config, w, cause)
    {
      if cause == RECONNECT_TIMEOUT { return; }
      var flushed := FlushTranscript(w);
      if flushed {
        PurgeRedis(w);
        PublishReportRequest(w);
      }
    }

    method Run(w: World, cause: EndCause)
      modifies this
      ensures trace == old(trace) + RunTrace(config, w, cause)
    {
      ghost var before := trace;
      FinalizeLog(w);
      KeepTranscript(w, cause);
      DeleteTheRoom(w);
      trace := trace + [Shutdown(cause)];
      FourParts(before, FinalizeTrace(config, w), KeepTrace(config, w, cause), RoomTrace(config, w), [Shutdown(cause)]);
    }
  }

  lemma FourParts(t: seq<Effect>, a: seq<Effect>, b: seq<Effect>, c: seq<Effect>, d: seq<Effect>)
    ensures t + a + b + c + d == t + (a + b + c + d)
  {
  }

  // ------------------------------------------------------------------ what every run guarantees

  predicate Calls(e: Effect, c: Call) {
    e.Called? && e.call == c
  }

  lemma {:induction false} DeleteOnlyDeletes(k: Config, w: World, i: nat)
    ensures forall e | e in DeleteTrace(k, w, i) :: e.Pause? || (e.Called? && e.call.DeleteRoom?)
    decreases k.attempts - i
  {
    if i <= k.attempts { DeleteOnlyDeletes(k, w, i + 1); }
  }

  predicate GoesOn(t: seq<Effect>) {
    forall i | 0 <= i < |t| :: !t[i].Shutdown?
  }

  lemma BothGoOn(a: seq<Effect>, b: seq<Effect>)
    requires GoesOn(a) && GoesOn(b)
    ensures GoesOn(a + b)
  {
  }

  lemma {:induction false} DeletingGoesOn(k: Config, w: World, i: nat)
    ensures GoesOn(DeleteTrace(k, w, i))
    decreases k.attempts - i
  {
    if i <= k.attempts { DeletingGoesOn(k, w, i + 1); }
  }

  lemma KeepingGoesOn(k: Config, w: World, cause: EndCause)
    ensures GoesOn(KeepTrace(k, w, cause))
  {
    BothGoOn(PurgeTrace(k, w), PublishTrace(k, w));
    BothGoOn(FlushTrace(k, w), PurgeTrace(k, w) + PublishTrace(k, w));
    BothGoOn(FlushTrace(k, w), []);
  }

  lemma NoEarlierShutdown(k: Config, w: World, cause: EndCause)
    ensures GoesOn(FinalizeTrace(k, w) + KeepTrace(k, w, cause) + RoomTrace(k, w))
  {
    KeepingGoesOn(k, w, cause);
    DeletingGoesOn(k, w, 1);
    BothGoOn(AskTrace(k, w, RoomStep), if Allowed(k, w, RoomStep) then DeleteTrace(k, w, 1) else []);
    BothGoOn(FinalizeTrace(k, w), KeepTrace(k, w, cause));
    BothGoOn(FinalizeTrace(k, w) + KeepTrace(k, w, cause), RoomTrace(k, w));
  }

  /** Whatever fails, hangs or is refused, shutdown happens exactly once, as the last effect. */
  lemma ShutdownExactlyOnce(k: Config, w: World, cause: EndCause)
    ensures var t := RunTrace(k, w, cause);
            t != [] && t[|t| - 1] == Shutdown(cause) && forall i | 0 <= i < |t| - 1 :: !t[i].Shutdown?
  {
    NoEarlierShutdown(k, w, cause);
    var front := FinalizeTrace(k, w) + KeepTrace(k, w, cause) + RoomTrace(k, w);
    var t := RunTrace(k, w, cause);
    assert t == front + [Shutdown(cause)];
    forall i | 0 <= i < |t| - 1
      ensures !t[i].Shutdown?
    {
      assert t[i] == front[i];
    }
  }

  predicate NeedsFlush(e: Effect) {
    Calls(e, Purge) || Calls(e, Publish)
  }

  predicate IsFlush(e: Effect) {
    Calls(e, Flush) && e.result == Some(true)
  }

  /** Every effect that needs a flush has a successful one before it. */
  predicate FlushFirst(t: seq<Effect>) {
    forall i | 0 <= i < |t| && NeedsFlush(t[i]) :: exists j :: 0 <= j < i && IsFlush(t[j])
  }

  lemma FlushFirstBetween(a: seq<Effect>, b: seq<Effect>, c: seq<Effect>)
    requires FlushFirst(b) && (forall e | e in a :: !NeedsFlush(e)) && (forall e | e in c :: !NeedsFlush(e))
    ensures FlushFirst(a + b + c)
  {
    var t := a + b + c;
    forall i | 0 <= i < |t|
      ensures NeedsFlush(t[i]) ==> |a| <= i < |a| + |b|
    {
      if i < |a| {
        assert t[i] == a[i] && a[i] in a;
      } else if i >= |a| + |b| {
        assert t[i] == c[i - |a| - |b|] && c[i - |a| - |b|] in c;
      }
    }
    forall i | 0 <= i < |t| && NeedsFlush(t[i])
      ensures exists j :: 0 <= j < i && IsFlush(t[j])
    {
      assert t[i] == b[i - |a|];
      var j :| 0 <= j < i - |a| && IsFlush(b[j]);
      assert t[|a| + j] == b[j];
    }
  }

  /** The Redis copy is purged and the report requested only after a flush that succeeded. */
  lemma PurgeOnlyAfterFlush(k: Config, w: World, cause: EndCause)
    ensures FlushFirst(RunTrace(k, w, cause))
  {
    DeleteOnlyDeletes(k, w, 1);
    var rest := RoomTrace(k, w) + [Shutdown(cause)];
    KeepFlushesFirst(k, w, cause);
    FlushFirstBetween(FinalizeTrace(k, w), KeepTrace(k, w, cause), rest);
    assert RunTrace(k, w, cause) == FinalizeTrace(k, w) + KeepTrace(k, w, cause) + rest;
  }

  /** A session that ran out of its reconnect window is neither flushed nor purged nor reported. */
  lemma ReconnectTimeoutKeepsNothing(k: Config, w: World)
    ensures forall e | e in RunTrace(k, w, RECONNECT_TIMEOUT) :: !Calls(e, Flush) && !NeedsFlush(e)
  {
    DeleteOnlyDeletes(k, w, 1);
  }

  lemma KeepFlushesFirst(k: Config, w: World, cause: EndCause)
    ensures FlushFirst(KeepTrace(k, w, cause))
  {
    var f, t := FlushTrace(k, w), KeepTrace(k, w, cause);
    if cause != RECONNECT_TIMEOUT {
      assert t == f + (if FlushSucceeds(k, w) then PurgeTrace(k, w) + PublishTrace(k, w) else []);
      assert forall i | 0 <= i < |f| :: t[i] == f[i] && !NeedsFlush(f[i]);
      if FlushSucceeds(k, w) {
        assert f[|f| - 1] == Tried(k, w, Flush);
        assert IsFlush(t[|f| - 1]);
      }
    }
  }

  /** A successful flush is followed by both, whatever the purge does, unless the owner check
      forbids the purge; the report request is never guarded. */
  lemma FlushedIsPublished(k: Config, w: World, cause: EndCause)
    requires cause != RECONNECT_TIMEOUT && FlushSucceeds(k, w)
    ensures k.hasPublish ==> Tried(k, w, Publish) in RunTrace(k, w, cause)
    ensures k.hasPurge && Allowed(k, w, PurgeStep) ==> Tried(k, w, Purge) in RunTrace(k, w, cause)
  {
  }

  /** The room is deleted, or every attempt was made and failed. */
  lemma {:induction false} RoomGoneOrExhausted(k: Config, w: World, i: nat)
    requires 1 <= i <= k.attempts
    ensures var t := DeleteTrace(k, w, i);
            || (t != [] && t[|t| - 1].Called? && t[|t| - 1].result.Some?)
            || forall n | i <= n <= k.attempts :: Failed(k, w, n) in t
    decreases k.attempts - i
  {
    var t := DeleteTrace(k, w, i);
    if InTime(w(DeleteRoom(i)), k.timeout).None? {
      var rest := DeleteTrace(k, w, i + 1);
      var head := [Tried(k, w, DeleteRoom(i))] + (if i < k.attempts then [Pause(k.backoff)] else []);
      assert t == head + rest && head[0] == Failed(k, w, i);
      if i < k.attempts {
        RoomGoneOrExhausted(k, w, i + 1);
        assert rest != [] ==> t[|t| - 1] == rest[|rest| - 1];
      }
    }
  }

  function Failed(k: Config, w: World, attempt: nat): Effect {
    Called(DeleteRoom(attempt), None, Took(w(DeleteRoom(attempt)), k.timeout))
  }

  // ------------------------------------------------------------------ time

  function Elapsed(t: seq<Effect>): nat {
    if t == [] then 0 else
    Elapsed(t[..|t| - 1]) + (match t[|t| - 1] case Called(_, _, took) => took case Pause(n) => n case Shutdown(_) => 0)
  }

  lemma {:induction false} ElapsedAdds(a: seq<Effect>, b: seq<Effect>)
    ensures Elapsed(a + b) == Elapsed(a) + Elapsed(b)
  {
    if b == [] {
      assert a + b == a;
    } else {
      ElapsedAdds(a, b[..|b| - 1]);
      assert (a + b)[..|a + b| - 1] == a + b[..|b| - 1];
    }
  }

  lemma OneCall(k: Config, w: World, c: Call)
    ensures Elapsed([Tried(k, w, c)]) <= k.timeout
  {
    assert [Tried(k, w, c)][..0] == [];
  }

  lemma StepTime(k: Config, w: World, step: Guarded, c: Call)
    ensures Elapsed(AskTrace(k, w, step)) <= k.timeout
    ensures Elapsed(StepTrace(k, w, step, c)) <= 2 * k.timeout
  {
    OneCall(k, w, AskOwner(step));
    OneCall(k, w, c);
    ElapsedAdds(AskTrace(k, w, step), if Allowed(k, w, step) then [Tried(k, w, c)] else []);
  }

  lemma {:induction false} DeleteTime(k: Config, w: World, i: nat)
    requires 1 <= i <= k.attempts
    ensures Elapsed(DeleteTrace(k, w, i)) <= (k.attempts - i + 1) * k.timeout + (k.attempts - i) * k.backoff
    decreases k.attempts - i
  {
    var one := [Tried(k, w, DeleteRoom(i))];
    OneCall(k, w, DeleteRoom(i));
    Slack(k.attempts - i, k.timeout, k.backoff);
    if InTime(w(DeleteRoom(i)), k.timeout).None? {
      if i < k.attempts {
        DeleteTime(k, w, i + 1);
        var pause := [Pause(k.backoff)];
        assert pause[..0] == [];
        ElapsedAdds(one, pause);
        ElapsedAdds(one + pause, DeleteTrace(k, w, i + 1));
        Unfold(k.attempts - i, k.timeout, k.backoff);
      } else {
        assert DeleteTrace(k, w, i) == one;
      }
    }
  }

  lemma Slack(n: nat, t: nat, b: nat)
    ensures t <= (n + 1) * t + n * b
  {
  }

  lemma Unfold(n: nat, t: nat, b: nat)
    requires n >= 1
    ensures t + b + n * t + (n - 1) * b == (n + 1) * t + n * b
  {
  }

  lemma PublishTime(k: Config, w: World)
    ensures Elapsed(PurgeTrace(k, w) + PublishTrace(k, w)) <= 3 * k.timeout
  {
    OneCall(k, w, Publish);
    StepTime(k, w, PurgeStep, Purge);
    ElapsedAdds(PurgeTrace(k, w), PublishTrace(k, w));
  }

  lemma KeepTime(k: Config, w: World, cause: EndCause)
    ensures Elapsed(KeepTrace(k, w, cause)) <= 5 * k.timeout
  {
    if cause != RECONNECT_TIMEOUT {
      StepTime(k, w, FlushStep, Flush);
      PublishTime(k, w);
      var rest := if FlushSucceeds(k, w) then PurgeTrace(k, w) + PublishTrace(k, w) else [];
      ElapsedAdds(FlushTrace(k, w), rest);
    }
  }

  lemma RoomTime(k: Config, w: World)
    ensures Elapsed(RoomTrace(k, w)) <= k.timeout + DeleteBound(k)
  {
    StepTime(k, w, RoomStep, DeleteRoom(1));
    ElapsedAdds(AskTrace(k, w, RoomStep), if Allowed(k, w, RoomStep) then DeleteTrace(k, w, 1) else []);
    DeleteBounded(k, w);
  }

  /** All attempts and the pauses between them. */
  function DeleteBound(k: Config): nat {
    Max(k.attempts, 0) * k.timeout + Max(k.attempts - 1, 0) * k.backoff
  }

  lemma DeleteBounded(k: Config, w: World)
    ensures Elapsed(DeleteTrace(k, w, 1)) <= DeleteBound(k)
  {
    if k.attempts >= 1 {
      DeleteTime(k, w, 1);
    } else {
      assert DeleteTrace(k, w, 1) == [];
    }
  }

  /** From the first effect to shutdown: seven calls, the attempts, and the pauses between them. */
  lemma EndsInTime(k: Config, w: World, cause: EndCause)
    ensures Elapsed(RunTrace(k, w, cause))
            <= (7 + Max(k.attempts, 0)) * k.timeout + Max(k.attempts - 1, 0) * k.backoff
  {
    var a, b, c := FinalizeTrace(k, w), KeepTrace(k, w, cause), RoomTrace(k, w);
    OneCall(k, w, CloseWriter);
    KeepTime(k, w, cause);
    RoomTime(k, w);
    ElapsedAdds(a, b);
    ElapsedAdds(a + b, c);
    assert [Shutdown(cause)][..0] == [];
    ElapsedAdds(a + b + c, [Shutdown(cause)]);
    Distribute(7, Max(k.attempts, 0), k.timeout);
  }

  lemma Distribute(a: nat, b: nat, t: nat)
    ensures (a + b) * t == a * t + b * t
  {
  }
}
