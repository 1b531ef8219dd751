/** Laws of the whole end sequence, read off its effects alone. */
module EndLaws {
  import opened Wrappers
  import opened EndStates
  import opened EndSequences

  type Trace = seq<Effect>

  predicate Made(t: Trace, c: Call) {
    exists e | e in t :: Calls(e, c)
  }

  /** The owner check before a step said no. */
  predicate Refused(t: Trace, step: Guarded) {
    exists e | e in t :: Calls(e, AskOwner(step)) && e.result == Some(false)
  }

  predicate Flushed(t: Trace) {
    exists e | e in t :: IsFlush(e)
  }

  predicate RoomDeleted(t: Trace) {
    exists e | e in t :: e.Called? && e.call.DeleteRoom? && e.result.Some?
  }

  predicate AttemptFailed(t: Trace, n: nat) {
    exists e | e in t :: Calls(e, DeleteRoom(n)) && e.result.None?
  }

  // ------------------------------------------------------------------ where an effect can stand

  lemma InRun(k: Config, w: World, cause: EndCause, e: Effect)
    ensures e in RunTrace(k, w, cause) <==>
              e in FinalizeTrace(k, w) || e in KeepTrace(k, w, cause) || e in RoomTrace(k, w) || e == Shutdown(cause)
  {
  }

  lemma InRoom(k: Config, w: World, e: Effect)
    ensures e in RoomTrace(k, w) ==> e.Pause? || (e.Called? && (e.call.DeleteRoom? || e.call == AskOwner(RoomStep)))
  {
    DeleteOnlyDeletes(k, w, 1);
  }

  lemma InKeep(k: Config, w: World, cause: EndCause, e: Effect)
    ensures e in KeepTrace(k, w, cause) ==>
              e.Called? && e.call in {AskOwner(FlushStep), Flush, AskOwner(PurgeStep), Purge, Publish}
  {
  }

  lemma RoomIsOfRoom(k: Config, w: World, cause: EndCause, e: Effect)
    requires e.Called? && (e.call.DeleteRoom? || e.call == AskOwner(RoomStep))
    ensures e in RunTrace(k, w, cause) <==> e in RoomTrace(k, w)
  {
    InRun(k, w, cause, e);
    InKeep(k, w, cause, e);
  }

  lemma KeepIsOfKeep(k: Config, w: World, cause: EndCause, e: Effect)
    requires e.Called? && e.call in {AskOwner(FlushStep), Flush, AskOwner(PurgeStep), Purge, Publish}
    ensures e in RunTrace(k, w, cause) <==> e in KeepTrace(k, w, cause)
  {
    InRun(k, w, cause, e);
    InRoom(k, w, e);
  }

  // ------------------------------------------------------------------ the room

  lemma {:induction false} DeletesAll(k: Config, w: World, i: nat)
    requires 1 <= i <= k.attempts
    ensures var t := DeleteTrace(k, w, i);
            RoomDeleted(t) || forall n | i <= n <= k.attempts :: AttemptFailed(t, n)
    decreases k.attempts - i
  {
    var t := DeleteTrace(k, w, i);
    assert Tried(k, w, DeleteRoom(i)) in t;
    if InTime(w(DeleteRoom(i)), k.timeout).None? && i < k.attempts {
      DeletesAll(k, w, i + 1);
      var rest := DeleteTrace(k, w, i + 1);
      assert forall e | e in rest :: e in t;
      forall n | i <= n <= k.attempts && !RoomDeleted(t)
        ensures AttemptFailed(t, n)
      {
        if n > i {
          assert !RoomDeleted(rest) && AttemptFailed(rest, n);
        }
      }
    }
  }

  lemma RoomParts(k: Config, w: World, e: Effect)
    requires k.hasRoom
    ensures e in RoomTrace(k, w) <==>
              (k.hasGuard && e == Tried(k, w, AskOwner(RoomStep)))
              || (Allowed(k, w, RoomStep) && e in DeleteTrace(k, w, 1))
  {
  }

  /** Unless the owner check said no, the room is deleted or every attempt was made and failed; after a
      no, and where there is no room to delete, no attempt is made. */
  lemma RoomIsDeleted(k: Config, w: World, cause: EndCause)
    ensures var t := RunTrace(k, w, cause);
            && (k.hasRoom && k.attempts >= 1 && !Refused(t, RoomStep) ==>
                  RoomDeleted(t) || forall n | 1 <= n <= k.attempts :: AttemptFailed(t, n))
            && (!k.hasRoom || Refused(t, RoomStep) ==> forall e | e in t :: !(e.Called? && e.call.DeleteRoom?))
  {
    var t := RunTrace(k, w, cause);
    var asked := Tried(k, w, AskOwner(RoomStep));
    DeleteOnlyDeletes(k, w, 1);
    if k.hasRoom {
      RoomParts(k, w, asked);
      RoomIsOfRoom(k, w, cause, asked);
      RefusedIff(k, w, cause);
      if k.attempts >= 1 && !Refused(t, RoomStep) {
        DeletesAll(k, w, 1);
        RoomIsInRun(k, w, cause);
      }
    }
    forall e | e in t && (!k.hasRoom || Refused(t, RoomStep))
      ensures !(e.Called? && e.call.DeleteRoom?)
    {
      if e.Called? && e.call.DeleteRoom? {
        RoomIsOfRoom(k, w, cause, e);
        if k.hasRoom { RoomParts(k, w, e); }
      }
    }
  }

  lemma RefusedIff(k: Config, w: World, cause: EndCause)
    requires k.hasRoom
    ensures Refused(RunTrace(k, w, cause), RoomStep) <==> !Allowed(k, w, RoomStep)
  {
    var t := RunTrace(k, w, cause);
    var asked := Tried(k, w, AskOwner(RoomStep));
    DeleteOnlyDeletes(k, w, 1);
    RoomParts(k, w, asked);
    RoomIsOfRoom(k, w, cause, asked);
    forall e | e in t && Calls(e, AskOwner(RoomStep))
      ensures e == asked
    {
      RoomIsOfRoom(k, w, cause, e);
      RoomParts(k, w, e);
    }
  }

  lemma RoomIsInRun(k: Config, w: World, cause: EndCause)
    requires k.hasRoom && Allowed(k, w, RoomStep)
    ensures var t := RunTrace(k, w, cause); var d := DeleteTrace(k, w, 1);
            && (RoomDeleted(d) ==> RoomDeleted(t))
            && forall n: nat | AttemptFailed(d, n) :: AttemptFailed(t, n)
  {
    var t := RunTrace(k, w, cause);
    forall e | e in DeleteTrace(k, w, 1)
      ensures e in t
    {
      RoomParts(k, w, e);
      InRun(k, w, cause, e);
    }
  }

  // ------------------------------------------------------------------ flush, purge and publication

  lemma KeepParts(k: Config, w: World, cause: EndCause, e: Effect)
    requires cause != RECONNECT_TIMEOUT
    ensures e in KeepTrace(k, w, cause) <==>
              || (k.hasFlush && k.hasGuard && e == Tried(k, w, AskOwner(FlushStep)))
              || (k.hasFlush && Allowed(k, w, FlushStep) && e == Tried(k, w, Flush))
              || (FlushSucceeds(k, w) && k.hasPurge && k.hasGuard && e == Tried(k, w, AskOwner(PurgeStep)))
              || (FlushSucceeds(k, w) && k.hasPurge && Allowed(k, w, PurgeStep) && e == Tried(k, w, Purge))
              || (FlushSucceeds(k, w) && k.hasPublish && e == Tried(k, w, Publish))
  {
  }

  /** The transcript is flushed unless the owner check said no, the session ran out of its reconnect
      window, or there is nothing to flush with. */
  lemma FlushIsMade(k: Config, w: World, cause: EndCause)
    ensures var t := RunTrace(k, w, cause);
            Made(t, Flush) <==> k.hasFlush && cause != RECONNECT_TIMEOUT && !Refused(t, FlushStep)
  {
    var t := RunTrace(k, w, cause);
    if cause == RECONNECT_TIMEOUT {
      ReconnectTimeoutKeepsNothing(k, w);
    } else {
      var asked, made := Tried(k, w, AskOwner(FlushStep)), Tried(k, w, Flush);
      KeepParts(k, w, cause, asked);
      KeepParts(k, w, cause, made);
      KeepIsOfKeep(k, w, cause, asked);
      KeepIsOfKeep(k, w, cause, made);
      forall e | e in t && (Calls(e, AskOwner(FlushStep)) || Calls(e, Flush))
        ensures e == asked || e == made
        ensures e == asked ==> k.hasFlush && k.hasGuard
        ensures e == made ==> k.hasFlush && Allowed(k, w, FlushStep)
      {
        KeepIsOfKeep(k, w, cause, e);
        KeepParts(k, w, cause, e);
      }
    }
  }

  lemma FlushedIff(k: Config, w: World, cause: EndCause)
    requires cause != RECONNECT_TIMEOUT
    ensures Flushed(RunTrace(k, w, cause)) <==> FlushSucceeds(k, w)
  {
    var t := RunTrace(k, w, cause);
    var made := Tried(k, w, Flush);
    KeepParts(k, w, cause, made);
    KeepIsOfKeep(k, w, cause, made);
    forall e | e in t && IsFlush(e)
      ensures FlushSucceeds(k, w)
    {
      KeepIsOfKeep(k, w, cause, e);
      KeepParts(k, w, cause, e);
    }
  }

  /** After a flush that succeeded, and only then, the copy is purged, unless the owner check said no,
      and the report is requested, whatever becomes of the purge. */
  lemma FlushedIsKept(k: Config, w: World, cause: EndCause)
    ensures var t := RunTrace(k, w, cause);
            && (Made(t, Purge) <==> k.hasPurge && Flushed(t) && !Refused(t, PurgeStep))
            && (Made(t, Publish) <==> k.hasPublish && Flushed(t))
  {
    var t := RunTrace(k, w, cause);
    if cause == RECONNECT_TIMEOUT {
      ReconnectTimeoutKeepsNothing(k, w);
    } else {
      FlushedIff(k, w, cause);
      var asked, purge, publish := Tried(k, w, AskOwner(PurgeStep)), Tried(k, w, Purge), Tried(k, w, Publish);
      KeepMade(k, w, cause, asked);
      KeepMade(k, w, cause, purge);
      KeepMade(k, w, cause, publish);
      forall e | e in t && (Calls(e, AskOwner(PurgeStep)) || Calls(e, Purge) || Calls(e, Publish))
        ensures e == asked || e == purge || e == publish
      {
        KeepMade(k, w, cause, e);
      }
    }
  }

  lemma KeepMade(k: Config, w: World, cause: EndCause, e: Effect)
    requires cause != RECONNECT_TIMEOUT && e.Called? && e.call in {AskOwner(PurgeStep), Purge, Publish}
    ensures e in RunTrace(k, w, cause) <==>
              && FlushSucceeds(k, w) && e == Tried(k, w, e.call)
              && (match e.call
                  case Publish => k.hasPublish
                  case Purge => k.hasPurge && Allowed(k, w, PurgeStep)
                  case _ => k.hasPurge && k.hasGuard)
  {
    KeepIsOfKeep(k, w, cause, e);
    KeepParts(k, w, cause, e);
  }

  // ------------------------------------------------------------------ order

  /** The place of a call in the sequence. */
  function Place(c: Call): nat {
    match c
    case CloseWriter => 0
    case AskOwner(step) => (match step case FlushStep => 1 case PurgeStep => 3 case RoomStep => 6)
    case Flush => 2
    case Purge => 4
    case Publish => 5
    case DeleteRoom(n) => 7 + n
  }

  /** Calls stand in their order, none twice, with places from `lo` on and below `hi`. */
  predicate Placed(t: Trace, lo: nat, hi: int) {
    && (forall i | 0 <= i < |t| && t[i].Called? :: lo <= Place(t[i].call) < hi)
    && (forall i, j | 0 <= i < j < |t| && t[i].Called? && t[j].Called? :: Place(t[i].call) < Place(t[j].call))
  }

  lemma PlacedBoth(a: Trace, b: Trace, lo: nat, mid: nat, hi: int)
    requires Placed(a, lo, mid) && Placed(b, mid, hi) && lo <= mid <= hi
    ensures Placed(a + b, lo, hi)
  {
  }

  lemma {:induction false} DeletesPlaced(k: Config, w: World, i: nat)
    requires 1 <= i
    ensures Placed(DeleteTrace(k, w, i), 7 + i, 8 + Max(k.attempts, i))
    decreases k.attempts - i
  {
    if i <= k.attempts {
      DeletesPlaced(k, w, i + 1);
      var head := [Tried(k, w, DeleteRoom(i))] + (if i < k.attempts then [Pause(k.backoff)] else []);
      assert Placed(head, 7 + i, 8 + i);
      if i < k.attempts {
        PlacedBoth(head, DeleteTrace(k, w, i + 1), 7 + i, 8 + i, 8 + k.attempts);
      } else {
        assert DeleteTrace(k, w, i + 1) == [];
      }
    }
  }

  lemma StepPlaced(k: Config, w: World, step: Guarded, c: Call)
    requires Place(AskOwner(step)) < Place(c)
    ensures Placed(StepTrace(k, w, step, c), Place(AskOwner(step)), Place(c) + 1)
  {
    assert Placed(AskTrace(k, w, step), Place(AskOwner(step)), Place(c));
    var made := if Allowed(k, w, step) then [Tried(k, w, c)] else [];
    assert Placed(made, Place(c), Place(c) + 1);
    PlacedBoth(AskTrace(k, w, step), made, Place(AskOwner(step)), Place(c), Place(c) + 1);
  }

  lemma PublishPlaced(k: Config, w: World)
    ensures Placed(PurgeTrace(k, w) + PublishTrace(k, w), 3, 6)
  {
    StepPlaced(k, w, PurgeStep, Purge);
    PlacedBoth(PurgeTrace(k, w), PublishTrace(k, w), 3, 5, 6);
  }

  lemma KeepPlaced(k: Config, w: World, cause: EndCause)
    ensures Placed(KeepTrace(k, w, cause), 1, 6)
  {
    StepPlaced(k, w, FlushStep, Flush);
    PublishPlaced(k, w);
    var rest := if FlushSucceeds(k, w) then PurgeTrace(k, w) + PublishTrace(k, w) else [];
    PlacedBoth(FlushTrace(k, w), rest, 1, 3, 6);
  }

  lemma RoomPlaced(k: Config, w: World)
    ensures Placed(RoomTrace(k, w), 6, 8 + Max(k.attempts, 1))
  {
    DeletesPlaced(k, w, 1);
    var d := if Allowed(k, w, RoomStep) then DeleteTrace(k, w, 1) else [];
    assert Placed(AskTrace(k, w, RoomStep), 6, 8);
    assert Placed(d, 8, 8 + Max(k.attempts, 1));
    PlacedBoth(AskTrace(k, w, RoomStep), d, 6, 8, 8 + Max(k.attempts, 1));
  }

  /** The writer is closed first; then come flush, purge, publication and the room, each guarded step
      behind its own owner check, the attempts by number, and nothing is called twice. */
  lemma CallsInOrder(k: Config, w: World, cause: EndCause)
    ensures Placed(RunTrace(k, w, cause), 0, 8 + Max(k.attempts, 1))
    ensures k.hasWriter <==> RunTrace(k, w, cause) != [] && Calls(RunTrace(k, w, cause)[0], CloseWriter)
  {
    var hi := 8 + Max(k.attempts, 1);
    KeepPlaced(k, w, cause);
    RoomPlaced(k, w);
    FourPlaced(FinalizeTrace(k, w), KeepTrace(k, w, cause), RoomTrace(k, w), cause, hi);
    if k.hasWriter {
      WriterIsFirst(k, w, cause);
    } else {
      FirstIsNotWriter(k, w, cause);
    }
  }

  lemma FourPlaced(a: Trace, b: Trace, c: Trace, cause: EndCause, hi: nat)
    requires Placed(a, 0, 1) && Placed(b, 1, 6) && Placed(c, 6, hi) && 6 <= hi
    ensures Placed(a + b + c + [Shutdown(cause)], 0, hi)
  {
    PlacedBoth(a, b, 0, 1, 6);
    PlacedBoth(a + b, c, 0, 6, hi);
    PlacedBoth(a + b + c, [Shutdown(cause)], 0, hi, hi);
  }

  lemma WriterIsFirst(k: Config, w: World, cause: EndCause)
    requires k.hasWriter
    ensures RunTrace(k, w, cause)[0] == Tried(k, w, CloseWriter)
  {
  }

  lemma FirstIsNotWriter(k: Config, w: World, cause: EndCause)
    requires !k.hasWriter
    ensures forall e | e in RunTrace(k, w, cause) :: !Calls(e, CloseWriter)
  {
    forall e | e in RunTrace(k, w, cause)
      ensures !Calls(e, CloseWriter)
    {
      InRun(k, w, cause, e);
      InRoom(k, w, e);
      InKeep(k, w, cause, e);
    }
  }

  // ------------------------------------------------------------------ guards and retries

  /** Every guarded call stands directly behind its owner check, and a further attempt on the room
      directly behind a pause and the attempt before it, which failed. */
  predicate Behind(k: Config, t: Trace, i: nat)
    requires i < |t|
  {
    && (k.hasGuard && (Calls(t[i], Flush) || Calls(t[i], Purge) || Calls(t[i], DeleteRoom(1))) ==>
          i > 0 && Calls(t[i - 1], AskOwner(if Calls(t[i], Flush) then FlushStep
                                            else if Calls(t[i], Purge) then PurgeStep else RoomStep)))
    && (t[i].Called? && t[i].call.DeleteRoom? && t[i].call.attempt > 1 ==>
          i >= 2 && t[i - 1] == Pause(k.backoff)
          && Calls(t[i - 2], DeleteRoom(t[i].call.attempt - 1)) && t[i - 2].result.None?)
  }

  predicate AllBehind(k: Config, t: Trace) {
    forall i | 0 <= i < |t| :: Behind(k, t, i)
  }

  lemma BehindBoth(k: Config, a: Trace, b: Trace)
    requires AllBehind(k, a) && AllBehind(k, b)
    ensures AllBehind(k, a + b)
  {
    var t := a + b;
    forall i | 0 <= i < |t|
      ensures Behind(k, t, i)
    {
      if i < |a| {
        assert Behind(k, a, i);
      } else {
        assert Behind(k, b, i - |a|);
      }
    }
  }

  /** Attempts from i on, behind what came before them. */
  lemma {:induction false} DeletesBehind(k: Config, w: World, i: nat, before: Trace)
    requires 1 <= i && AllBehind(k, before)
    requires i == 1 && k.hasGuard ==> before != [] && Calls(before[|before| - 1], AskOwner(RoomStep))
    requires 1 < i <= k.attempts ==>
               |before| >= 2 && before[|before| - 1] == Pause(k.backoff)
               && Calls(before[|before| - 2], DeleteRoom(i - 1)) && before[|before| - 2].result.None?
    ensures AllBehind(k, before + DeleteTrace(k, w, i))
    decreases k.attempts - i
  {
    if i > k.attempts {
      assert before + DeleteTrace(k, w, i) == before;
    } else {
      var one := before + [Tried(k, w, DeleteRoom(i))];
      OneBehind(k, before, Tried(k, w, DeleteRoom(i)));
      if InTime(w(DeleteRoom(i)), k.timeout).Some? {
        assert before + DeleteTrace(k, w, i) == one;
      } else if i < k.attempts {
        var two := one + [Pause(k.backoff)];
        OneBehind(k, one, Pause(k.backoff));
        DeletesBehind(k, w, i + 1, two);
        assert before + DeleteTrace(k, w, i) == two + DeleteTrace(k, w, i + 1);
      } else {
        assert before + DeleteTrace(k, w, i) == one;
      }
    }
  }

  lemma OneBehind(k: Config, t: Trace, e: Effect)
    requires AllBehind(k, t) && Behind(k, t + [e], |t|)
    ensures AllBehind(k, t + [e])
  {
    forall i | 0 <= i < |t + [e]|
      ensures Behind(k, t + [e], i)
    {
      if i < |t| { assert Behind(k, t, i); }
    }
  }

  lemma StepsBehind(k: Config, w: World, cause: EndCause)
    ensures AllBehind(k, FinalizeTrace(k, w)) && AllBehind(k, KeepTrace(k, w, cause)) && AllBehind(k, [Shutdown(cause)])
  {
    assert AllBehind(k, FlushTrace(k, w));
    assert AllBehind(k, PurgeTrace(k, w)) && AllBehind(k, PublishTrace(k, w));
    BehindBoth(k, PurgeTrace(k, w), PublishTrace(k, w));
    BehindBoth(k, FlushTrace(k, w), if FlushSucceeds(k, w) then PurgeTrace(k, w) + PublishTrace(k, w) else []);
  }

  lemma RoomBehind(k: Config, w: World)
    ensures AllBehind(k, RoomTrace(k, w))
  {
    var asked := AskTrace(k, w, RoomStep);
    if k.hasRoom && Allowed(k, w, RoomStep) {
      DeletesBehind(k, w, 1, asked);
    } else {
      assert asked + [] == asked;
    }
  }

  lemma GuardsAndRetries(k: Config, w: World, cause: EndCause)
    ensures AllBehind(k, RunTrace(k, w, cause))
  {
    StepsBehind(k, w, cause);
    RoomBehind(k, w);
    BehindBoth(k, FinalizeTrace(k, w), KeepTrace(k, w, cause));
    BehindBoth(k, FinalizeTrace(k, w) + KeepTrace(k, w, cause), RoomTrace(k, w));
    BehindBoth(k, FinalizeTrace(k, w) + KeepTrace(k, w, cause) + RoomTrace(k, w), [Shutdown(cause)]);
  }

  /** No effect is made up: every call has the result the world gives within the step timeout, and none
      takes longer. */
  lemma EffectsAreTrue(k: Config, w: World, cause: EndCause, e: Effect)
    requires e in RunTrace(k, w, cause) && e.Called?
    ensures match w(e.call)
            case Answers(value, after) =>
              if after <= k.timeout then e.result == Some(value) && e.took == after
              else e.result.None? && e.took == k.timeout
            case Raises(after) => e.result.None? && e.took == (if after <= k.timeout then after else k.timeout)
            case Hangs => e.result.None? && e.took == k.timeout
  {
    InRun(k, w, cause, e);
    DeletesAreTrue(k, w, 1);
    if cause != RECONNECT_TIMEOUT { KeepParts(k, w, cause, e); }
    if k.hasRoom { RoomParts(k, w, e); }
  }

  lemma {:induction false} DeletesAreTrue(k: Config, w: World, i: nat)
    ensures forall e | e in DeleteTrace(k, w, i) && e.Called? :: e == Tried(k, w, e.call)
    decreases k.attempts - i
  {
    if i <= k.attempts { DeletesAreTrue(k, w, i + 1); }
  }
}
