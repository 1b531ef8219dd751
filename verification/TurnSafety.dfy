/** Every step keeps the invariant, hence every run does. */
module TurnSafety {
  import opened Wrappers
  import opened Utterances
  import opened Conversation
  import opened EndStates
  import opened Orchestrator
  import opened TurnProtocol
  import opened TurnInvariant

  lemma OriginsAppend(l: Log, os: seq<Origin>, kept: nat, m: nat, u: Utterance, o: Origin)
    requires OriginsInv(l, os, kept, m) && OriginOk(l, u, o, m) && o != Recovered
    ensures OriginsInv(l.(utterances := l.utterances + [u]), os + [o], kept, m)
  {
    var l' := l.(utterances := l.utterances + [u]);
    forall i | 0 <= i < |os| + 1
      ensures OriginAt(l', os + [o], i, m)
    {
      if i < |os| {
        assert OriginAt(l, os, i, m);
        assert Before(l', i) == Before(l, i);
      } else {
        assert Before(l', i) == l;
      }
    }
  }

  // ------------------------------------------------------------------ task table changes

  lemma TurnTaskStays(tasks: Tasks, turnSeq: nat, id: nat, t: Task)
    requires id in tasks ==> TurnOf(t) == TurnOf(tasks[id])
    ensures HasTurnTask(tasks, turnSeq) ==> HasTurnTask(tasks[id := t], turnSeq)
  {
    if HasTurnTask(tasks, turnSeq) {
      var k :| k in tasks && TurnOf(tasks[k]) == Some(turnSeq);
      assert k in tasks[id := t] && TurnOf(tasks[id := t][k]) == Some(turnSeq);
    }
  }

  /** Replacing a task by one of the same turn that rests on the same log, or on the present one. */
  lemma SwapTurns(tasks: Tasks, turnSeq: nat, us: seq<Utterance>, phase: EndPhase, initialTurn: Option<nat>,
                  id: nat, t: Task, base: nat)
    requires TurnPart(tasks, turnSeq, us, phase, initialTurn, base) && id in tasks
    requires TurnOf(t) == TurnOf(tasks[id]) && IsOpening(t) == IsOpening(tasks[id])
    requires BasisOf(t).Some? && BasisOf(t) != Some(us) ==>
               BasisOf(t) == BasisOf(tasks[id]) && (Holds(t) ==> Holds(tasks[id]))
    requires t.Speaking? && NoMoreQuestions(us, phase, base) ==> tasks[id].Speaking?
    ensures TurnPart(tasks[id := t], turnSeq, us, phase, initialTurn, base)
    ensures HasTurnTask(tasks, turnSeq) ==> HasTurnTask(tasks[id := t], turnSeq)
  {
    TurnTaskStays(tasks, turnSeq, id, t);
  }

  lemma SwapClosing(e: EndRecord, tasks: Tasks, id: nat, t: Task)
    requires ClosingTaskInv(e, tasks) && id in tasks
    requires IsClosingTask(t) == IsClosingTask(tasks[id]) && ClosingStage(e, t)
    ensures ClosingTaskInv(e, tasks[id := t])
  {
  }

  /** The lock stays where it is, is taken, or is given back. */
  lemma SwapLock(tasks: Tasks, speech: Option<nat>, id: nat, t: Task)
    requires LockInv(tasks, speech) && id in tasks
    ensures Holds(t) == Holds(tasks[id]) ==> LockInv(tasks[id := t], speech)
    ensures Holds(t) && speech.None? ==> LockInv(tasks[id := t], Some(id))
    ensures !Holds(t) && Holds(tasks[id]) ==> LockInv(tasks[id := t], None)
  {
  }

  lemma SwapTable(tasks: Tasks, speech: Option<nat>, nextId: nat, m: nat, e: EndRecord, id: nat, t: Task)
    requires TablePart(tasks, speech, nextId, m, e) && id in tasks && TaskOk(t, m)
    requires Holds(t) == Holds(tasks[id]) && IsClosingTask(t) == IsClosingTask(tasks[id]) && ClosingStage(e, t)
    ensures TablePart(tasks[id := t], speech, nextId, m, e)
  {
    SwapLock(tasks, speech, id, t);
    SwapClosing(e, tasks, id, t);
  }

  /** What a task may turn into without touching the lock. */
  ghost predicate Continues(s: State, old_: Task, t: Task) {
    && TurnOf(t) == TurnOf(old_) && Holds(t) == Holds(old_) && IsOpening(t) == IsOpening(old_)
    && t.Speaking? == old_.Speaking?
    && TaskOk(t, s.maxFollowUps)
    && (BasisOf(t) == BasisOf(old_) || (BasisOf(t) == Some(Said(s)) && !Holds(t)))
    && IsClosingTask(t) == IsClosingTask(old_) && ClosingStage(EndingOf(s), t)
  }

  lemma PutTasks(s: State, id: nat, t: Task, base: nat)
    requires TaskInv(s, base) && id in s.tasks && Continues(s, s.tasks[id], t)
    ensures TaskInv(Put(s, id, t), base)
  {
    SwapTurns(s.tasks, s.turnSeq, Said(s), s.end.phase, s.initialTurn, id, t, base);
    SwapTable(s.tasks, s.speech, s.nextId, s.maxFollowUps, EndingOf(s), id, t);
  }

  lemma PutKeeps(s: State, id: nat, t: Task, base: nat)
    requires Inv(s, base) && id in s.tasks && Continues(s, s.tasks[id], t)
    ensures Inv(Put(s, id, t), base)
  {
    PutTasks(s, id, t, base);
    TurnTaskStays(s.tasks, s.turnSeq, id, t);
  }

  lemma DropTurns(tasks: Tasks, turnSeq: nat, us: seq<Utterance>, phase: EndPhase, initialTurn: Option<nat>,
                  id: nat, base: nat)
    requires TurnPart(tasks, turnSeq, us, phase, initialTurn, base)
    ensures TurnPart(tasks - {id}, turnSeq, us, phase, initialTurn, base)
  {
  }

  lemma DropTable(tasks: Tasks, speech: Option<nat>, nextId: nat, m: nat, e: EndRecord, id: nat)
    requires TablePart(tasks, speech, nextId, m, e) && id in tasks
    ensures TablePart(tasks - {id}, if Holds(tasks[id]) then None else speech, nextId, m, e)
  {
  }

  lemma RemoveTasks(s: State, id: nat, base: nat)
    requires TaskInv(s, base) && id in s.tasks
    ensures !Holds(s.tasks[id]) ==> TaskInv(Remove(s, id), base)
    ensures Holds(s.tasks[id]) ==> TaskInv(Finish(s, id), base)
  {
    DropTurns(s.tasks, s.turnSeq, Said(s), s.end.phase, s.initialTurn, id, base);
    DropTable(s.tasks, s.speech, s.nextId, s.maxFollowUps, EndingOf(s), id);
  }

  lemma RemoveKeepsTurn(s: State, id: nat)
    requires SilenceInv(s) && id in s.tasks
    requires TurnOf(s.tasks[id]).Some? ==> Stale(s, TurnOf(s.tasks[id]).value)
    ensures SilenceInv(Remove(s, id)) && SilenceInv(Finish(s, id))
  {
    if HasTurnTask(s.tasks, s.turnSeq) && !s.closed && s.end.phase == RUNNING {
      var k :| k in s.tasks && TurnOf(s.tasks[k]) == Some(s.turnSeq);
      assert k != id && k in s.tasks - {id};
    }
  }

  lemma RemoveKeeps(s: State, id: nat, base: nat)
    requires Inv(s, base) && id in s.tasks
    requires TurnOf(s.tasks[id]).Some? ==> Stale(s, TurnOf(s.tasks[id]).value)
    ensures !Holds(s.tasks[id]) ==> Inv(Remove(s, id), base)
    ensures Holds(s.tasks[id]) ==> Inv(Finish(s, id), base)
  {
    RemoveTasks(s, id, base);
    RemoveKeepsTurn(s, id);
  }

  /** What a waiting task may turn into when it takes the lock. */
  ghost predicate Grabs(s: State, old_: Task, t: Task) {
    && TurnOf(t) == TurnOf(old_) && Holds(t) && IsOpening(t) == IsOpening(old_)
    && BasisOf(t) == BasisOf(old_)
    && (t.Speaking? ==> !Stale(s, t.plan.turn))
    && (TurnOf(t).Some? ==> t.Speaking?)
    && TaskOk(t, s.maxFollowUps)
    && IsClosingTask(t) == IsClosingTask(old_) && ClosingStage(EndingOf(s), t)
  }

  /** While the interview runs, the last question has not been asked. */
  lemma RunningAsksOn(us: seq<Utterance>, e: EndRecord, base: nat)
    requires FinalInv(us, e.end.phase, base) && EndingInv(e, HasClosing(From(us, base))) && e.end.phase == RUNNING
    ensures !NoMoreQuestions(us, e.end.phase, base)
  {
  }

  lemma CurrentBasis(tasks: Tasks, turnSeq: nat, us: seq<Utterance>, id: nat)
    requires BasisInv(tasks, turnSeq, true, us) && id in tasks && TurnOf(tasks[id]) == Some(turnSeq)
    ensures BasisOf(tasks[id]).None? || BasisOf(tasks[id]) == Some(us)
  {
  }

  lemma AcquireTurns(s: State, id: nat, t: Task, base: nat)
    requires TaskInv(s, base) && id in s.tasks && TurnOf(t) == TurnOf(s.tasks[id])
             && IsOpening(t) == IsOpening(s.tasks[id])
    requires BasisOf(t) == BasisOf(s.tasks[id]) && (t.Speaking? || TurnOf(t).None?)
    requires t.Speaking? ==> !Stale(s, t.plan.turn)
    requires s.end.phase == RUNNING ==> !NoMoreQuestions(Said(s), s.end.phase, base)
    ensures TurnPart(s.tasks[id := t], s.turnSeq, Said(s), s.end.phase, s.initialTurn, base)
  {
    if t.Speaking? { CurrentBasis(s.tasks, s.turnSeq, Said(s), id); }
    SwapTurns(s.tasks, s.turnSeq, Said(s), s.end.phase, s.initialTurn, id, t, base);
  }

  lemma AcquireKeeps(s: State, id: nat, t: Task, base: nat)
    requires Inv(s, base) && id in s.tasks && s.speech.None? && Grabs(s, s.tasks[id], t)
    ensures Inv(Acquire(s, id, t), base)
  {
    if s.end.phase == RUNNING { RunningAsksOn(Said(s), EndingOf(s), base); }
    AcquireTurns(s, id, t, base);
    SwapLock(s.tasks, s.speech, id, t);
    SwapClosing(EndingOf(s), s.tasks, id, t);
    TurnTaskStays(s.tasks, s.turnSeq, id, t);
  }

  /** A new task with a turn needs a turn no live task has. */
  ghost predicate MayJoin(s: State, t: Task) {
    && !Holds(t) && TaskOk(t, s.maxFollowUps)
    && (TurnOf(t).Some? ==>
          && TurnOf(t) == Some(s.turnSeq)
          && (forall id | id in s.tasks :: TurnOf(s.tasks[id]) != TurnOf(t))
          && (Said(s) == [] || IsOpening(t) ==> IsOpening(t) && s.initialTurn == Some(s.turnSeq)))
    && (BasisOf(t).Some? ==> BasisOf(t).value == Said(s))
    && (IsClosingTask(t) ==> ClosingStage(EndingOf(s), t) && forall id | id in s.tasks :: !IsClosingTask(s.tasks[id]))
  }

  lemma JoinTurns(s: State, t: Task, base: nat)
    requires TurnPart(s.tasks, s.turnSeq, Said(s), s.end.phase, s.initialTurn, base) && MayJoin(s, t)
    ensures TurnPart(s.tasks[s.nextId := t], s.turnSeq, Said(s), s.end.phase, s.initialTurn, base)
  {
  }

  lemma JoinTable(s: State, t: Task)
    requires TablePart(s.tasks, s.speech, s.nextId, s.maxFollowUps, EndingOf(s)) && MayJoin(s, t)
    ensures TablePart(s.tasks[s.nextId := t], s.speech, s.nextId + 1, s.maxFollowUps, EndingOf(s))
  {
  }

  lemma JoinedTurn(tasks: Tasks, turnSeq: nat, n: nat, t: Task)
    requires n !in tasks
    ensures HasTurnTask(tasks, turnSeq) || TurnOf(t) == Some(turnSeq) ==> HasTurnTask(tasks[n := t], turnSeq)
  {
    TurnTaskStays(tasks, turnSeq, n, t);
    assert tasks[n := t][n] == t;
  }

  lemma SpawnKeepsTasks(s: State, t: Task, base: nat)
    requires TaskInv(s, base) && MayJoin(s, t)
    ensures TaskInv(Spawn(s, t), base)
    ensures HasTurnTask(s.tasks, s.turnSeq) || TurnOf(t).Some? ==> HasTurnTask(Spawn(s, t).tasks, s.turnSeq)
  {
    JoinTurns(s, t, base);
    JoinTable(s, t);
    JoinedTurn(s.tasks, s.turnSeq, s.nextId, t);
  }

  lemma NoClosingTaskYet(e: EndRecord, tasks: Tasks, cause: EndCause)
    requires ClosingTaskInv(e, tasks) && Rank(e.end.phase) < Rank(CLOSING)
    ensures ClosingTaskInv(EndRecord(End(CLOSING, Some(cause)), e.markers, e.cleanups), tasks)
    ensures forall id | id in tasks :: !IsClosingTask(tasks[id])
  {
  }

  lemma TurnsAtClosing(tasks: Tasks, turnSeq: nat, us: seq<Utterance>, phase: EndPhase,
                       initialTurn: Option<nat>, base: nat)
    requires TurnPart(tasks, turnSeq, us, phase, initialTurn, base) && Rank(phase) < Rank(CLOSING)
    ensures TurnPart(tasks, turnSeq, us, CLOSING, initialTurn, base)
  {
  }

  lemma WonClosingTasks(s: State, s': State, cause: EndCause, base: nat)
    requires TaskInv(s, base) && s' == s.(end := End(CLOSING, Some(cause)), closingReason := s'.closingReason)
    requires Rank(s.end.phase) < Rank(CLOSING) && s.markers == [] && s.cleanups == []
    ensures TaskInv(s', base) && MayJoin(s', ClosingStart)
  {
    NoClosingTaskYet(EndingOf(s), s.tasks, cause);
    TurnsAtClosing(s.tasks, s.turnSeq, Said(s), s.end.phase, s.initialTurn, base);
  }

  /** Closing may begin from anywhere; a turn that ends there needs no task any more. */
  lemma BeginClosingKeeps(s: State, cause: EndCause, reason: Option<string>, base: nat)
    requires TaskInv(s, base) && DataInv(s, base)
    ensures Inv(BeginClosing(s, cause, reason), base)
  {
    var q := Request(CLOSING, Some(cause));
    if !s.closed && Judge(s.end, q) == Ok(true) {
      var s' := s.(end := Advanced(s.end, q), closingReason := reason);
      WonClosingTasks(s, s', cause, base);
      SpawnKeepsTasks(s', ClosingStart, base);
    }
  }

  lemma TickKeeps(s: State, now: int, base: nat)
    requires Inv(s, base)
    ensures Inv(Tick(s, now), base)
  {
  }

  lemma DepartKeeps(s: State, base: nat)
    requires Inv(s, base)
    ensures Inv(Step(s, Depart), base)
  {
  }

  lemma CloseTurns(s: State, base: nat)
    requires TurnPart(s.tasks, s.turnSeq, Said(s), s.end.phase, s.initialTurn, base)
    ensures TurnPart(OnClose(s).tasks, s.turnSeq, Said(s), s.end.phase, s.initialTurn, base)
  {
  }

  lemma CloseTable(s: State)
    requires TablePart(s.tasks, s.speech, s.nextId, s.maxFollowUps, EndingOf(s))
    ensures TablePart(OnClose(s).tasks, OnClose(s).speech, s.nextId, s.maxFollowUps, EndingOf(s))
  {
  }

  lemma CloseKeeps(s: State, base: nat)
    requires Inv(s, base)
    ensures Inv(OnClose(s), base)
  {
    CloseTurns(s, base);
    CloseTable(s);
    CloseData(s, base);
  }

  lemma CloseData(s: State, base: nat)
    requires DataInv(s, base)
    ensures DataInv(OnClose(s), base)
  {
  }

  lemma SpeakInitialKeeps(s: State, text: Spoken, base: nat)
    requires Inv(s, base)
    ensures Inv(OnSpeakInitial(s, text), base)
  {
    if Said(s) == [] && s.initialTurn != Some(s.turnSeq) {
      var s' := s.(initialTurn := Some(s.turnSeq));
      if !Stale(s', s'.turnSeq) {
        SpawnKeepsTasks(s', Queued(Plan(s.turnSeq, text, Initial, None, None, None, Opening)), base);
      }
    }
  }

  lemma ResumeKeeps(s: State, base: nat)
    requires Inv(s, base)
    ensures Inv(Step(s, Resume), base)
  {
    SpawnKeepsTasks(s, ResumeQueued, base);
  }

  /** No task belongs to a turn that has just begun, whatever entered the log to begin it. */
  lemma BumpTurns(tasks: Tasks, turnSeq: nat, us: seq<Utterance>, us': seq<Utterance>, phase: EndPhase,
                  initialTurn: Option<nat>, base: nat)
    requires TurnPart(tasks, turnSeq, us, phase, initialTurn, base) && (us' == [] ==> us == [])
    ensures TurnPart(tasks, turnSeq + 1, us', phase, initialTurn, base)
    ensures forall id | id in tasks :: TurnOf(tasks[id]) != Some(turnSeq + 1)
  {
  }

  /** A turn may begin once something was said, whatever entered the log to begin it. */
  lemma NewTurnMayStart(s: State, a: State, base: nat)
    requires TaskInv(s, base) && a == s.(log := a.log, origins := a.origins) && Said(a) != []
    ensures TaskInv(Bumped(a), base) && MayJoin(Bumped(a), Start(a.turnSeq + 1))
  {
    BumpTurns(s.tasks, s.turnSeq, Said(s), Said(a), s.end.phase, s.initialTurn, base);
  }

  lemma NextTurnTasks(s: State, a: State, base: nat)
    requires TaskInv(s, base) && a == s.(log := a.log, origins := a.origins) && Said(a) != []
    ensures TaskInv(NextTurn(a), base) && HasTurnTask(NextTurn(a).tasks, NextTurn(a).turnSeq)
  {
    NewTurnMayStart(s, a, base);
    SpawnKeepsTasks(Bumped(a), Start(a.turnSeq + 1), base);
  }

  lemma NextTurnKeeps(s: State, base: nat)
    requires TaskInv(s, base) && DataInv(s, base) && Said(s) != []
    ensures Inv(NextTurn(s), base)
  {
    NextTurnTasks(s, s, base);
  }

  // ------------------------------------------------------------------ appends

  /** Nobody rests on the log while the final answer is awaited. */
  lemma FinalAnswerTurns(tasks: Tasks, turnSeq: nat, us: seq<Utterance>, us': seq<Utterance>,
                         initialTurn: Option<nat>, base: nat)
    requires TurnPart(tasks, turnSeq, us, WAITING_FINAL_ANSWER, initialTurn, base) && us' != []
    ensures TurnPart(tasks, turnSeq, us', WAITING_FINAL_ANSWER, initialTurn, base)
  {
  }

  lemma AnswerFits(l: Log, phase: EndPhase, text: string, at: int, base: nat)
    requires LogInv(l, base) && FinalInv(l.utterances, phase, base) && !HasClosing(From(l.utterances, base))
    requires phase == RUNNING || phase == WAITING_FINAL_ANSWER
    requires text != "" && CheckAnswer(l, text, Utc(at)).Ok?
    ensures var u := CheckAnswer(l, text, Utc(at)).value;
            IsAnswer(u) && Fits(From(l.utterances, base), u) && LogInv(l.(utterances := l.utterances + [u]), base)
  {
    var u := CheckAnswer(l, text, Utc(at)).value;
    AnswerAccepted(l, text, at);
    if HasFinal(From(l.utterances, base)) {
      var last := l.utterances[|l.utterances| - 1];
      assert last in l.utterances && IsQuestion(last);
      assert LastQuestion(l.utterances) == Some(last);
    }
    LogGrows(l, u, base);
  }

  lemma AnswerKeepsData(s: State, text: string, base: nat)
    requires DataInv(s, base) && text != "" && CheckAnswer(s.log, text, Utc(s.clock)).Ok?
    requires s.end.phase == RUNNING || s.end.phase == WAITING_FINAL_ANSWER
    ensures var s' := Append(s, CheckAnswer(s.log, text, Utc(s.clock)), Answered);
            && LogInv(s'.log, base) && EndingInv(EndingOf(s'), HasClosing(From(Said(s'), base)))
            && OriginsInv(s'.log, s'.origins, s'.kept, s'.maxFollowUps)
            && (s.end.phase == RUNNING ==> !HasFinal(From(Said(s'), base)))
  {
    var u := CheckAnswer(s.log, text, Utc(s.clock)).value;
    AnswerFits(s.log, s.end.phase, text, s.clock, base);
    AnswerAccepted(s.log, text, s.clock);
    OriginsAppend(s.log, s.origins, s.kept, s.maxFollowUps, u, Answered);
  }

  lemma RunningAnswerKeeps(s: State, text: string, base: nat)
    requires Inv(s, base) && s.end.phase == RUNNING && text != "" && CheckAnswer(s.log, text, Utc(s.clock)).Ok?
    ensures Inv(NextTurn(Append(s, CheckAnswer(s.log, text, Utc(s.clock)), Answered)), base)
  {
    AnswerKeepsData(s, text, base);
    NextTurnTasks(s, Append(s, CheckAnswer(s.log, text, Utc(s.clock)), Answered), base);
  }

  lemma FinalAnswerKeeps(s: State, text: string, base: nat)
    requires Inv(s, base) && s.end.phase == WAITING_FINAL_ANSWER && !s.closed
    requires text != "" && CheckAnswer(s.log, text, Utc(s.clock)).Ok?
    ensures Inv(BeginClosing(Append(s, CheckAnswer(s.log, text, Utc(s.clock)), Answered), EndCause.FINAL_QUESTION, None), base)
  {
    var a := Append(s, CheckAnswer(s.log, text, Utc(s.clock)), Answered);
    AnswerKeepsData(s, text, base);
    FinalAnswerTurns(s.tasks, s.turnSeq, Said(s), Said(a), s.initialTurn, base);
    AnsweredFinalCloses(s, a, base);
  }

  lemma UserTurnKeeps(s: State, text: string, present: bool, beforeBoundary: bool, base: nat)
    requires Inv(s, base)
    ensures Inv(OnUserTurn(s, text, present, beforeBoundary), base)
  {
    if !Ignored(s, text, present, beforeBoundary) && CheckAnswer(s.log, text, Utc(s.clock)).Ok? {
      if s.end.phase == WAITING_FINAL_ANSWER {
        FinalAnswerKeeps(s, text, base);
      } else {
        RunningAnswerKeeps(s, text, base);
      }
    }
  }

  /** The answer to the final question and the start of closing are one segment. */
  lemma AnsweredFinalCloses(s: State, a: State, base: nat)
    requires s.end.phase == WAITING_FINAL_ANSWER && !s.closed
    requires a == s.(log := a.log, origins := a.origins) && TaskInv(a, base) && !s.raised
    requires LogInv(a.log, base) && EndingInv(EndingOf(a), HasClosing(From(Said(a), base)))
    requires OriginsInv(a.log, a.origins, a.kept, a.maxFollowUps)
    ensures Inv(BeginClosing(a, EndCause.FINAL_QUESTION, None), base)
  {
    var q := Request(CLOSING, Some(EndCause.FINAL_QUESTION));
    var a' := a.(end := Advanced(a.end, q), closingReason := None);
    WonClosingTasks(a, a', EndCause.FINAL_QUESTION, base);
    SpawnKeepsTasks(a', ClosingStart, base);
  }

  // ------------------------------------------------------------------ committing a question

  /** While a question of the current turn is being spoken, its turn is the only one, nothing
      has entered the log since it was decided, and no final question or closing is in it. */
  lemma SpokenQuestionIsAlone(s: State, id: nat, base: nat)
    requires TaskInv(s, base) && id in s.tasks && s.tasks[id].Speaking? && TurnOf(s.tasks[id]) == Some(s.turnSeq)
    ensures OriginBasis(s.tasks[id].plan.origin) == Some(Said(s))
    ensures !NoMoreQuestions(Said(s), s.end.phase, base)
    ensures forall k | k in s.tasks && k != id :: TurnOf(s.tasks[k]) != Some(s.turnSeq)
  {
  }

  lemma QuestionKeepsTasks(s: State, c: State, u: Utterance, base: nat)
    requires TaskInv(s, base) && IsQuestion(u)
    requires forall k | k in s.tasks :: TurnOf(s.tasks[k]) != Some(s.turnSeq)
    requires c == s.(log := c.log, origins := c.origins, end := c.end) && Said(c) == Said(s) + [u]
    requires c.end == s.end || (s.end.phase == RUNNING && c.end == End(WAITING_FINAL_ANSWER, s.end.cause))
    ensures TaskInv(c, base)
  {
    assert ClosingTaskInv(EndingOf(c), c.tasks);
    assert OpeningInv(c.tasks, c.turnSeq, false, c.initialTurn);
  }

  lemma QuestionKeepsData(s: State, p: Plan, x: Input, base: nat)
    requires DataInv(s, base) && PlanOk(p, s.maxFollowUps) && OriginBasis(p.origin) == Some(Said(s))
    requires !NoMoreQuestions(Said(s), s.end.phase, base)
    ensures var u := QuestionOf(DraftOf(s, p, x));
            && CheckQuestion(s.log, DraftOf(s, p, x)) == Ok(u)
            && IsQuestion(u) && (IsFinal(u) <==> p.kind == Final) && !IsClosing(u)
            && LogInv(s.log.(utterances := Said(s) + [u]), base)
            && OriginsInv(s.log.(utterances := Said(s) + [u]), s.origins + [p.origin], s.kept, s.maxFollowUps)
  {
    var u := QuestionOf(DraftOf(s, p, x));
    PlannedQuestionAccepted(s, p, x);
    FromAppend(Said(s), u, base);
    LogGrows(s.log, u, base);
    OriginsAppend(s.log, s.origins, s.kept, s.maxFollowUps, u, p.origin);
  }

  lemma DroppedCommitKeeps(s: State, id: nat, x: Input, base: nat)
    requires Inv(s, base) && id in s.tasks && s.tasks[id].Speaking?
    requires s.closed || s.tasks[id].plan.turn != s.turnSeq || !x.present
    ensures Inv(Commit(Finish(s, id), s.tasks[id].plan, x), base)
  {
    RemoveTasks(s, id, base);
    if s.closed || s.tasks[id].plan.turn != s.turnSeq {
      RemoveKeepsTurn(s, id);
    }
  }

  lemma QuestionKeepsEnding(s: State, p: Plan, x: Input, base: nat)
    requires DataInv(s, base) && !NoMoreQuestions(Said(s), s.end.phase, base)
    requires CheckQuestion(s.log, DraftOf(s, p, x)) == Ok(QuestionOf(DraftOf(s, p, x)))
    requires !s.closed && p.turn == s.turnSeq && x.present && p.kind != Closing
    ensures var c := Commit(s, p, x);
            EndingInv(EndingOf(c), HasClosing(From(Said(c), base))) && FinalInv(Said(c), c.end.phase, base) && !c.raised
  {
    var c := Commit(s, p, x);
    assert HasClosing(From(Said(c), base)) <==> HasClosing(From(Said(s), base));
    assert p.kind != Final ==> !HasFinal(From(Said(c), base));
  }

  lemma CommitKeeps(s: State, id: nat, x: Input, base: nat)
    requires Inv(s, base) && id in s.tasks && s.tasks[id].Speaking?
    ensures Inv(Commit(Finish(s, id), s.tasks[id].plan, x), base)
  {
    var p := s.tasks[id].plan;
    var f := Finish(s, id);
    if s.closed || p.turn != s.turnSeq || !x.present {
      DroppedCommitKeeps(s, id, x, base);
    } else {
      RemoveTasks(s, id, base);
      SpokenQuestionIsAlone(s, id, base);
      assert DataInv(f, base);
      CommittedKeeps(f, p, x, base);
    }
  }

  lemma CommittedKeeps(f: State, p: Plan, x: Input, base: nat)
    requires TaskInv(f, base) && DataInv(f, base) && PlanOk(p, f.maxFollowUps) && OriginBasis(p.origin) == Some(Said(f))
    requires !NoMoreQuestions(Said(f), f.end.phase, base)
    requires forall k | k in f.tasks :: TurnOf(f.tasks[k]) != Some(f.turnSeq)
    requires !f.closed && p.turn == f.turnSeq && x.present
    ensures Inv(Commit(f, p, x), base)
  {
    var u := QuestionOf(DraftOf(f, p, x));
    var c := Commit(f, p, x);
    QuestionKeepsData(f, p, x, base);
    QuestionKeepsEnding(f, p, x, base);
    CommitShape(f, p, x);
    QuestionKeepsTasks(f, c, u, base);
  }

  /** What a commit that is not refused changes. */
  lemma CommitShape(f: State, p: Plan, x: Input)
    requires CheckQuestion(f.log, DraftOf(f, p, x)) == Ok(QuestionOf(DraftOf(f, p, x)))
    requires !f.closed && p.turn == f.turnSeq && x.present
    ensures var c := Commit(f, p, x);
            && c == f.(log := c.log, origins := f.origins + [p.origin], end := c.end)
            && c.log == f.log.(utterances := Said(f) + [QuestionOf(DraftOf(f, p, x))])
            && (c.end == f.end || (p.kind == Final && Rank(f.end.phase) == 0 && c.end == End(WAITING_FINAL_ANSWER, f.end.cause)))
  {
  }

  // ------------------------------------------------------------------ closing

  /** Only the one closing task is affected by how far the ending got. */
  lemma ClosingStages(e: EndRecord, e': EndRecord, tasks: Tasks, id: nat, t: Task)
    requires ClosingTaskInv(e, tasks) && id in tasks && IsClosingTask(tasks[id]) && IsClosingTask(t)
    requires ClosingStage(e', t)
    ensures ClosingTaskInv(e', tasks[id := t])
  {
  }

  lemma ClosingLeavesTurns(s: State, id: nat, t: Task, base: nat)
    requires TaskInv(s, base) && id in s.tasks && IsClosingTask(s.tasks[id]) && IsClosingTask(t)
    ensures IdsInv(s.tasks[id := t], s.nextId)
    ensures TurnsInv(s.tasks[id := t], s.turnSeq)
    ensures OpeningInv(s.tasks[id := t], s.turnSeq, Said(s) == [], s.initialTurn)
    ensures TasksOk(s.tasks[id := t], s.maxFollowUps)
    ensures Quiet(s.tasks, s.turnSeq) ==> Quiet(s.tasks[id := t], s.turnSeq)
  {
  }

  lemma ClosingLeavesLock(s: State, id: nat, t: Task, us: seq<Utterance>, base: nat)
    requires TaskInv(s, base) && id in s.tasks && IsClosingTask(s.tasks[id]) && IsClosingTask(t) && !Holds(t)
    requires s.end.phase == CLOSING
    ensures LockInv(s.tasks[id := t], if Holds(s.tasks[id]) then None else s.speech)
    ensures BasisInv(s.tasks[id := t], s.turnSeq, false, Said(s))
    ensures Holds(s.tasks[id]) ==> Quiet(s.tasks, s.turnSeq)
    ensures Holds(s.tasks[id]) ==> BasisInv(s.tasks[id := t], s.turnSeq, false, us)
  {
  }

  /** Cleanup starts at most once, whether or not a closing was said. */
  lemma CleanupTasks(s: State, c: State, id: nat, cause: EndCause, base: nat)
    requires TaskInv(s, base) && id in s.tasks && IsClosingTask(s.tasks[id]) && !s.tasks[id].Cleaning?
    requires s.end.cause == Some(cause) && s.end.phase == CLOSING && s.cleanups == []
    requires c == s.(log := c.log, origins := c.origins, tasks := s.tasks[id := Cleaning(cause)],
                     speech := if Holds(s.tasks[id]) then None else s.speech,
                     end := End(CLEANING, s.end.cause), cleanups := [cause])
    requires Said(c) == Said(s) || (Holds(s.tasks[id]) && Said(s) <= Said(c))
    ensures TaskInv(c, base)
  {
    ClosingStages(EndingOf(s), EndingOf(c), s.tasks, id, Cleaning(cause));
    ClosingLeavesTurns(s, id, Cleaning(cause), base);
    ClosingLeavesLock(s, id, Cleaning(cause), Said(c), base);
  }

  lemma CleanupRecord(e: EndRecord, cause: EndCause, said: bool, closingSaid: bool)
    requires EndingInv(e, said) && e.end == End(CLOSING, Some(cause)) && e.cleanups == []
    ensures EndingInv(EndRecord(End(CLEANING, Some(cause)), e.markers, [cause]), closingSaid)
  {
  }

  lemma ClosingTaskTells(s: State, id: nat, cause: EndCause, base: nat)
    requires TaskInv(s, base) && id in s.tasks && IsClosingTask(s.tasks[id]) && !s.tasks[id].Cleaning?
             && !s.tasks[id].ClosingStart?
    requires s.tasks[id].cause == cause
    ensures s.end == End(CLOSING, Some(cause)) && s.cleanups == []
  {
    assert ClosingStage(EndingOf(s), s.tasks[id]);
  }

  lemma CleanupData(s: State, c: State, cause: EndCause, base: nat)
    requires DataInv(s, base) && s.end == End(CLOSING, Some(cause)) && s.cleanups == []
    requires c == s.(tasks := c.tasks, speech := c.speech, end := End(CLEANING, Some(cause)), cleanups := [cause])
    ensures DataInv(c, base)
  {
    CleanupRecord(EndingOf(s), cause, HasClosing(From(Said(s), base)), HasClosing(From(Said(s), base)));
  }

  lemma CleanupKeeps(s: State, id: nat, cause: EndCause, base: nat)
    requires Inv(s, base) && id in s.tasks && IsClosingTask(s.tasks[id]) && !s.tasks[id].Cleaning?
             && !s.tasks[id].ClosingStart?
    requires s.tasks[id].cause == cause
    ensures Inv(StartCleanup(if Holds(s.tasks[id]) then s.(speech := None) else s, id, cause), base)
  {
    ClosingTaskTells(s, id, cause, base);
    var c := s.(tasks := s.tasks[id := Cleaning(cause)], speech := if Holds(s.tasks[id]) then None else s.speech,
                end := End(CLEANING, Some(cause)), cleanups := [cause]);
    CleanupShape(s, id, cause);
    CleanupTasks(s, c, id, cause, base);
    CleanupData(s, c, cause, base);
  }

  lemma CleanupShape(s: State, id: nat, cause: EndCause)
    requires id in s.tasks && s.end == End(CLOSING, Some(cause)) && s.cleanups == []
    ensures StartCleanup(if Holds(s.tasks[id]) then s.(speech := None) else s, id, cause)
            == s.(tasks := s.tasks[id := Cleaning(cause)], speech := if Holds(s.tasks[id]) then None else s.speech,
                  end := End(CLEANING, Some(cause)), cleanups := [cause])
  {
  }

  lemma ClosingFits(l: Log, text: Spoken, at: int, reason: Option<string>, base: nat)
    requires LogInv(l, base) && !HasClosing(From(l.utterances, base))
    ensures var r := CheckClosing(text, Utc(at), reason);
            r.Ok? && IsClosing(r.value) && !IsFinal(r.value) && Fits(From(l.utterances, base), r.value)
            && LogInv(l.(utterances := l.utterances + [r.value]), base)
  {
    var u := CheckClosing(text, Utc(at), reason).value;
    LogGrows(l, u, base);
  }

  lemma SaidClosingTasks(s: State, id: nat, u: Utterance, base: nat)
    requires Inv(s, base) && id in s.tasks && s.tasks[id].ClosingSpeaking? && IsClosing(u)
             && Fits(From(Said(s), base), u)
    ensures TaskInv(StartCleanup(Append(s.(speech := None), Ok(u), Farewell), id, s.tasks[id].cause), base)
    ensures s.end == End(CLOSING, Some(s.tasks[id].cause)) && s.cleanups == []
  {
    assert ClosingStage(EndingOf(s), s.tasks[id]);
    CleanupTasks(s, StartCleanup(Append(s.(speech := None), Ok(u), Farewell), id, s.tasks[id].cause),
                 id, s.tasks[id].cause, base);
  }

  lemma SaidClosingData(s: State, id: nat, u: Utterance, cause: EndCause, base: nat)
    requires DataInv(s, base) && s.end == End(CLOSING, Some(cause)) && s.cleanups == []
    requires IsClosing(u) && LogInv(s.log.(utterances := Said(s) + [u]), base)
    ensures DataInv(StartCleanup(Append(s.(speech := None), Ok(u), Farewell), id, cause), base)
  {
    CleanupRecord(EndingOf(s), cause, HasClosing(From(Said(s), base)), true);
    OriginsAppend(s.log, s.origins, s.kept, s.maxFollowUps, u, Farewell);
  }

  lemma SaidClosingKeeps(s: State, id: nat, x: Input, base: nat)
    requires Inv(s, base) && id in s.tasks && s.tasks[id].ClosingSpeaking? && x.ok
    ensures Inv(ClosingSpeakingSegment(s, id, s.tasks[id].cause, s.tasks[id].text, s.tasks[id].retried, x), base)
  {
    var t := s.tasks[id];
    var at := if x.startedAt.Some? then Min(x.startedAt.value, s.clock) else s.clock;
    var u := CheckClosing(t.text, Utc(at), s.closingReason).value;
    assert !HasClosing(From(Said(s), base)) by { assert ClosingStage(EndingOf(s), t); }
    ClosingFits(s.log, t.text, at, s.closingReason, base);
    SaidClosingTasks(s, id, u, base);
    SaidClosingData(s, id, u, t.cause, base);
  }

  lemma ClosingStartKeeps(s: State, id: nat, base: nat)
    requires Inv(s, base) && id in s.tasks && s.tasks[id].ClosingStart?
    ensures Inv(ClosingStartSegment(s, id), base)
  {
    var c := ClosingStartSegment(s, id);
    assert ClosingStage(EndingOf(s), s.tasks[id]);
    MarkTasks(s, c, id, base);
    assert EndingInv(EndingOf(c), HasClosing(From(Said(c), base)));
  }

  lemma MarkTasks(s: State, c: State, id: nat, base: nat)
    requires TaskInv(s, base) && id in s.tasks && s.tasks[id].ClosingStart? && s.end.cause.Some?
    requires c == s.(tasks := s.tasks[id := Marking(s.end.cause.value)], markers := [s.end.cause.value])
    ensures TaskInv(c, base)
  {
    ClosingStages(EndingOf(s), EndingOf(c), s.tasks, id, Marking(s.end.cause.value));
    ClosingLeavesTurns(s, id, Marking(s.end.cause.value), base);
    ClosingLeavesLock(s, id, Marking(s.end.cause.value), Said(c), base);
  }

  // ------------------------------------------------------------------ segments

  lemma DecidedKeeps(s: State, id: nat, turn: nat, basis: seq<Utterance>, wrapUp: bool, d: Decision, x: Input,
                     base: nat)
    requires Inv(s, base) && id in s.tasks && TurnOf(s.tasks[id]) == Some(turn)
    requires !Holds(s.tasks[id]) && !IsOpening(s.tasks[id]) && !IsClosingTask(s.tasks[id])
    requires !Stale(s, turn) ==> basis == Said(s) && basis != [] && Legal(basis, s.maxFollowUps, wrapUp, d)
    ensures Inv(Decided(s, id, turn, basis, wrapUp, d, x), base)
  {
    if Stale(s, turn) {
      RemoveKeeps(s, id, base);
    } else if d.action == Action.END {
      EndKeeps(s, id, if d.source == ORCHESTRATOR then d.reason else None, base);
    } else if d.action == Action.FINAL_QUESTION {
      FinalKeeps(s, id, turn, wrapUp, d, x.text, base);
    } else {
      PutKeeps(s, id, Generating(turn, Asked(basis, wrapUp, d)), base);
    }
  }

  lemma FinalKeeps(s: State, id: nat, turn: nat, wrapUp: bool, d: Decision, text: Spoken, base: nat)
    requires Inv(s, base) && id in s.tasks && TurnOf(s.tasks[id]) == Some(turn)
    requires !Holds(s.tasks[id]) && !IsOpening(s.tasks[id]) && !IsClosingTask(s.tasks[id])
    requires Said(s) != [] && Legal(Said(s), s.maxFollowUps, wrapUp, d) && d.action == Action.FINAL_QUESTION
    ensures var p := Plan(turn, text, Final, None, if d.source == ORCHESTRATOR then d.reason else None, None,
                          Asked(Said(s), wrapUp, d));
            Inv(Put(s, id, Queued(p)), base)
  {
    PutKeeps(s, id, Queued(Plan(turn, text, Final, None, if d.source == ORCHESTRATOR then d.reason else None, None,
                                Asked(Said(s), wrapUp, d))), base);
  }

  lemma EndKeeps(s: State, id: nat, reason: Option<string>, base: nat)
    requires Inv(s, base) && id in s.tasks && !Holds(s.tasks[id])
    ensures Inv(BeginClosing(Remove(s, id), LLM_END, reason), base)
  {
    RemoveTasks(s, id, base);
    BeginClosingKeeps(Remove(s, id), LLM_END, reason, base);
  }

  lemma StartKeeps(s: State, id: nat, x: Input, base: nat)
    requires Inv(s, base) && id in s.tasks && s.tasks[id].Start?
    ensures Inv(StartSegment(s, id, s.tasks[id].turn, x), base)
  {
    if Forced(Said(s), s.maxFollowUps) {
      DecidedKeeps(s, id, s.tasks[id].turn, Said(s), x.wrapUp, SafeDecision(x.wrapUp, FORCED), x, base);
    } else {
      PutKeeps(s, id, Deciding(s.tasks[id].turn, Said(s), x.wrapUp), base);
    }
  }

  lemma DecidingKeeps(s: State, id: nat, x: Input, base: nat)
    requires Inv(s, base) && id in s.tasks && s.tasks[id].Deciding?
    ensures Inv(DecidingSegment(s, id, s.tasks[id].turn, s.tasks[id].basis, s.tasks[id].wrapUp, x), base)
  {
    var t := s.tasks[id];
    var d := if x.failed then SafeDecision(t.wrapUp, FORCED) else Decide(Said(s), t.wrapUp, x.reply);
    DecideKeepsContract(Said(s), t.wrapUp, x.reply);
    assert TaskOk(t, s.maxFollowUps);
    assert BasisOf(t) == Some(t.basis);
    DecidedKeeps(s, id, t.turn, t.basis, t.wrapUp, d, x, base);
  }

  lemma PlanForIsOk(turn: nat, o: Origin, x: Input, m: nat)
    requires o.Asked? && TaskOk(Generating(turn, o), m)
    ensures PlanOk(PlanFor(turn, o, x), m) && PlanFor(turn, o, x).origin == o && PlanFor(turn, o, x).turn == turn
  {
  }

  lemma GeneratingKeeps(s: State, id: nat, x: Input, base: nat)
    requires Inv(s, base) && id in s.tasks && s.tasks[id].Generating? && s.tasks[id].origin.Asked?
    ensures Inv(GeneratingSegment(s, id, s.tasks[id].turn, s.tasks[id].origin, x), base)
  {
    var t := s.tasks[id];
    if Stale(s, t.turn) {
      RemoveKeeps(s, id, base);
    } else {
      PlanForIsOk(t.turn, t.origin, x, s.maxFollowUps);
      PutKeeps(s, id, Queued(PlanFor(t.turn, t.origin, x)), base);
    }
  }

  lemma QueuedKeeps(s: State, id: nat, base: nat)
    requires Inv(s, base) && id in s.tasks && s.tasks[id].Queued?
    ensures Inv(QueuedSegment(s, id, s.tasks[id].plan), base)
  {
    var p := s.tasks[id].plan;
    assert TaskOk(s.tasks[id], s.maxFollowUps);
    if s.speech.None? {
      if Stale(s, p.turn) {
        RemoveKeeps(s, id, base);
      } else {
        AcquireKeeps(s, id, Speaking(p, false), base);
      }
    }
  }

  lemma LostVoiceKeeps(s: State, id: nat, base: nat)
    requires Inv(s, base) && id in s.tasks && Holds(s.tasks[id])
    ensures Inv(Finish(s, id).(shutdowns := s.shutdowns + 1, excused := true), base)
  {
    RemoveTasks(s, id, base);
  }

  lemma LostFinalKeeps(s: State, id: nat, base: nat)
    requires Inv(s, base) && id in s.tasks && Holds(s.tasks[id])
    ensures Inv(BeginClosing(Finish(s, id), EndCause.FINAL_QUESTION, None), base)
  {
    RemoveTasks(s, id, base);
    BeginClosingKeeps(Finish(s, id), EndCause.FINAL_QUESTION, None, base);
  }

  lemma SpeakingKeeps(s: State, id: nat, x: Input, base: nat)
    requires Inv(s, base) && id in s.tasks && s.tasks[id].Speaking?
    ensures Inv(SpeakingSegment(s, id, s.tasks[id].plan, s.tasks[id].retried, x), base)
  {
    var p := s.tasks[id].plan;
    assert TaskOk(s.tasks[id], s.maxFollowUps);
    if x.ok {
      CommitKeeps(s, id, x, base);
    } else if !s.tasks[id].retried {
      if Stale(s, p.turn) {
        RemoveKeeps(s, id, base);
      } else {
        PutKeeps(s, id, Speaking(p, true), base);
      }
    } else if p.kind == Final {
      LostFinalKeeps(s, id, base);
    } else {
      LostVoiceKeeps(s, id, base);
    }
  }

  lemma ClosingKeeps(s: State, id: nat, x: Input, base: nat)
    requires Inv(s, base) && id in s.tasks
    requires s.tasks[id].Marking? || s.tasks[id].ClosingQueued? || s.tasks[id].ClosingSpeaking?
    ensures Inv(Segment(s, id, x), base)
  {
    var t := s.tasks[id];
    assert ClosingStage(EndingOf(s), t);
    match t
    case Marking(cause) =>
      if cause == RECONNECT_TIMEOUT || cause == RECOVERED_CLOSING || !x.present {
        CleanupKeeps(s, id, cause, base);
      } else {
        PutKeeps(s, id, ClosingQueued(cause, x.text), base);
      }
    case ClosingQueued(cause, text) =>
      if s.speech.None? { AcquireKeeps(s, id, ClosingSpeaking(cause, text, false), base); }
    case ClosingSpeaking(cause, text, retried) =>
      if x.ok {
        SaidClosingKeeps(s, id, x, base);
      } else if !retried {
        PutKeeps(s, id, ClosingSpeaking(cause, text, true), base);
      } else {
        CleanupKeeps(s, id, cause, base);
      }
  }

  lemma ResumeSpeakingKeeps(s: State, id: nat, base: nat)
    requires Inv(s, base) && id in s.tasks && s.tasks[id].ResumeSpeaking?
    ensures Inv(ResumeSpeakingSegment(s, id), base)
  {
    var us := Said(s);
    if us == [] {
      RemoveKeeps(s, id, base);
    } else if IsQuestion(us[|us| - 1]) {
      RemoveTasks(s, id, base);
      ReleaseKeeps(s, id, RespeakQueued(us[|us| - 1].content), base);
    } else {
      RemoveKeeps(s, id, base);
      NextTurnKeeps(Finish(s, id), base);
    }
  }

  lemma ReleaseTasks(s: State, id: nat, t: Task, base: nat)
    requires TaskInv(s, base) && id in s.tasks && s.tasks[id].ResumeSpeaking? && t.RespeakQueued?
    ensures LockInv(s.tasks[id := t], None)
    ensures TurnsInv(s.tasks[id := t], s.turnSeq)
    ensures OpeningInv(s.tasks[id := t], s.turnSeq, Said(s) == [], s.initialTurn)
    ensures BasisInv(s.tasks[id := t], s.turnSeq, s.end.phase == RUNNING, Said(s))
    ensures HasTurnTask(s.tasks, s.turnSeq) ==> HasTurnTask(s.tasks[id := t], s.turnSeq)
  {
    if HasTurnTask(s.tasks, s.turnSeq) {
      var k :| k in s.tasks && TurnOf(s.tasks[k]) == Some(s.turnSeq);
      assert k in s.tasks[id := t] && TurnOf(s.tasks[id := t][k]) == Some(s.turnSeq);
    }
  }

  lemma ReleaseOthers(s: State, id: nat, t: Task, base: nat)
    requires TaskInv(s, base) && id in s.tasks && s.tasks[id].ResumeSpeaking? && t.RespeakQueued?
    ensures IdsInv(s.tasks[id := t], s.nextId)
    ensures TasksOk(s.tasks[id := t], s.maxFollowUps)
    ensures NoMoreQuestions(Said(s), s.end.phase, base) ==> Quiet(s.tasks[id := t], s.turnSeq)
    ensures ClosingTaskInv(EndingOf(s), s.tasks[id := t])
  {
  }

  lemma ReleaseKeeps(s: State, id: nat, t: Task, base: nat)
    requires Inv(s, base) && id in s.tasks && s.tasks[id].ResumeSpeaking? && t.RespeakQueued?
    ensures Inv(Put(s.(speech := None), id, t), base)
  {
    ReleaseTasks(s, id, t, base);
    ReleaseOthers(s, id, t, base);
  }

  lemma ResumeQueuedKeeps(s: State, id: nat, t: Task, base: nat)
    requires Inv(s, base) && id in s.tasks && (s.tasks[id].ResumeQueued? || s.tasks[id].RespeakQueued?)
    requires t.ResumeSpeaking? || t.RespeakSpeaking?
    ensures Inv(if s.speech.Some? then s else if Ending(s) then Remove(s, id) else Acquire(s, id, t), base)
  {
    if s.speech.None? {
      if Ending(s) { RemoveKeeps(s, id, base); } else { AcquireKeeps(s, id, t, base); }
    }
  }

  lemma RespeakSpeakingKeeps(s: State, id: nat, x: Input, base: nat)
    requires Inv(s, base) && id in s.tasks && s.tasks[id].RespeakSpeaking?
    ensures Inv(RespeakSpeakingSegment(s, id, s.tasks[id].content, s.tasks[id].retried, x), base)
  {
    if x.ok || (!s.tasks[id].retried && Ending(s)) {
      RemoveKeeps(s, id, base);
    } else if s.tasks[id].retried {
      LostVoiceKeeps(s, id, base);
    } else {
      PutKeeps(s, id, RespeakSpeaking(s.tasks[id].content, true), base);
    }
  }

  lemma CleaningKeeps(s: State, id: nat, x: Input, base: nat)
    requires Inv(s, base) && id in s.tasks && s.tasks[id].Cleaning?
    ensures Inv(Remove(s, id).(shutdowns := s.shutdowns + (if x.failed then 1 else 0)), base)
  {
    RemoveKeeps(s, id, base);
  }

  lemma TurnSegmentKeeps(s: State, id: nat, x: Input, base: nat)
    requires Inv(s, base) && id in s.tasks && TurnOf(s.tasks[id]).Some?
    ensures Inv(Segment(s, id, x), base)
  {
    match s.tasks[id]
    case Start(_) => StartKeeps(s, id, x, base);
    case Deciding(_, _, _) => DecidingKeeps(s, id, x, base);
    case Generating(_, _) =>
      assert TaskOk(s.tasks[id], s.maxFollowUps);
      GeneratingKeeps(s, id, x, base);
    case Queued(_) => QueuedKeeps(s, id, base);
    case Speaking(_, _) => SpeakingKeeps(s, id, x, base);
  }

  lemma OtherSegmentKeeps(s: State, id: nat, x: Input, base: nat)
    requires Inv(s, base) && id in s.tasks && TurnOf(s.tasks[id]).None?
    ensures Inv(Segment(s, id, x), base)
  {
    match s.tasks[id]
    case ClosingStart => ClosingStartKeeps(s, id, base);
    case Marking(_) => ClosingKeeps(s, id, x, base);
    case ClosingQueued(_, _) => ClosingKeeps(s, id, x, base);
    case ClosingSpeaking(_, _, _) => ClosingKeeps(s, id, x, base);
    case Cleaning(_) => CleaningKeeps(s, id, x, base);
    case ResumeQueued => ResumeQueuedKeeps(s, id, ResumeSpeaking, base);
    case ResumeSpeaking => ResumeSpeakingKeeps(s, id, base);
    case RespeakQueued(content) => ResumeQueuedKeeps(s, id, RespeakSpeaking(content, false), base);
    case RespeakSpeaking(_, _) => RespeakSpeakingKeeps(s, id, x, base);
  }

  lemma StepKeeps(s: State, e: Event, base: nat)
    requires Inv(s, base)
    ensures Inv(Step(s, e), base)
  {
    match e
    case UserTurn(text, now, present, beforeBoundary) =>
      TickKeeps(s, now, base);
      UserTurnKeeps(Tick(s, now), text, present, beforeBoundary, base);
    case Depart => DepartKeeps(s, base);
    case Resume => ResumeKeeps(s, base);
    case RequestClosing(cause) => BeginClosingKeeps(s, cause, None, base);
    case SpeakInitial(text) => SpeakInitialKeeps(s, text, base);
    case RunTask(id, x) => 
      if id in s.tasks {
        TickKeeps(s, x.now, base);
        if TurnOf(s.tasks[id]).Some? {
          TurnSegmentKeeps(Tick(s, x.now), id, x, base);
        } else {
          OtherSegmentKeeps(Tick(s, x.now), id, x, base);
        }
      }
    case Close => CloseKeeps(s, base);
  }

  /** Over every run, whatever the interleaving. */
  lemma {:induction false} RunKeeps(s: State, es: seq<Event>, base: nat)
    requires Inv(s, base)
    ensures Inv(Exec(s, es), base)
  {
    if es != [] {
      RunKeeps(s, es[..|es| - 1], base);
      StepKeeps(Exec(s, es[..|es| - 1]), es[|es| - 1], base);
    }
  }
}
