/** The pipeline object. Its methods run one segment each, on the fields of the source's class;
    every one of them does to the state what TurnProtocol says. */
module Pipeline {
  import opened Wrappers
  import opened Utterances
  import opened Conversation
  import opened EndStates
  import opened Orchestrator
  import opened TurnProtocol
  import opened TurnInvariant
  import opened TurnSafety

  class TurnPipeline {
    const log: ConversationLog
    const endState: EndState
    const maxFollowUps: nat
    var turnSeq: nat
    var closed: bool
    var closingReason: Option<string>
    var tasks: map<nat, Task>
    var nextId: nat
    var speech: Option<nat>
    var clock: int
    ghost const kept: nat
    ghost var origins: seq<Origin>
    ghost var markers: seq<EndCause>
    ghost var cleanups: seq<EndCause>
    ghost var shutdowns: nat
    ghost var raised: bool
    ghost var excused: bool
    var initialTurn: Option<nat>

    constructor (log: ConversationLog, endState: EndState, maxFollowUps: nat, now: int)
      ensures this.log == log && this.endState == endState
      ensures View() == Begin(log.View(), endState.View(), maxFollowUps, now)
    {
      this.log, this.endState, this.maxFollowUps := log, endState, maxFollowUps;
      turnSeq, closed, closingReason, tasks, nextId, speech, clock := 0, false, None, map[], 0, None, now;
      initialTurn := None;
      kept, origins := |log.utterances|, seq(|log.utterances|, _ => Recovered);
      markers, cleanups, shutdowns, raised, excused := [], [], 0, false, true;
    }

    ghost function View(): State
      reads this, log, endState
    {
      State(maxFollowUps, kept, log.View(), origins, endState.View(), closingReason, turnSeq, closed,
            tasks, nextId, speech, clock, initialTurn, markers, cleanups, shutdowns, raised, excused)
    }

    // ---------------------------------------------------------------- bookkeeping

    method SetTime(now: int)
      modifies this`clock
      ensures View() == Tick(old(View()), now)
    {
      if now > clock { clock := now; }
    }

    predicate IsStale(turn: nat)
      reads this, endState
    {
      closed || turn != turnSeq || endState.phase != RUNNING
    }

    predicate IsEnding()
      reads this, endState
    {
      closed || Rank(endState.phase) >= Rank(CLOSING)
    }

    method SpawnTask(t: Task)
      modifies this`tasks, this`nextId
      ensures View() == Spawn(old(View()), t)
    {
      tasks := tasks[nextId := t];
      nextId := nextId + 1;
    }

    method StartNextTurn()
      modifies this
      ensures View() == NextTurn(old(View()))
    {
      turnSeq := turnSeq + 1;
      excused := false;
      SpawnTask(Start(turnSeq));
    }

    // ---------------------------------------------------------------- the turn hook and requests

    method OnUserTurnCompleted(text: string, now: int, present: bool, beforeBoundary: bool)
      modifies this, log, endState
      ensures View() == Step(old(View()), UserTurn(text, now, present, beforeBoundary))
    {
      SetTime(now);
      if closed { return; }
      if Rank(endState.phase) >= Rank(CLOSING) { return; }
      if !present { return; }
      if beforeBoundary { return; }
      if text == "" { return; }
      var last := log.LastQuestionNumber();
      if last == 0 { return; }
      if endState.phase == WAITING_FINAL_ANSWER {
        var q := QuestionFor(log.utterances, last);
        if q.None? || !IsFinal(q.value) { return; }
        var r := log.AppendAnswer(text, Utc(clock));
        if r.Err? { return; }
        origins := origins + [Answered];
        var _ := StartClosing(EndCause.FINAL_QUESTION, None);
        return;
      }
      var r := log.AppendAnswer(text, Utc(clock));
      if r.Err? { return; }
      origins := origins + [Answered];
      StartNextTurn();
    }

    method InvalidateInflight()
      modifies this
      ensures View() == Step(old(View()), Depart)
    {
      turnSeq := turnSeq + 1;
      excused := true;
    }

    method ResumeAfterReconnect()
      modifies this
      ensures View() == Step(old(View()), Resume)
    {
      if IsEnding() { return; }
      SpawnTask(ResumeQueued);
    }

    /** begin_closing(): only the winner of the transition starts the closing task. */
    method StartClosing(cause: EndCause, reason: Option<string>) returns (won: bool)
      modifies this, endState
      ensures View() == BeginClosing(old(View()), cause, reason)
      ensures won <==> !old(closed) && Rank(old(endState.phase)) < Rank(CLOSING)
    {
      if closed { return false; }
      var r := endState.TryAdvance(CLOSING, Some(cause));
      if r != Ok(true) { return false; }
      closingReason := reason;
      SpawnTask(ClosingStart);
      return true;
    }

    method SpeakInitialQuestion(text: Spoken)
      modifies this
      ensures View() == Step(old(View()), SpeakInitial(text))
    {
      if log.utterances != [] || initialTurn == Some(turnSeq) { return; }
      initialTurn := Some(turnSeq);
      if IsStale(turnSeq) { return; }
      SpawnTask(Queued(Plan(turnSeq, text, Initial, None, None, None, Opening)));
    }

    method Shut()
      modifies this
      ensures View() == Step(old(View()), Close)
    {
      if closed { return; }
      closed := true;
      turnSeq := turnSeq + 1;
      tasks := map id | id in tasks && OutlivesClose(tasks[id]) :: tasks[id];
      if speech.Some? && speech.value !in tasks { speech := None; }
    }

    // ---------------------------------------------------------------- a turn's task

    method RunStart(id: nat, x: Input)
      requires id in tasks && tasks[id].Start?
      modifies this, endState
      ensures View() == StartSegment(old(View()), id, old(tasks[id].turn), x)
    {
      var turn := tasks[id].turn;
      if Forced(log.utterances, maxFollowUps) {
        RunDecision(id, turn, log.utterances, x.wrapUp, SafeDecision(x.wrapUp, FORCED), x);
      } else {
        tasks := tasks[id := Deciding(turn, log.utterances, x.wrapUp)];
      }
    }

    method RunJudged(id: nat, x: Input)
      requires id in tasks && tasks[id].Deciding?
      modifies this, endState
      ensures var t := old(tasks[id]);
              View() == DecidingSegment(old(View()), id, t.turn, t.basis, t.wrapUp, x)
    {
      var t := tasks[id];
      var d := if x.failed then SafeDecision(t.wrapUp, FORCED) else Decide(log.utterances, t.wrapUp, x.reply);
      RunDecision(id, t.turn, t.basis, t.wrapUp, d, x);
    }

    method RunDecision(id: nat, turn: nat, basis: seq<Utterance>, wrapUp: bool, d: Decision, x: Input)
      modifies this, endState
      ensures View() == Decided(old(View()), id, turn, basis, wrapUp, d, x)
    {
      var reason := if d.source == ORCHESTRATOR then d.reason else None;
      if IsStale(turn) {
        tasks := tasks - {id};
      } else if d.action == Action.END {
        tasks := tasks - {id};
        var _ := StartClosing(LLM_END, reason);
      } else if d.action == Action.FINAL_QUESTION {
        tasks := tasks[id := Queued(Plan(turn, x.text, Final, None, reason, None, Asked(basis, wrapUp, d)))];
      } else {
        tasks := tasks[id := Generating(turn, Asked(basis, wrapUp, d))];
      }
    }

    method RunGenerated(id: nat, x: Input)
      requires id in tasks && tasks[id].Generating? && tasks[id].origin.Asked?
      modifies this
      ensures View() == GeneratingSegment(old(View()), id, old(tasks[id].turn), old(tasks[id].origin), x)
    {
      var t := tasks[id];
      if IsStale(t.turn) {
        tasks := tasks - {id};
      } else {
        tasks := tasks[id := Queued(PlanFor(t.turn, t.origin, x))];
      }
    }

    method TakeSpeechLock(id: nat)
      requires id in tasks && tasks[id].Queued?
      modifies this
      ensures View() == QueuedSegment(old(View()), id, old(tasks[id].plan))
    {
      var p := tasks[id].plan;
      if speech.Some? { return; }
      if IsStale(p.turn) { tasks := tasks - {id}; return; }
      tasks, speech := tasks[id := Speaking(p, false)], Some(id);
    }

    method PlayoutDone(id: nat, x: Input)
      requires id in tasks && tasks[id].Speaking?
      modifies this, log, endState
      ensures View() == SpeakingSegment(old(View()), id, old(tasks[id].plan), old(tasks[id].retried), x)
    {
      var p, retried := tasks[id].plan, tasks[id].retried;
      if x.ok {
        tasks, speech := tasks - {id}, None;
        CommitQuestion(p, x);
      } else if !retried {
        if IsStale(p.turn) {
          tasks, speech := tasks - {id}, None;
        } else {
          tasks := tasks[id := Speaking(p, true)];
        }
      } else {
        tasks, speech := tasks - {id}, None;
        if p.kind == Final {
          var _ := StartClosing(EndCause.FINAL_QUESTION, None);
        } else {
          shutdowns, excused := shutdowns + 1, true;
        }
      }
    }

    /** The commit lock: a number is given only here, after playout. */
    method CommitQuestion(p: Plan, x: Input)
      modifies this, log, endState
      ensures View() == Commit(old(View()), p, x)
    {
      if closed || p.turn != turnSeq || !x.present {
        excused := excused || (p.turn == turnSeq && !x.present);
        return;
      }
      var last := log.LastQuestionNumber();
      var number := last + 1;
      var root := CurrentRoot(log.utterances);
      var at := if x.startedAt.Some? then Min(x.startedAt.value, clock) else clock;
      var r := log.AppendQuestion(QuestionDraft(
        number, if p.kind == FollowUp && root.Some? then root.value else number, p.kind, p.text, Utc(at),
        p.followUpType, p.reason, p.ref));
      if r.Err? { raised := true; return; }
      origins := origins + [p.origin];
      if p.kind == Final {
        var _ := endState.TryAdvance(WAITING_FINAL_ANSWER, None);
      }
    }

    // ---------------------------------------------------------------- the closing task

    method ClosingBegins(id: nat)
      requires id in tasks && tasks[id].ClosingStart?
      modifies this
      ensures View() == ClosingStartSegment(old(View()), id)
    {
      if endState.cause.None? { tasks := tasks - {id}; return; }
      tasks := tasks[id := Marking(endState.cause.value)];
      markers := markers + [endState.cause.value];
    }

    method MarkerDone(id: nat, x: Input)
      requires id in tasks && tasks[id].Marking?
      modifies this, endState
      ensures View() == MarkingSegment(old(View()), id, old(tasks[id].cause), x)
    {
      var cause := tasks[id].cause;
      if cause == RECONNECT_TIMEOUT || cause == RECOVERED_CLOSING || !x.present {
        EnterCleaning(id, cause);
      } else {
        tasks := tasks[id := ClosingQueued(cause, x.text)];
      }
    }

    method EnterCleaning(id: nat, cause: EndCause)
      modifies this, endState
      ensures View() == StartCleanup(old(View()), id, cause)
    {
      var _ := endState.TryAdvance(CLEANING, None);
      tasks := tasks[id := Cleaning(cause)];
      cleanups := cleanups + [cause];
    }

    method ClosingPlayoutDone(id: nat, x: Input)
      requires id in tasks && tasks[id].ClosingSpeaking?
      modifies this, log, endState
      ensures var t := old(tasks[id]);
              View() == ClosingSpeakingSegment(old(View()), id, t.cause, t.text, t.retried, x)
    {
      var t := tasks[id];
      if x.ok {
        speech := None;
        var at := if x.startedAt.Some? then Min(x.startedAt.value, clock) else clock;
        var r := log.AppendClosing(t.text, Utc(at), closingReason);
        origins := origins + [Farewell];
        EnterCleaning(id, t.cause);
      } else if !t.retried {
        tasks := tasks[id := ClosingSpeaking(t.cause, t.text, true)];
      } else {
        speech := None;
        EnterCleaning(id, t.cause);
      }
    }

    // ---------------------------------------------------------------- resuming

    method NoticeDone(id: nat)
      requires id in tasks && tasks[id].ResumeSpeaking?
      modifies this
      ensures View() == ResumeSpeakingSegment(old(View()), id)
    {
      speech := None;
      var us := log.utterances;
      if us == [] {
        tasks := tasks - {id};
      } else if IsQuestion(us[|us| - 1]) {
        tasks := tasks[id := RespeakQueued(us[|us| - 1].content)];
      } else {
        tasks := tasks - {id};
        StartNextTurn();
      }
    }

    method RespeakDone(id: nat, x: Input)
      requires id in tasks && tasks[id].RespeakSpeaking?
      modifies this
      ensures var t := old(tasks[id]);
              View() == RespeakSpeakingSegment(old(View()), id, t.content, t.retried, x)
    {
      var t := tasks[id];
      if x.ok {
        tasks, speech := tasks - {id}, None;
      } else if t.retried {
        tasks, speech := tasks - {id}, None;
        shutdowns, excused := shutdowns + 1, true;
      } else if IsEnding() {
        tasks, speech := tasks - {id}, None;
      } else {
        tasks := tasks[id := RespeakSpeaking(t.content, true)];
      }
    }

    // ---------------------------------------------------------------- the event loop

    /** The event loop wakes one task: its next segment runs. */
    method Wake(id: nat, x: Input)
      modifies this, log, endState
      ensures View() == Step(old(View()), RunTask(id, x))
    {
      if id !in tasks { return; }
      SetTime(x.now);
      if TurnOf(tasks[id]).Some? {
        WakeTurn(id, x);
      } else if IsClosingTask(tasks[id]) {
        WakeClosing(id, x);
      } else {
        WakeResume(id, x);
      }
    }

    method WakeTurn(id: nat, x: Input)
      requires id in tasks && TurnOf(tasks[id]).Some?
      modifies this, log, endState
      ensures View() == Segment(old(View()), id, x)
    {
      match tasks[id]
      case Start(_) => RunStart(id, x);
      case Deciding(_, _, _) => RunJudged(id, x);
      case Generating(_, o) => if o.Asked? { RunGenerated(id, x); } else { tasks := tasks - {id}; }
      case Queued(_) => TakeSpeechLock(id);
      case Speaking(_, _) => PlayoutDone(id, x);
    }

    method WakeClosing(id: nat, x: Input)
      requires id in tasks && IsClosingTask(tasks[id])
      modifies this, log, endState
      ensures View() == Segment(old(View()), id, x)
    {
      match tasks[id]
      case ClosingStart => ClosingBegins(id);
      case Marking(_) => MarkerDone(id, x);
      case ClosingQueued(cause, text) =>
        if speech.None? { tasks, speech := tasks[id := ClosingSpeaking(cause, text, false)], Some(id); }
      case ClosingSpeaking(_, _, _) => ClosingPlayoutDone(id, x);
      case Cleaning(_) =>
        tasks := tasks - {id};
        if x.failed { shutdowns := shutdowns + 1; }
    }

    method WakeResume(id: nat, x: Input)
      requires id in tasks && TurnOf(tasks[id]).None? && !IsClosingTask(tasks[id])
      modifies this, log, endState
      ensures View() == Segment(old(View()), id, x)
    {
      match tasks[id]
      case ResumeQueued =>
        if speech.None? {
          if IsEnding() { tasks := tasks - {id}; } else { tasks, speech := tasks[id := ResumeSpeaking], Some(id); }
        }
      case ResumeSpeaking => NoticeDone(id);
      case RespeakQueued(text) =>
        if speech.None? {
          if IsEnding() { tasks := tasks - {id}; }
          else { tasks, speech := tasks[id := RespeakSpeaking(text, false)], Some(id); }
        }
      case RespeakSpeaking(_, _) => RespeakDone(id, x);
    }

    method Handle(e: Event)
      modifies this, log, endState
      ensures View() == Step(old(View()), e)
    {
      match e
      case UserTurn(text, now, present, beforeBoundary) => OnUserTurnCompleted(text, now, present, beforeBoundary);
      case Depart => InvalidateInflight();
      case Resume => ResumeAfterReconnect();
      case RequestClosing(cause) => var _ := StartClosing(cause, None);
      case SpeakInitial(text) => SpeakInitialQuestion(text);
      case RunTask(id, x) => Wake(id, x);
      case Close => Shut();
    }

    /** Any interleaving: the object ends where the protocol does, and keeps its invariant. */
    method HandleAll(es: seq<Event>)
      modifies this, log, endState
      ensures View() == Exec(old(View()), es)
      ensures forall base: nat | old(Inv(View(), base)) :: Inv(View(), base)
    {
      for i := 0 to |es|
        invariant View() == Exec(old(View()), es[..i])
      {
        Handle(es[i]);
        assert es[..i + 1][..i] == es[..i];
      }
      assert es[..|es|] == es;
      forall base: nat | Inv(old(View()), base)
        ensures Inv(View(), base)
      {
        RunKeeps(old(View()), es, base);
      }
    }
  }
}
