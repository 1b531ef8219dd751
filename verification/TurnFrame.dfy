/** What a single step may change: the shape every transition of the turn pipeline has. */
module TurnFrame {
  import opened Wrappers
  import opened Utterances
  import opened Conversation
  import opened EndStates
  import opened Orchestrator
  import opened TurnProtocol
  import opened TurnInvariant

  /** The shape of a step: the log is only appended to, by at most one utterance; an answer enters
      only before closing and carries the current time; phase, cause and clock only move on. */
  ghost predicate Follows(s: State, t: State) {
    && t.maxFollowUps == s.maxFollowUps && t.kept == s.kept && t.log.floor == s.log.floor
    && t.clock >= s.clock && (s.closed ==> t.closed)
    && Rank(s.end.phase) <= Rank(t.end.phase)
    && (s.end.cause.Some? && Consistent(s.end) ==> t.end.cause == s.end.cause)
    && (Said(t) == Said(s)
        || (|Said(t)| == |Said(s)| + 1 && Said(t)[..|Said(s)|] == Said(s)
            && var u := Said(t)[|Said(s)|];
               && u.spokenAt.micros <= t.clock
               && (IsAnswer(u) ==> u.spokenAt.micros == t.clock && !Ending(s))))
  }

  lemma AppendFollows(s: State, r: Result<Utterance, AppendError>, o: Origin)
    requires r.Ok? ==> r.value.spokenAt.micros <= s.clock
                       && (IsAnswer(r.value) ==> r.value.spokenAt.micros == s.clock && !Ending(s))
    ensures Follows(s, Append(s, r, o))
  {
  }

  lemma CommitFollows(s: State, p: Plan, x: Input)
    ensures Follows(s, Commit(s, p, x))
  {
    AppendFollows(s, CheckQuestion(s.log, DraftOf(s, p, x)), p.origin);
  }

  lemma BeginClosingFollows(s: State, cause: EndCause, reason: Option<string>)
    ensures Follows(s, BeginClosing(s, cause, reason))
  {
  }

  lemma DecidedFollows(s: State, id: nat, turn: nat, basis: seq<Utterance>, wrapUp: bool, d: Decision, x: Input)
    ensures Follows(s, Decided(s, id, turn, basis, wrapUp, d, x))
  {
    BeginClosingFollows(Remove(s, id), LLM_END, if d.source == ORCHESTRATOR then d.reason else None);
  }

  lemma SpeakingFollows(s: State, id: nat, p: Plan, retried: bool, x: Input)
    ensures Follows(s, SpeakingSegment(s, id, p, retried, x))
  {
    CommitFollows(Finish(s, id), p, x);
    BeginClosingFollows(Finish(s, id), EndCause.FINAL_QUESTION, None);
  }

  lemma CleanupFollows(s: State, id: nat, cause: EndCause)
    ensures Follows(s, StartCleanup(s, id, cause)) && Said(StartCleanup(s, id, cause)) == Said(s)
  {
  }

  lemma FollowsThenSilent(s: State, m: State, t: State)
    requires Follows(s, m) && Follows(m, t) && Said(t) == Said(m) && t.clock == m.clock
    requires s.end.cause.Some? && Consistent(s.end) ==> Consistent(m.end)
    ensures Follows(s, t)
  {
  }

  lemma ClosingMade(text: Spoken, at: int, reason: Option<string>)
    ensures var r := CheckClosing(text, Utc(at), reason);
            r.Ok? && r.value.spokenAt.micros == at && !IsAnswer(r.value)
  {
  }

  lemma ClosingSaidFollows(s: State, id: nat, cause: EndCause, text: Spoken, at: int)
    requires at <= s.clock
    ensures Follows(s, StartCleanup(Append(s.(speech := None), CheckClosing(text, Utc(at), s.closingReason), Farewell), id, cause))
  {
    var f := s.(speech := None);
    var r := CheckClosing(text, Utc(at), s.closingReason);
    ClosingMade(text, at, s.closingReason);
    AppendFollows(f, r, Farewell);
    var m := Append(f, r, Farewell);
    CleanupFollows(m, id, cause);
    FollowsThenSilent(f, m, StartCleanup(m, id, cause));
  }

  lemma ClosingSpeakingFollows(s: State, id: nat, cause: EndCause, text: Spoken, retried: bool, x: Input)
    ensures Follows(s, ClosingSpeakingSegment(s, id, cause, text, retried, x))
  {
    if x.ok {
      var at := if x.startedAt.Some? then Min(x.startedAt.value, s.clock) else s.clock;
      ClosingMade(text, at, s.closingReason);
      ClosingSaidFollows(s, id, cause, text, at);
    } else if retried {
      CleanupFollows(s.(speech := None), id, cause);
    }
  }

  lemma TurnSegmentFollows(s: State, id: nat, x: Input)
    requires id in s.tasks && TurnOf(s.tasks[id]).Some?
    ensures Follows(s, Segment(s, id, x))
  {
    match s.tasks[id]
    case Start(turn) =>
      DecidedFollows(s, id, turn, Said(s), x.wrapUp, SafeDecision(x.wrapUp, FORCED), x);
    case Deciding(turn, basis, wrapUp) =>
      DecidedFollows(s, id, turn, basis, wrapUp,
                     if x.failed then SafeDecision(wrapUp, FORCED) else Decide(Said(s), wrapUp, x.reply), x);
    case Generating(_, _) =>
    case Queued(_) =>
    case Speaking(p, retried) => SpeakingFollows(s, id, p, retried, x);
  }

  lemma ResumeSpeakingFollows(s: State, id: nat)
    ensures Follows(s, ResumeSpeakingSegment(s, id))
  {
  }

  predicate Wordless(t: Task) {
    t.ClosingStart? || t.ClosingQueued? || t.Cleaning? || t.ResumeQueued? || t.RespeakQueued?
  }

  lemma WordlessFollows(s: State, id: nat, x: Input)
    requires id in s.tasks && Wordless(s.tasks[id])
    ensures Follows(s, Segment(s, id, x))
  {
  }

  lemma OtherSegmentFollows(s: State, id: nat, x: Input)
    requires id in s.tasks && TurnOf(s.tasks[id]).None?
    ensures Follows(s, Segment(s, id, x))
  {
    match s.tasks[id]
    case Marking(cause) => CleanupFollows(s, id, cause);
    case ClosingSpeaking(cause, text, retried) => ClosingSpeakingFollows(s, id, cause, text, retried, x);
    case ResumeSpeaking => ResumeSpeakingFollows(s, id);
    case RespeakSpeaking(content, retried) => RespeakSpeakingFollows(s, id, content, retried, x);
    case _ => WordlessFollows(s, id, x);
  }

  lemma RespeakSpeakingFollows(s: State, id: nat, content: string, retried: bool, x: Input)
    ensures Follows(s, RespeakSpeakingSegment(s, id, content, retried, x))
  {
  }

  lemma UserTurnFollows(s: State, text: string, present: bool, beforeBoundary: bool)
    ensures Follows(s, OnUserTurn(s, text, present, beforeBoundary))
  {
    var r := CheckAnswer(s.log, text, Utc(s.clock));
    if !Ignored(s, text, present, beforeBoundary) && r.Ok? {
      AppendFollows(s, r, Answered);
      BeginClosingFollows(Append(s, r, Answered), EndCause.FINAL_QUESTION, None);
    }
  }

  lemma RunTaskFollows(s: State, id: nat, x: Input)
    requires id in s.tasks
    ensures Follows(s, Segment(s, id, x))
  {
    if TurnOf(s.tasks[id]).Some? {
      TurnSegmentFollows(s, id, x);
    } else {
      OtherSegmentFollows(s, id, x);
    }
  }

  lemma TickFollows(s: State, now: int, t: State)
    requires Follows(Tick(s, now), t)
    ensures Follows(s, t)
  {
  }

  lemma StepFollows(s: State, e: Event)
    ensures Follows(s, Step(s, e))
  {
    match e
    case UserTurn(text, now, present, beforeBoundary) =>
      UserTurnFollows(Tick(s, now), text, present, beforeBoundary);
      TickFollows(s, now, Step(s, e));
    case RequestClosing(cause) => BeginClosingFollows(s, cause, None);
    case RunTask(id, x) =>
      if id in s.tasks {
        RunTaskFollows(Tick(s, x.now), id, x);
        TickFollows(s, x.now, Step(s, e));
      }
    case _ =>
  }

  /** Logs are append-only, and the constants of a session never change. */
  lemma {:induction false} RunFrame(s: State, es: seq<Event>)
    ensures var t := Exec(s, es);
            && t.maxFollowUps == s.maxFollowUps && t.kept == s.kept && t.log.floor == s.log.floor
            && Said(s) <= Said(t) && Rank(s.end.phase) <= Rank(t.end.phase)
  {
    if es != [] {
      RunFrame(s, es[..|es| - 1]);
      StepFollows(Exec(s, es[..|es| - 1]), es[|es| - 1]);
    }
  }
}
