/** The ending is not only unique, it is never lost, and on a real session's log it is reached by the
    answer to the final question. */
module TurnEnding {
  import opened Wrappers
  import opened Utterances
  import opened Conversation
  import opened EndStates
  import opened Orchestrator
  import opened TurnProtocol
  import opened TurnInvariant
  import opened TurnSafety
  import opened TurnTheorems
  import opened Restore
  import opened Subsequences

  ghost predicate HasClosingTask(tasks: Tasks) {
    exists id :: id in tasks && IsClosingTask(tasks[id])
  }

  /** While the session is open, a closing that was won has its task, and a cleanup that is due has
      been started. */
  ghost predicate EndingAlive(s: State) {
    !s.closed ==>
      && (s.end.phase == CLOSING ==> HasClosingTask(s.tasks))
      && (s.end.phase == CLEANING ==> s.cleanups != [] && s.markers != [])
  }

  /** Tasks other than the one that runs stay as they are. */
  ghost predicate LeavesOthers(tasks: Tasks, after: Tasks, id: nat) {
    forall k | k in tasks && k != id :: k in after && after[k] == tasks[k]
  }

  lemma OthersKeepClosing(tasks: Tasks, after: Tasks, id: nat)
    requires LeavesOthers(tasks, after, id) && HasClosingTask(tasks)
    requires id in tasks && IsClosingTask(tasks[id]) ==> id in after && IsClosingTask(after[id])
    ensures HasClosingTask(after)
  {
    var k :| k in tasks && IsClosingTask(tasks[k]);
    assert k in after && IsClosingTask(after[k]);
  }

  lemma SpawnLeavesOthers(s: State, t: Task, id: nat)
    requires IdsInv(s.tasks, s.nextId)
    ensures LeavesOthers(s.tasks, Spawn(s, t).tasks, id)
  {
  }

  /** BeginClosing adds the closing task exactly when it moves the phase. */
  lemma BeginClosingAlive(s: State, cause: EndCause, reason: Option<string>)
    requires EndingAlive(s) && IdsInv(s.tasks, s.nextId) && s.end.phase != CLOSED
    ensures EndingAlive(BeginClosing(s, cause, reason))
  {
    var t := BeginClosing(s, cause, reason);
    if t != s {
      assert s.nextId in t.tasks && IsClosingTask(t.tasks[s.nextId]);
    }
  }

  lemma RemoveAlive(s: State, id: nat)
    requires EndingAlive(s) && (id in s.tasks ==> !IsClosingTask(s.tasks[id]) || s.end.phase == CLEANING)
    ensures EndingAlive(Remove(s, id)) && EndingAlive(Finish(s, id))
  {
    if HasClosingTask(s.tasks) && s.end.phase == CLOSING {
      OthersKeepClosing(s.tasks, s.tasks - {id}, id);
    }
  }

  lemma PutAlive(s: State, id: nat, t: Task)
    requires EndingAlive(s) && (id in s.tasks && IsClosingTask(s.tasks[id]) ==> IsClosingTask(t))
    ensures EndingAlive(Put(s, id, t))
  {
    if HasClosingTask(s.tasks) { OthersKeepClosing(s.tasks, s.tasks[id := t], id); }
  }

  lemma SpawnAlive(s: State, t: Task)
    requires EndingAlive(s) && IdsInv(s.tasks, s.nextId)
    ensures EndingAlive(Spawn(s, t))
  {
    if HasClosingTask(s.tasks) {
      SpawnLeavesOthers(s, t, s.nextId);
      OthersKeepClosing(s.tasks, Spawn(s, t).tasks, s.nextId);
    }
  }

  lemma StayAlive(s: State, t: State)
    requires EndingAlive(s) && t.tasks == s.tasks && t.closed == s.closed
    requires t.end.phase == s.end.phase || Rank(t.end.phase) < Rank(CLOSING)
    requires t.cleanups == s.cleanups && t.markers == s.markers
    ensures EndingAlive(t)
  {
  }

  lemma DecidedAlive(s: State, id: nat, turn: nat, basis: seq<Utterance>, wrapUp: bool, d: Decision, x: Input,
                     base: nat)
    requires Inv(s, base) && EndingAlive(s) && id in s.tasks && !IsClosingTask(s.tasks[id]) && !Holds(s.tasks[id])
    ensures EndingAlive(Decided(s, id, turn, basis, wrapUp, d, x))
  {
    RemoveAlive(s, id);
    RemoveTasks(s, id, base);
    BeginClosingAlive(Remove(s, id), LLM_END, if d.source == ORCHESTRATOR then d.reason else None);
    PutAlive(s, id, Generating(turn, Asked(basis, wrapUp, d)));
    PutAlive(s, id, Queued(Plan(turn, x.text, Final, None, if d.source == ORCHESTRATOR then d.reason else None, None,
                                Asked(basis, wrapUp, d))));
  }

  lemma CommitAlive(s: State, p: Plan, x: Input)
    requires EndingAlive(s)
    ensures EndingAlive(Commit(s, p, x))
  {
    StayAlive(s, Commit(s, p, x));
  }

  lemma SpeakingAlive(s: State, id: nat, x: Input, base: nat)
    requires Inv(s, base) && EndingAlive(s) && id in s.tasks && s.tasks[id].Speaking?
    ensures EndingAlive(SpeakingSegment(s, id, s.tasks[id].plan, s.tasks[id].retried, x))
  {
    var p := s.tasks[id].plan;
    RemoveAlive(s, id);
    RemoveTasks(s, id, base);
    CommitAlive(Finish(s, id), p, x);
    PutAlive(s, id, Speaking(p, true));
    BeginClosingAlive(Finish(s, id), EndCause.FINAL_QUESTION, None);
  }

  lemma TurnSegmentAlive(s: State, id: nat, x: Input, base: nat)
    requires Inv(s, base) && EndingAlive(s) && id in s.tasks && TurnOf(s.tasks[id]).Some?
    ensures EndingAlive(Segment(s, id, x))
  {
    RemoveAlive(s, id);
    match s.tasks[id]
    case Start(turn) =>
      DecidedAlive(s, id, turn, Said(s), x.wrapUp, SafeDecision(x.wrapUp, FORCED), x, base);
      PutAlive(s, id, Deciding(turn, Said(s), x.wrapUp));
    case Deciding(turn, basis, wrapUp) =>
      DecidedAlive(s, id, turn, basis, wrapUp,
                   if x.failed then SafeDecision(wrapUp, FORCED) else Decide(Said(s), wrapUp, x.reply), x, base);
    case Generating(turn, o) => if o.Asked? { PutAlive(s, id, Queued(PlanFor(turn, o, x))); }
    case Queued(p) => PutAlive(s, id, Speaking(p, false));
    case Speaking(_, _) => SpeakingAlive(s, id, x, base);
  }

  lemma CleanupAlive(s: State, id: nat, cause: EndCause)
    requires s.markers != [] && s.end.phase == CLOSING
    ensures EndingAlive(StartCleanup(s, id, cause))
  {
  }

  lemma ClosingSegmentAlive(s: State, id: nat, x: Input, base: nat)
    requires Inv(s, base) && EndingAlive(s) && id in s.tasks && IsClosingTask(s.tasks[id])
    ensures EndingAlive(Segment(s, id, x))
  {
    assert ClosingStage(EndingOf(s), s.tasks[id]);
    match s.tasks[id]
    case ClosingStart =>
      PutAlive(s, id, Marking(s.end.cause.value));
    case Marking(cause) =>
      CleanupAlive(s, id, cause);
      PutAlive(s, id, ClosingQueued(cause, x.text));
    case ClosingQueued(cause, text) => PutAlive(s, id, ClosingSpeaking(cause, text, false));
    case ClosingSpeaking(cause, text, _) =>
      PutAlive(s, id, ClosingSpeaking(cause, text, true));
      CleanupAlive(s.(speech := None), id, cause);
    case Cleaning(_) => RemoveAlive(s, id);
  }

  lemma ResumeSpeakingAlive(s: State, id: nat, base: nat)
    requires Inv(s, base) && EndingAlive(s) && id in s.tasks && s.tasks[id].ResumeSpeaking?
    ensures EndingAlive(ResumeSpeakingSegment(s, id))
  {
    var us := Said(s);
    RemoveAlive(s, id);
    if us != [] && IsQuestion(us[|us| - 1]) {
      PutAlive(s, id, RespeakQueued(us[|us| - 1].content));
    } else {
      RemoveTasks(s, id, base);
      SpawnAlive(Bumped(Finish(s, id)), Start(s.turnSeq + 1));
    }
  }

  lemma ResumeSegmentAlive(s: State, id: nat, x: Input, base: nat)
    requires Inv(s, base) && EndingAlive(s) && id in s.tasks && TurnOf(s.tasks[id]).None? && !IsClosingTask(s.tasks[id])
    ensures EndingAlive(Segment(s, id, x))
  {
    RemoveAlive(s, id);
    match s.tasks[id]
    case ResumeQueued => PutAlive(s, id, ResumeSpeaking);
    case ResumeSpeaking => ResumeSpeakingAlive(s, id, base);
    case RespeakQueued(content) => PutAlive(s, id, RespeakSpeaking(content, false));
    case RespeakSpeaking(content, _) => PutAlive(s, id, RespeakSpeaking(content, true));
  }

  lemma UserTurnAlive(s: State, text: string, present: bool, beforeBoundary: bool, base: nat)
    requires Inv(s, base) && EndingAlive(s)
    ensures EndingAlive(OnUserTurn(s, text, present, beforeBoundary))
  {
    var r := CheckAnswer(s.log, text, Utc(s.clock));
    if !Ignored(s, text, present, beforeBoundary) && r.Ok? {
      var a := Append(s, r, Answered);
      StayAlive(s, a);
      BeginClosingAlive(a, EndCause.FINAL_QUESTION, None);
      SpawnAlive(Bumped(a), Start(a.turnSeq + 1));
    }
  }

  lemma StepAlive(s: State, e: Event, base: nat)
    requires Inv(s, base) && EndingAlive(s)
    ensures EndingAlive(Step(s, e))
  {
    match e
    case UserTurn(text, now, present, beforeBoundary) =>
      TickKeeps(s, now, base);
      UserTurnAlive(Tick(s, now), text, present, beforeBoundary, base);
    case Depart => StayAlive(s, Step(s, e));
    case Resume => SpawnAlive(s, ResumeQueued);
    case RequestClosing(cause) => BeginClosingAlive(s, cause, None);
    case SpeakInitial(text) =>
      SpawnAlive(s.(initialTurn := Some(s.turnSeq)), Queued(Plan(s.turnSeq, text, Initial, None, None, None, Opening)));
    case RunTask(id, x) =>
      if id in s.tasks {
        TickKeeps(s, x.now, base);
        var t := Tick(s, x.now);
        if TurnOf(t.tasks[id]).Some? {
          TurnSegmentAlive(t, id, x, base);
        } else if IsClosingTask(t.tasks[id]) {
          ClosingSegmentAlive(t, id, x, base);
        } else {
          ResumeSegmentAlive(t, id, x, base);
        }
      }
    case Close =>
  }

  lemma {:induction false} RunAlive(s: State, es: seq<Event>, base: nat)
    requires Inv(s, base) && EndingAlive(s)
    ensures EndingAlive(Exec(s, es))
  {
    if es != [] {
      RunAlive(s, es[..|es| - 1], base);
      RunKeeps(s, es[..|es| - 1], base);
      StepAlive(Exec(s, es[..|es| - 1]), es[|es| - 1], base);
    }
  }

  lemma SessionStartAlive(l: Log, maxFollowUps: nat, now: int)
    ensures EndingAlive(SessionStart(l, maxFollowUps, now))
  {
    var b := Begin(l, End(RUNNING, None), maxFollowUps, now);
    BeginClosingAlive(b, EndCause.FINAL_QUESTION, None);
  }

  /** In every open session whose closing has been won the closing task is alive, and by the time it
      is cleaning, exactly one marker was written and exactly one cleanup started, both with the
      cause that won. */
  lemma ClosingIsNeverLost(l: Log, maxFollowUps: nat, now: int, es: seq<Event>)
    requires Startable(l)
    ensures var s := Session(l, maxFollowUps, now, es);
            !s.closed ==>
              && (s.end.phase == CLOSING ==> exists id :: id in s.tasks && IsClosingTask(s.tasks[id]))
              && (s.end.phase == CLEANING ==>
                    s.end.cause.Some? && s.markers == [s.end.cause.value] && s.cleanups == [s.end.cause.value])
  {
    var base := |l.utterances|;
    var s := Session(l, maxFollowUps, now, es);
    SessionStartInv(l, maxFollowUps, now, base);
    SessionStartAlive(l, maxFollowUps, now);
    RunAlive(SessionStart(l, maxFollowUps, now), es, base);
    AnySessionInv(l, maxFollowUps, now, es);
    RecordIsComplete(EndingOf(s), HasClosing(From(Said(s), base)));
  }

  lemma RecordIsComplete(e: EndRecord, closingSaid: bool)
    requires EndingInv(e, closingSaid)
    ensures e.end.phase == CLEANING ==> e.end.cause.Some?
    ensures e.end.phase == CLEANING && e.cleanups != [] && e.markers != [] ==>
              e.markers == [e.end.cause.value] && e.cleanups == [e.end.cause.value]
  {
    if e.end.phase == CLEANING && e.cleanups != [] && e.markers != [] {
      assert e.markers[0] in e.markers && e.cleanups[0] in e.cleanups;
    }
  }

  // ------------------------------------------------------------------ the answer to the final question

  /** The check the turn hook makes before it takes an utterance as the final answer. */
  predicate FinalIsCounted(l: Log) {
    var q := QuestionFor(l.utterances, LastNumber(l));
    q.Some? && IsFinal(q.value)
  }

  predicate Heard(s: State, text: string) {
    !s.closed && text != "" && s.end.phase == WAITING_FINAL_ANSWER
  }

  /** While the final answer is awaited, an utterance of a candidate who is there is taken as that
      answer and closes the interview exactly when the largest number belongs to a final question. */
  lemma FinalAnswerTakenIff(l: Log, maxFollowUps: nat, now: int, es: seq<Event>, text: string, at: int)
    requires Startable(l) && Heard(Session(l, maxFollowUps, now, es), text)
    ensures var s := Session(l, maxFollowUps, now, es);
            var t := Step(s, UserTurn(text, at, true, false));
            if FinalIsCounted(s.log) then
              && Said(t)[..|Said(s)|] == Said(s) && |Said(t)| == |Said(s)| + 1
              && IsAnswer(Said(t)[|Said(s)|]) && Said(t)[|Said(s)|].content == text
              && Said(t)[|Said(s)|].questionNumber == Said(s)[|Said(s)| - 1].questionNumber
              && t.end == End(CLOSING, Some(EndCause.FINAL_QUESTION))
            else
              Said(t) == Said(s) && t.end == s.end && t.tasks == s.tasks
  {
    var s := Session(l, maxFollowUps, now, es);
    AnySessionInv(l, maxFollowUps, now, es);
    FinalIsLast(Said(s));
    TakesFinalAnswer(Tick(s, at), text);
  }

  lemma FinalIsLast(us: seq<Utterance>)
    requires us != [] && IsFinal(us[|us| - 1]) && forall u | u in us :: Valid(u)
    ensures LastQuestion(us) == Some(us[|us| - 1]) && us[|us| - 1].questionNumber.Some?
    ensures us[|us| - 1].questionNumber.value >= 1
  {
    var f := us[|us| - 1];
    assert f in us;
  }

  lemma TakesFinalAnswer(s: State, text: string)
    requires Heard(s, text) && Startable(s.log) && LastQuestion(Said(s)).Some? && Consistent(s.end)
    requires LastQuestion(Said(s)).value.questionNumber.Some? && LastQuestion(Said(s)).value.questionNumber.value >= 1
    ensures var t := OnUserTurn(s, text, true, false);
            if FinalIsCounted(s.log) then
              && (exists u :: Said(t) == Said(s) + [u] && IsAnswer(u) && u.content == text
                              && u.questionNumber == LastQuestion(Said(s)).value.questionNumber)
              && t.end == End(CLOSING, Some(EndCause.FINAL_QUESTION))
            else t == s
  {
    AnswerAccepted(s.log, text, s.clock);
    if FinalIsCounted(s.log) {
      var u := CheckAnswer(s.log, text, Utc(s.clock)).value;
      assert Said(OnUserTurn(s, text, true, false)) == Said(s) + [u];
    }
  }

  /** On the log of a real session, or what a copy with gaps kept of one, the check never fails: the
      final answer is always taken. */
  lemma FinalAnswerIsTaken(l: Log, maxFollowUps: nat, now: int, es: seq<Event>)
    requires GoodLog(l) && l.floor <= LargestNumber(l.utterances)
    requires Session(l, maxFollowUps, now, es).end.phase == WAITING_FINAL_ANSWER
    ensures FinalIsCounted(Session(l, maxFollowUps, now, es).log)
  {
    GoodSession(l, maxFollowUps, now, es);
    SessionFrame(l, maxFollowUps, now, es);
    var s := Session(l, maxFollowUps, now, es);
    FinalIsLast(Said(s));
    FloorIsSeen(l, Said(s));
    FinalHasLargest(s.log);
  }

  lemma FloorIsSeen(l: Log, us: seq<Utterance>)
    requires l.floor <= LargestNumber(l.utterances) && l.utterances <= us
    ensures l.floor <= 0 || exists u | u in us && u.questionNumber.Some? :: l.floor <= u.questionNumber.value
  {
    if l.floor > 0 {
      var u :| u in l.utterances && u.questionNumber == Some(LargestNumber(l.utterances));
      assert u in us;
    }
  }

  lemma FinalHasLargest(l: Log)
    requires WellFormed(l.utterances) && l.utterances != [] && IsFinal(l.utterances[|l.utterances| - 1])
    requires l.floor <= 0 ||
             exists u | u in l.utterances && u.questionNumber.Some? :: l.floor <= u.questionNumber.value
    ensures FinalIsCounted(l)
  {
    var us := l.utterances;
    var f := us[|us| - 1];
    WellFormedValid(us);
    FinalIsLast(us);
    WellFormedMeans(us);
    assert forall u | u in us && u.questionNumber.Some? && u != f :: u.questionNumber.value < f.questionNumber.value;
    assert LastNumber(l) == f.questionNumber.value;
    assert f in us;
  }

  /** A polluted log, on which the real final answer is turned away: its final question carries a
      smaller number than an earlier question. */
  lemma FinalAnswerRefusedExample(now: int, text: string)
    requires text != ""
    ensures var items := [ToJson(Root(2, Topic)), ToJson(Root(1, Final))];
            var s := Session(RebuiltLog(items), 0, now, []);
            s.end.phase == WAITING_FINAL_ANSWER && Said(Step(s, UserTurn(text, now, true, false))) == Said(s)
  {
    var a, b := Root(2, Topic), Root(1, Final);
    PollutedLog(a, b);
    assert LastQuestion([Stored(a), Stored(b)]) == Some(Stored(b));
    FinalAnswerTakenIff(RebuiltLog([ToJson(a), ToJson(b)]), 0, now, [], text, now);
  }

  lemma PollutedLog(a: Utterance, b: Utterance)
    requires a == Root(2, Topic) && b == Root(1, Final)
    ensures RebuiltLog([ToJson(a), ToJson(b)]) == Log([Stored(a), Stored(b)], 2)
    ensures Startable(RebuiltLog([ToJson(a), ToJson(b)]))
  {
    var items := [ToJson(a), ToJson(b)];
    AnyRebuiltLogIsStartable(items);
    assert Map(ToJson, [a, b]) == items && Map(Stored, [a, b]) == [Stored(a), Stored(b)];
    ParsedIsStored(items, [a, b]);
    LargestOfTwo(Stored(a), Stored(b));
  }

  lemma LargestOfTwo(a: Utterance, b: Utterance)
    requires a.questionNumber == Some(2) && b.questionNumber == Some(1)
    ensures LargestNumber([a, b]) == 2
  {
    assert [a, b][..1] == [a] && [a][..0] == [];
  }

  function Root(number: int, kind: QuestionType): Utterance {
    Utterance(Some(number), Some(number), Interviewer, "?", Utc(0), Some(kind), None, None, None)
  }
}
