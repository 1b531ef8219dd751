/** What the pipeline achieves: answers are taken, replies become questions, closings are spoken. */
module TurnProgress {
  import opened Wrappers
  import opened Utterances
  import opened Conversation
  import opened EndStates
  import opened Orchestrator
  import opened Restore
  import opened TurnProtocol
  import opened TurnInvariant
  import opened TurnTheorems
  import TurnFrame
  import opened TurnWords

  // ------------------------------------------------------------------ answers

  /** While the interview runs, a finished user turn is committed as an answer to the last question
      and starts a turn of its own exactly when the session is open, the candidate is there, the turn
      did not begin before the last departure, something was said, and a question is left to answer;
      otherwise it changes nothing. */
  lemma AnswerIsTakenIff(s: State, text: string, now: int, present: bool, beforeBoundary: bool)
    requires s.end.phase == RUNNING && Startable(s.log)
    ensures var t := Step(s, UserTurn(text, now, present, beforeBoundary));
            if !s.closed && present && !beforeBoundary && text != "" && LastQuestion(Said(s)).Some? then
              var q := LastQuestion(Said(s)).value;
              && Added(s, t) && IsAnswer(Last(t)) && Last(t).content == text
              && Last(t).questionNumber == q.questionNumber && Last(t).parent == q.parent
              && t.turnSeq == s.turnSeq + 1 && t.tasks == s.tasks[s.nextId := Start(t.turnSeq)] && t.end == s.end
            else
              Said(t) == Said(s) && t.turnSeq == s.turnSeq && t.tasks == s.tasks && t.end == s.end
  {
    var q := LastQuestion(Said(s));
    if q.Some? { assert Valid(q.value); }
    if text != "" { AnswerAccepted(s.log, text, Max(s.clock, now)); }
  }

  // ------------------------------------------------------------------ from reply to question

  /** The task of the current turn is about to run, nobody is speaking, and the session is open. */
  ghost predicate TurnBegins(s: State, id: nat) {
    && id in s.tasks && s.tasks[id] == Start(s.turnSeq) && s.speech.None?
    && !s.closed && s.end.phase == RUNNING && Said(s) != [] && Startable(s.log)
  }

  function Run(s: State, id: nat, x: Input): State {
    Step(s, RunTask(id, x))
  }

  /** Nothing but the task at `id`, the lock and the clock differs. */
  ghost predicate OnlyTask(s: State, t: State, id: nat, k: Task, speech: Option<nat>) {
    t == s.(tasks := s.tasks[id := k], speech := speech, clock := t.clock)
  }

  lemma StartAsks(s: State, id: nat, x: Input)
    requires TurnBegins(s, id) && !Forced(Said(s), s.maxFollowUps)
    ensures OnlyTask(s, Run(s, id, x), id, Deciding(s.turnSeq, Said(s), x.wrapUp), s.speech)
  {
  }

  lemma StartForced(s: State, id: nat, x: Input)
    requires TurnBegins(s, id) && Forced(Said(s), s.maxFollowUps) && !x.wrapUp
    ensures OnlyTask(s, Run(s, id, x), id, Generating(s.turnSeq, Asked(Said(s), false, SafeDecision(false, FORCED))), s.speech)
  {
  }

  lemma ReplyDecides(s: State, id: nat, wrapUp: bool, x: Input)
    requires id in s.tasks && s.tasks[id] == Deciding(s.turnSeq, Said(s), wrapUp)
    requires !s.closed && s.end.phase == RUNNING && !x.failed
    ensures var d := Decide(Said(s), wrapUp, x.reply);
            && (d.action in {FOLLOW_UP, NEXT_TOPIC} ==>
                  OnlyTask(s, Run(s, id, x), id, Generating(s.turnSeq, Asked(Said(s), wrapUp, d)), s.speech))
            && (d.action == Action.FINAL_QUESTION ==>
                  OnlyTask(s, Run(s, id, x), id,
                           Queued(Plan(s.turnSeq, x.text, Final, None, d.reason, None, Asked(Said(s), wrapUp, d))), s.speech))
  {
    DecideFollowsReply(Said(s), wrapUp, x.reply);
    DecideKeepsContract(Said(s), wrapUp, x.reply);
  }

  lemma WordingIsPlanned(s: State, id: nat, o: Origin, x: Input)
    requires id in s.tasks && o.Asked? && s.tasks[id] == Generating(s.turnSeq, o)
    requires !s.closed && s.end.phase == RUNNING
    ensures OnlyTask(s, Run(s, id, x), id, Queued(PlanFor(s.turnSeq, o, x)), s.speech)
  {
  }

  lemma PlanIsSpoken(s: State, id: nat, p: Plan, x: Input)
    requires id in s.tasks && s.tasks[id] == Queued(p) && p.turn == s.turnSeq && s.speech.None?
    requires !s.closed && s.end.phase == RUNNING
    ensures OnlyTask(s, Run(s, id, x), id, Speaking(p, false), Some(id))
  {
  }

  lemma SpokenIsCommitted(s: State, id: nat, p: Plan, retried: bool, x: Input)
    requires id in s.tasks && s.tasks[id] == Speaking(p, retried) && p.turn == s.turnSeq
    requires !s.closed && s.end.phase == RUNNING && x.ok && x.present && Startable(s.log)
    requires PlanOk(p, s.maxFollowUps) && OriginBasis(p.origin) == Some(Said(s))
    ensures var t := Run(s, id, x);
            && Added(s, t) && t.tasks == s.tasks - {id} && t.speech.None? && !t.closed && t.turnSeq == s.turnSeq
            && IsQuestion(Last(t)) && Last(t).questionNumber == Some(LastNumber(s.log) + 1)
            && Last(t).content == p.text && Last(t).questionType == Some(p.kind) && Last(t).reason == p.reason
            && Last(t).followUpType == p.followUpType && Last(t).ref == p.ref
            && (if p.kind == FollowUp then Last(t).parent == CurrentRoot(Said(s))
                else Last(t).parent == Last(t).questionNumber)
            && t.end == (if p.kind == Final then End(WAITING_FINAL_ANSWER, s.end.cause) else s.end)
  {
    var f := Finish(Tick(s, x.now), id);
    PlannedQuestionAccepted(f, p, x);
    assert Run(s, id, x) == Commit(f, p, x);
  }

  lemma OpenStays(s: State, t: State, id: nat, k: Task, speech: Option<nat>)
    requires OnlyTask(s, t, id, k, speech)
    ensures t.log == s.log && t.end == s.end && t.turnSeq == s.turnSeq && t.closed == s.closed
    ensures t.maxFollowUps == s.maxFollowUps && t.tasks == s.tasks[id := k] && t.speech == speech
    ensures t.tasks - {id} == s.tasks - {id}
  {
  }

  /** What a turn has become: a question as planned, under the next number, on the log it began with. */
  ghost predicate Asks(s: State, t: State, id: nat, p: Plan) {
    && Added(s, t) && t.tasks == s.tasks - {id} && t.speech.None? && t.turnSeq == s.turnSeq
    && IsQuestion(Last(t)) && Last(t).questionNumber == Some(LastNumber(s.log) + 1)
    && Last(t).content == p.text && Last(t).questionType == Some(p.kind) && Last(t).reason == p.reason
    && Last(t).followUpType == p.followUpType && Last(t).ref == p.ref
    && (if p.kind == FollowUp then Last(t).parent == CurrentRoot(Said(s)) else Last(t).parent == Last(t).questionNumber)
    && t.end == (if p.kind == Final then End(WAITING_FINAL_ANSWER, s.end.cause) else s.end)
  }

  /** From the plan on: the lock is free, the playout succeeds, the candidate is there. */
  lemma PlanIsAsked(s: State, id: nat, p: Plan, x: Input, y: Input)
    requires id in s.tasks && s.tasks[id] == Queued(p) && p.turn == s.turnSeq && s.speech.None?
    requires !s.closed && s.end.phase == RUNNING && y.ok && y.present && Startable(s.log)
    requires PlanOk(p, s.maxFollowUps) && OriginBasis(p.origin) == Some(Said(s))
    ensures Asks(s, Run(Run(s, id, x), id, y), id, p)
  {
    PlanIsSpoken(s, id, p, x);
    OpenStays(s, Run(s, id, x), id, Speaking(p, false), Some(id));
    SpokenIsCommitted(Run(s, id, x), id, p, false, y);
  }

  lemma WordingIsAsked(s: State, id: nat, o: Origin, x: Input, y: Input, z: Input)
    requires id in s.tasks && o.Asked? && s.tasks[id] == Generating(s.turnSeq, o) && s.speech.None?
    requires !s.closed && s.end.phase == RUNNING && z.ok && z.present && Startable(s.log)
    requires o.basis == Said(s) && TaskOk(Generating(s.turnSeq, o), s.maxFollowUps)
    ensures Asks(s, Run(Run(Run(s, id, x), id, y), id, z), id, PlanFor(s.turnSeq, o, x))
  {
    var p := PlanFor(s.turnSeq, o, x);
    WordingIsPlanned(s, id, o, x);
    OpenStays(s, Run(s, id, x), id, Queued(p), s.speech);
    PlanIsAsked(Run(s, id, x), id, p, y, z);
  }

  /** From the start to the commit: the direction the reply gives, in the wording that was found. */
  lemma DirectionIsAsked(s: State, id: nat, x0: Input, x1: Input, x2: Input, x3: Input, x4: Input)
    requires TurnBegins(s, id) && !Forced(Said(s), s.maxFollowUps)
    requires !x1.failed && Usable(x0.wrapUp, x1.reply) && x1.reply.value.action in {FOLLOW_UP, NEXT_TOPIC}
    requires x4.ok && x4.present
    ensures Asks(s, Run(Run(Run(Run(Run(s, id, x0), id, x1), id, x2), id, x3), id, x4), id,
                 PlanFor(s.turnSeq, Asked(Said(s), x0.wrapUp, Decide(Said(s), x0.wrapUp, x1.reply)), x2))
  {
    var d := Decide(Said(s), x0.wrapUp, x1.reply);
    var o := Asked(Said(s), x0.wrapUp, d);
    StartAsks(s, id, x0);
    var s1 := Run(s, id, x0);
    OpenStays(s, s1, id, Deciding(s.turnSeq, Said(s), x0.wrapUp), s.speech);
    DecideKeepsContract(Said(s), x0.wrapUp, x1.reply);
    DecideFollowsReply(Said(s), x0.wrapUp, x1.reply);
    ReplyDecides(s1, id, x0.wrapUp, x1);
    var s2 := Run(s1, id, x1);
    OpenStays(s1, s2, id, Generating(s.turnSeq, o), s.speech);
    WordingIsAsked(s2, id, o, x2, x3, x4);
  }

  /** A usable reply becomes the question it asks for. Asked without interruption, with a wording of its
      own, a follow-up joins the current branch with the reply's reason, and with its type and reference
      unless the contradiction points nowhere; a new topic opens a branch with the reply's reason; if
      only a fallback wording could be had, it opens a topic and carries no reason. */
  lemma ReplyIsAsked(s: State, id: nat, x0: Input, x1: Input, x2: Input, x3: Input, x4: Input)
    requires TurnBegins(s, id) && !Forced(Said(s), s.maxFollowUps)
    requires !x1.failed && Usable(x0.wrapUp, x1.reply) && x1.reply.value.action in {FOLLOW_UP, NEXT_TOPIC}
    requires x4.ok && x4.present
    ensures var t := Run(Run(Run(Run(Run(s, id, x0), id, x1), id, x2), id, x3), id, x4);
            var r := x1.reply.value;
            && Added(s, t) && t.tasks == s.tasks - {id} && t.end == s.end && t.speech.None?
            && IsQuestion(Last(t)) && Last(t).content == x2.text
            && Last(t).questionNumber == Some(LastNumber(s.log) + 1)
            && (if x2.failed || x2.fallback || r.action == NEXT_TOPIC then
                  && Last(t).questionType == Some(Topic) && Last(t).parent == Last(t).questionNumber
                  && Last(t).reason == (if x2.failed || x2.fallback then None else Some(r.reason))
                  && Last(t).followUpType.None? && Last(t).ref.None?
                else
                  && IsFollowUp(Last(t)) && Last(t).parent == CurrentRoot(Said(s)) && Last(t).reason == Some(r.reason)
                  && (if r.followUpType == Some(Consistency) && !IsValidRef(Said(s), r.ref)
                      then Last(t).followUpType == Some(Deepen) && Last(t).ref.None?
                      else Last(t).followUpType == r.followUpType
                           && Last(t).ref == (if r.followUpType == Some(Consistency) then r.ref else None)))
  {
    DirectionIsAsked(s, id, x0, x1, x2, x3, x4);
    DecideFollowsReply(Said(s), x0.wrapUp, x1.reply);
    DecideKeepsContract(Said(s), x0.wrapUp, x1.reply);
  }

  /** The last question, likewise; the session then waits for its answer. */
  lemma FinalIsAsked(s: State, id: nat, x0: Input, x1: Input, x2: Input, x3: Input)
    requires TurnBegins(s, id) && !Forced(Said(s), s.maxFollowUps)
    requires !x1.failed && Usable(x0.wrapUp, x1.reply) && x1.reply.value.action == Action.FINAL_QUESTION
    requires x3.ok && x3.present
    ensures var t := Run(Run(Run(Run(s, id, x0), id, x1), id, x2), id, x3);
            && Added(s, t) && t.end.phase == WAITING_FINAL_ANSWER
            && IsFinal(Last(t)) && Last(t).content == x1.text && Last(t).reason == Some(x1.reply.value.reason)
            && Last(t).questionNumber == Some(LastNumber(s.log) + 1) && Last(t).parent == Last(t).questionNumber
  {
    var d := Decide(Said(s), x0.wrapUp, x1.reply);
    var p := Plan(s.turnSeq, x1.text, Final, None, d.reason, None, Asked(Said(s), x0.wrapUp, d));
    StartAsks(s, id, x0);
    var s1 := Run(s, id, x0);
    OpenStays(s, s1, id, Deciding(s.turnSeq, Said(s), x0.wrapUp), s.speech);
    DecideKeepsContract(Said(s), x0.wrapUp, x1.reply);
    ReplyDecides(s1, id, x0.wrapUp, x1);
    var s2 := Run(s1, id, x1);
    OpenStays(s1, s2, id, Queued(p), s.speech);
    PlanIsAsked(s2, id, p, x2, x3);
  }

  /** A reply that ends the interview begins the closing, with the reply's reason. */
  lemma EndBegins(s: State, id: nat, x0: Input, x1: Input)
    requires TurnBegins(s, id) && !Forced(Said(s), s.maxFollowUps) && id < s.nextId
    requires !x1.failed && Usable(x0.wrapUp, x1.reply) && x1.reply.value.action == Action.END
    ensures var t := Run(Run(s, id, x0), id, x1);
            && Said(t) == Said(s) && t.end == End(CLOSING, Some(LLM_END))
            && t.closingReason == Some(x1.reply.value.reason)
            && t.tasks == (s.tasks - {id})[s.nextId := ClosingStart]
  {
    StartAsks(s, id, x0);
    var s1 := Run(s, id, x0);
    OpenStays(s, s1, id, Deciding(s.turnSeq, Said(s), x0.wrapUp), s.speech);
    DecideKeepsContract(Said(s), x0.wrapUp, x1.reply);
  }

  /** The follow-up limit can be reached: below it the orchestrator is asked, and a usable follow-up
      reply adds one to the current branch. */
  lemma LimitCanBeReached(s: State, id: nat, x0: Input, x1: Input, x2: Input, x3: Input, x4: Input)
    requires TurnBegins(s, id) && HasValidCurrentRoot(Said(s)) && HasTopicOrFollowUp(Said(s))
    requires FollowUpsInCurrentBranch(Said(s)) < s.maxFollowUps
    requires !x1.failed && Usable(x0.wrapUp, x1.reply) && x1.reply.value.action == FOLLOW_UP
    requires !x2.failed && !x2.fallback && x4.ok && x4.present
    ensures var t := Run(Run(Run(Run(Run(s, id, x0), id, x1), id, x2), id, x3), id, x4);
            && CurrentRoot(Said(t)) == CurrentRoot(Said(s))
            && FollowUpsInCurrentBranch(Said(t)) == FollowUpsInCurrentBranch(Said(s)) + 1
  {
    ReplyIsAsked(s, id, x0, x1, x2, x3, x4);
    CurrentRootIsKnown(s.log);
    FollowUpAdded(s, Run(Run(Run(Run(Run(s, id, x0), id, x1), id, x2), id, x3), id, x4));
  }

  lemma FollowUpAdded(s: State, t: State)
    requires Added(s, t) && IsQuestion(Last(t)) && IsFollowUp(Last(t))
    requires Last(t).parent == CurrentRoot(Said(s)) && CurrentRoot(Said(s)).Some?
    ensures CurrentRoot(Said(t)) == CurrentRoot(Said(s))
    ensures FollowUpsInCurrentBranch(Said(t)) == FollowUpsInCurrentBranch(Said(s)) + 1
  {
    OneFollowUpMore(Said(s), Last(t));
    assert Said(t) == Said(s) + [Last(t)];
  }

  lemma OneFollowUpMore(us: seq<Utterance>, u: Utterance)
    requires IsQuestion(u) && IsFollowUp(u) && u.parent == CurrentRoot(us) && CurrentRoot(us).Some?
    ensures CurrentRoot(us + [u]) == CurrentRoot(us)
    ensures FollowUpsInCurrentBranch(us + [u]) == FollowUpsInCurrentBranch(us) + 1
  {
    LastQuestionAppend(us, u);
    assert (us + [u])[..|us|] == us;
  }

  /** At the limit, on a lost root and before the first topic the code opens a topic without asking. */
  lemma ForcedTopicIsAsked(s: State, id: nat, x0: Input, x1: Input, x2: Input, x3: Input)
    requires TurnBegins(s, id) && !x0.wrapUp && x3.ok && x3.present
    requires || FollowUpsInCurrentBranch(Said(s)) >= s.maxFollowUps || !HasValidCurrentRoot(Said(s))
             || !HasTopicOrFollowUp(Said(s))
    ensures var t := Run(Run(Run(Run(s, id, x0), id, x1), id, x2), id, x3);
            && Added(s, t) && Last(t).questionType == Some(Topic) && Last(t).content == x1.text
            && Last(t).reason.None? && Last(t).questionNumber == Some(LastNumber(s.log) + 1)
  {
    var o := Asked(Said(s), false, SafeDecision(false, FORCED));
    StartForced(s, id, x0);
    var s1 := Run(s, id, x0);
    OpenStays(s, s1, id, Generating(s.turnSeq, o), s.speech);
    WordingIsAsked(s1, id, o, x1, x2, x3);
  }

  /** The opening question of a fresh session. */
  lemma OpeningIsAsked(maxFollowUps: nat, now: int, opening: Spoken, x: Input, y: Input)
    requires y.ok && y.present
    ensures var t := Session(Log([], 0), maxFollowUps, now, [SpeakInitial(opening), RunTask(0, x), RunTask(0, y)]);
            && |Said(t)| == 1 && Last(t).questionType == Some(Initial) && Last(t).content == opening
            && Last(t).questionNumber == Some(1) && Last(t).parent == Some(1) && Last(t).reason.None?
  {
    var s := SessionStart(Log([], 0), maxFollowUps, now);
    var es := [SpeakInitial(opening), RunTask(0, x), RunTask(0, y)];
    assert es[..2][..1] == es[..1] && es[..1][..0] == [];
    assert es[..2] == [SpeakInitial(opening), RunTask(0, x)] && es[..1] == [SpeakInitial(opening)];
    var a := Step(s, SpeakInitial(opening));
    assert Exec(s, es[..1]) == a;
    assert Exec(s, es[..2]) == Run(a, 0, x);
    PlanIsAsked(a, 0, Plan(0, opening, Initial, None, None, None, Opening), x, y);
  }

  // ------------------------------------------------------------------ playouts that fail

  /** One failed playout is made up for: the question keeps the lock and is spoken again, unless its turn
      is over. Only a second failure ends the job, or for the final question begins the closing. */
  lemma FailedPlayout(s: State, id: nat, p: Plan, retried: bool, x: Input)
    requires id in s.tasks && s.tasks[id] == Speaking(p, retried) && !x.ok
    ensures var t := Run(s, id, x);
            && Said(t) == Said(s)
            && (!retried ==> t.shutdowns == s.shutdowns && t.end == s.end
                             && (if Stale(s, p.turn) then t.tasks == s.tasks - {id} && t.speech.None?
                                 else t.tasks == s.tasks[id := Speaking(p, true)] && t.speech == s.speech))
            && (retried && p.kind != Final ==>
                  t.shutdowns == s.shutdowns + 1 && t.end == s.end && t.tasks == s.tasks - {id} && t.speech.None?)
            && (retried && p.kind == Final ==> t.shutdowns == s.shutdowns && t.speech.None?)
            && (retried && p.kind == Final && !s.closed && Rank(s.end.phase) < Rank(CLOSING) ==>
                  t.end == End(CLOSING, Some(EndCause.FINAL_QUESTION)) && t.closingReason.None?)
  {
  }

  /** A question that was heard while nobody was there, or in a turn that is over, is not committed. */
  lemma UnheardIsDropped(s: State, id: nat, p: Plan, retried: bool, x: Input)
    requires id in s.tasks && s.tasks[id] == Speaking(p, retried) && x.ok
    requires !x.present || p.turn != s.turnSeq || s.closed
    ensures var t := Run(s, id, x);
            Said(t) == Said(s) && t.tasks == s.tasks - {id} && t.speech.None? && t.end == s.end
  {
  }

  // ------------------------------------------------------------------ the closing

  /** Causes after which nobody is left to hear a closing, or has already heard it. */
  predicate Silent(cause: EndCause) {
    cause == RECONNECT_TIMEOUT || cause == RECOVERED_CLOSING
  }

  /** A closing that was won is spoken, with the wording chosen for it and the reason it was begun for,
      if the cause asks for one, the candidate is there, the lock is free and the playout succeeds; then
      the cleanup starts with the cause. */
  lemma ClosingIsSpoken(s: State, id: nat, cause: EndCause, x0: Input, x1: Input, x2: Input, x3: Input)
    requires id in s.tasks && s.tasks[id] == ClosingStart && s.end == End(CLOSING, Some(cause))
    requires !Silent(cause) && s.speech.None? && x1.present && x3.ok
    ensures var t := Run(Run(Run(Run(s, id, x0), id, x1), id, x2), id, x3);
            && Added(s, t) && IsClosing(Last(t)) && Last(t).content == x1.text && Last(t).reason == s.closingReason
            && t.end == End(CLEANING, Some(cause)) && t.speech.None?
            && t.markers == s.markers + [cause] && t.cleanups == s.cleanups + [cause]
            && t.tasks == s.tasks[id := Cleaning(cause)]
  {
    var s1 := Run(s, id, x0);
    MarkerWritten(s, id, cause, x0);
    var s2 := Run(s1, id, x1);
    ClosingChosen(s1, id, cause, x1);
    var s3 := Run(s2, id, x2);
    ClosingTakesLock(s2, id, cause, x1.text, x2);
    ClosingHeard(s3, id, cause, x1.text, x3);
  }

  lemma MarkerWritten(s: State, id: nat, cause: EndCause, x: Input)
    requires id in s.tasks && s.tasks[id] == ClosingStart && s.end.cause == Some(cause)
    ensures Run(s, id, x) == s.(tasks := s.tasks[id := Marking(cause)], markers := s.markers + [cause],
                                clock := Max(s.clock, x.now))
  {
  }

  lemma ClosingChosen(s: State, id: nat, cause: EndCause, x: Input)
    requires id in s.tasks && s.tasks[id] == Marking(cause) && s.end == End(CLOSING, Some(cause))
    ensures Run(s, id, x) ==
              if !Silent(cause) && x.present then
                s.(tasks := s.tasks[id := ClosingQueued(cause, x.text)], clock := Max(s.clock, x.now))
              else
                s.(tasks := s.tasks[id := Cleaning(cause)], clock := Max(s.clock, x.now),
                   end := End(CLEANING, Some(cause)), cleanups := s.cleanups + [cause])
  {
  }

  lemma ClosingTakesLock(s: State, id: nat, cause: EndCause, text: Spoken, x: Input)
    requires id in s.tasks && s.tasks[id] == ClosingQueued(cause, text) && s.speech.None?
    ensures Run(s, id, x) == s.(tasks := s.tasks[id := ClosingSpeaking(cause, text, false)], speech := Some(id),
                                clock := Max(s.clock, x.now))
  {
  }

  lemma ClosingHeard(s: State, id: nat, cause: EndCause, text: Spoken, x: Input)
    requires id in s.tasks && s.tasks[id] == ClosingSpeaking(cause, text, false) && x.ok
    requires s.end == End(CLOSING, Some(cause))
    ensures var t := Run(s, id, x);
            && Added(s, t) && IsClosing(Last(t)) && Last(t).content == text && Last(t).reason == s.closingReason
            && t.end == End(CLEANING, Some(cause)) && t.speech.None? && t.markers == s.markers
            && t.cleanups == s.cleanups + [cause] && t.tasks == s.tasks[id := Cleaning(cause)]
  {
  }

  /** No task speaks a closing after a silent cause, and none does once the pipeline is closed. */
  ghost predicate QuietTasks(tasks: Tasks, closed: bool) {
    && (forall id | id in tasks && (tasks[id].ClosingQueued? || tasks[id].ClosingSpeaking?) :: !Silent(tasks[id].cause))
    && (closed ==> forall id | id in tasks :: !IsClosingTask(tasks[id]))
  }

  ghost predicate QuietCauses(s: State) {
    QuietTasks(s.tasks, s.closed)
  }

  lemma QuietSpawn(s: State, cause: EndCause, reason: Option<string>)
    requires QuietCauses(s)
    ensures QuietCauses(BeginClosing(s, cause, reason))
  {
  }

  lemma QuietDecided(s: State, id: nat, turn: nat, basis: seq<Utterance>, wrapUp: bool, d: Decision, x: Input)
    requires QuietCauses(s)
    ensures QuietCauses(Decided(s, id, turn, basis, wrapUp, d, x))
  {
    QuietSpawn(Remove(s, id), LLM_END, if d.source == ORCHESTRATOR then d.reason else None);
  }

  lemma QuietPut(tasks: Tasks, closed: bool, id: nat, t: Task)
    requires QuietTasks(tasks, closed) && (closed ==> !IsClosingTask(t))
    requires (t.ClosingQueued? || t.ClosingSpeaking?) ==> !Silent(t.cause)
    ensures QuietTasks(tasks[id := t], closed) && QuietTasks(tasks - {id}, closed)
  {
  }

  lemma QuietSpeaking(s: State, id: nat, p: Plan, retried: bool, x: Input)
    requires QuietCauses(s)
    ensures QuietCauses(SpeakingSegment(s, id, p, retried, x))
  {
    QuietPut(s.tasks, s.closed, id, Speaking(p, true));
    QuietSpawn(Finish(s, id), EndCause.FINAL_QUESTION, None);
  }

  lemma QuietTurn(s: State, id: nat, x: Input)
    requires id in s.tasks && TurnOf(s.tasks[id]).Some? && QuietCauses(s)
    ensures QuietCauses(Segment(s, id, x))
  {
    match s.tasks[id]
    case Start(turn) =>
      QuietPut(s.tasks, s.closed, id, Deciding(turn, Said(s), x.wrapUp));
      QuietDecided(s, id, turn, Said(s), x.wrapUp, SafeDecision(x.wrapUp, FORCED), x);
    case Deciding(turn, basis, wrapUp) =>
      QuietDecided(s, id, turn, basis, wrapUp,
                   if x.failed then SafeDecision(wrapUp, FORCED) else Decide(Said(s), wrapUp, x.reply), x);
    case Generating(turn, o) =>
      QuietPut(s.tasks, s.closed, id, if o.Asked? then Queued(PlanFor(turn, o, x)) else s.tasks[id]);
    case Queued(p) => QuietPut(s.tasks, s.closed, id, Speaking(p, false));
    case Speaking(p, retried) => QuietSpeaking(s, id, p, retried, x);
  }

  lemma QuietClosing(s: State, id: nat, x: Input)
    requires id in s.tasks && IsClosingTask(s.tasks[id]) && QuietCauses(s)
    ensures QuietCauses(Segment(s, id, x))
  {
    match s.tasks[id]
    case ClosingStart => if s.end.cause.Some? { QuietPut(s.tasks, s.closed, id, Marking(s.end.cause.value)); }
    case Marking(cause) =>
      QuietPut(s.tasks, s.closed, id, Cleaning(cause));
      if !Silent(cause) { QuietPut(s.tasks, s.closed, id, ClosingQueued(cause, x.text)); }
    case ClosingQueued(cause, text) => QuietPut(s.tasks, s.closed, id, ClosingSpeaking(cause, text, false));
    case ClosingSpeaking(cause, text, _) =>
      QuietPut(s.tasks, s.closed, id, Cleaning(cause));
      QuietPut(s.tasks, s.closed, id, ClosingSpeaking(cause, text, true));
    case Cleaning(_) => QuietPut(s.tasks, s.closed, id, s.tasks[id]);
  }

  lemma QuietResume(s: State, id: nat, x: Input)
    requires id in s.tasks && TurnOf(s.tasks[id]).None? && !IsClosingTask(s.tasks[id]) && QuietCauses(s)
    ensures QuietCauses(Segment(s, id, x))
  {
    QuietPut(s.tasks, s.closed, id, ResumeSpeaking);
    match s.tasks[id]
    case ResumeSpeaking =>
      if Said(s) != [] { QuietPut(s.tasks, s.closed, id, RespeakQueued(Said(s)[|Said(s)| - 1].content)); }
      QuietPut(s.tasks - {id}, s.closed, s.nextId, Start(s.turnSeq + 1));
    case RespeakQueued(text) => QuietPut(s.tasks, s.closed, id, RespeakSpeaking(text, false));
    case RespeakSpeaking(text, _) => QuietPut(s.tasks, s.closed, id, RespeakSpeaking(text, true));
    case _ =>
  }

  lemma QuietStep(s: State, e: Event)
    requires QuietCauses(s)
    ensures QuietCauses(Step(s, e))
  {
    match e
    case RunTask(id, x) =>
      if id in s.tasks {
        if TurnOf(s.tasks[id]).Some? {
          QuietTurn(Tick(s, x.now), id, x);
        } else if IsClosingTask(s.tasks[id]) {
          QuietClosing(Tick(s, x.now), id, x);
        } else {
          QuietResume(Tick(s, x.now), id, x);
        }
      }
    case RequestClosing(cause) => QuietSpawn(s, cause, None);
    case UserTurn(text, now, _, _) =>
      var r := CheckAnswer(s.log, text, Utc(Max(s.clock, now)));
      QuietSpawn(Append(Tick(s, now), r, Answered), EndCause.FINAL_QUESTION, None);
    case _ =>
  }

  lemma {:induction false} QuietRun(s: State, es: seq<Event>)
    requires QuietCauses(s)
    ensures QuietCauses(Exec(s, es))
  {
    if es != [] {
      QuietRun(s, es[..|es| - 1]);
      QuietStep(Exec(s, es[..|es| - 1]), es[|es| - 1]);
    }
  }

  lemma QuietStart(l: Log, maxFollowUps: nat, now: int)
    ensures QuietCauses(SessionStart(l, maxFollowUps, now))
  {
  }

  /** A session that ran out of its reconnect window, or whose closing was already heard, adds no closing. */
  lemma SilentCausesStaySilent(l: Log, maxFollowUps: nat, now: int, es: seq<Event>, i: nat)
    requires Startable(l)
    requires |l.utterances| <= i < |Said(Session(l, maxFollowUps, now, es))|
    requires IsClosing(Said(Session(l, maxFollowUps, now, es))[i])
    ensures var s := Session(l, maxFollowUps, now, es); s.end.cause.Some? && !Silent(s.end.cause.value)
  {
    var n := EverythingWasSaid(l, maxFollowUps, now, es, i);
    var s, b := Session(l, maxFollowUps, now, es), Session(l, maxFollowUps, now, es[..n]);
    AnySessionInv(l, maxFollowUps, now, es);
    AnySessionInv(l, maxFollowUps, now, es[..n]);
    QuietStart(l, maxFollowUps, now);
    QuietRun(SessionStart(l, maxFollowUps, now), es[..n]);
    assert Said(s)[i] in Said(s);
    SpeakerKnowsCause(b, es[n], Said(s)[i], ClockAt(b, es[n]), |l.utterances|);
    CauseStays(SessionStart(l, maxFollowUps, now), es, n);
  }

  /** Once the pipeline is closed, whatever still runs adds nothing to the log. */
  lemma ClosedSaysNothing(l: Log, maxFollowUps: nat, now: int, es: seq<Event>, e: Event)
    requires Session(l, maxFollowUps, now, es).closed
    ensures var s := Session(l, maxFollowUps, now, es); Said(Step(s, e)) == Said(s) && Step(s, e).closed
  {
    var s := Session(l, maxFollowUps, now, es);
    QuietStart(l, maxFollowUps, now);
    QuietRun(SessionStart(l, maxFollowUps, now), es);
    if Said(Step(s, e)) != Said(s) {
      StepSays(s, e);
      assert false;
    }
    TurnFrame.StepFollows(s, e);
  }

  lemma SpeakerKnowsCause(b: State, e: Event, u: Utterance, clock: int, base: nat)
    requires Inv(b, base) && QuietCauses(b) && IsClosing(u) && Valid(u) && Says(b, e, u, clock)
    ensures b.end.cause.Some? && !Silent(b.end.cause.value) && Consistent(b.end)
  {
    assert e.RunTask? && e.id in b.tasks;
    assert ClosingStage(EndingOf(b), b.tasks[e.id]);
    assert TaskOk(b.tasks[e.id], b.maxFollowUps);
  }

  lemma {:induction false} CauseStays(s: State, es: seq<Event>, n: nat)
    requires n <= |es| && Exec(s, es[..n]).end.cause.Some? && Consistent(Exec(s, es[..n]).end)
    ensures Exec(s, es).end.cause == Exec(s, es[..n]).end.cause && Consistent(Exec(s, es).end)
    decreases |es|
  {
    if n == |es| {
      assert es[..n] == es;
    } else {
      assert es[..|es| - 1][..n] == es[..n];
      CauseStays(s, es[..|es| - 1], n);
      var b := Exec(s, es[..|es| - 1]);
      TurnFrame.StepFollows(b, es[|es| - 1]);
    }
  }

  // ------------------------------------------------------------------ resuming

  /** After the notice a question that is still open is repeated word for word; an answer that got no
      reply gets a turn of its own; on an empty log there is nothing to do. */
  lemma NoticeIsFollowed(s: State, id: nat, x: Input)
    requires id in s.tasks && s.tasks[id] == ResumeSpeaking && id < s.nextId
    ensures var t := Run(s, id, x); var us := Said(s);
            && Said(t) == us && t.speech.None? && t.end == s.end
            && (us == [] ==> t.tasks == s.tasks - {id} && t.turnSeq == s.turnSeq)
            && (us != [] && IsQuestion(us[|us| - 1]) ==>
                  t.tasks == s.tasks[id := RespeakQueued(us[|us| - 1].content)] && t.turnSeq == s.turnSeq)
            && (us != [] && !IsQuestion(us[|us| - 1]) ==>
                  t.turnSeq == s.turnSeq + 1 && t.tasks == (s.tasks - {id})[s.nextId := Start(t.turnSeq)])
  {
  }

  /** The repetition is retried once, and a second failure ends the job. */
  lemma FailedRepetition(s: State, id: nat, text: string, retried: bool, x: Input)
    requires id in s.tasks && s.tasks[id] == RespeakSpeaking(text, retried)
    ensures var t := Run(s, id, x);
            && Said(t) == Said(s) && t.end == s.end
            && (x.ok ==> t.tasks == s.tasks - {id} && t.shutdowns == s.shutdowns)
            && (!x.ok && !retried && !Ending(s) ==>
                  t.tasks == s.tasks[id := RespeakSpeaking(text, true)] && t.shutdowns == s.shutdowns)
            && (!x.ok && retried ==> t.tasks == s.tasks - {id} && t.shutdowns == s.shutdowns + 1)
  {
  }

  // ------------------------------------------------------------------ turns that are over

  lemma DecidedTurn(s: State, id: nat, turn: nat, basis: seq<Utterance>, wrapUp: bool, d: Decision, x: Input)
    ensures Decided(s, id, turn, basis, wrapUp, d, x).turnSeq == s.turnSeq
  {
  }

  lemma SpeakingTurn(s: State, id: nat, p: Plan, retried: bool, x: Input)
    ensures SpeakingSegment(s, id, p, retried, x).turnSeq == s.turnSeq
  {
  }

  lemma TurnTaskTurn(s: State, id: nat, x: Input)
    requires id in s.tasks && TurnOf(s.tasks[id]).Some?
    ensures Segment(s, id, x).turnSeq == s.turnSeq
  {
    match s.tasks[id]
    case Start(turn) => DecidedTurn(s, id, turn, Said(s), x.wrapUp, SafeDecision(x.wrapUp, FORCED), x);
    case Deciding(turn, basis, wrapUp) =>
      DecidedTurn(s, id, turn, basis, wrapUp,
                  if x.failed then SafeDecision(wrapUp, FORCED) else Decide(Said(s), wrapUp, x.reply), x);
    case Speaking(p, retried) => SpeakingTurn(s, id, p, retried, x);
    case _ =>
  }

  lemma ClosingTaskTurn(s: State, id: nat, x: Input)
    requires id in s.tasks && IsClosingTask(s.tasks[id])
    ensures Segment(s, id, x).turnSeq == s.turnSeq
  {
    if s.tasks[id].ClosingSpeaking? {
      var k := s.tasks[id];
      ClosingSpeakingTurn(s, id, k.cause, k.text, k.retried, x);
    }
  }

  lemma ClosingSpeakingTurn(s: State, id: nat, cause: EndCause, text: Spoken, retried: bool, x: Input)
    ensures ClosingSpeakingSegment(s, id, cause, text, retried, x).turnSeq == s.turnSeq
  {
  }

  lemma ResumeTaskTurn(s: State, id: nat, x: Input)
    requires id in s.tasks && TurnOf(s.tasks[id]).None? && !IsClosingTask(s.tasks[id])
    ensures Segment(s, id, x).turnSeq >= s.turnSeq
  {
    if s.tasks[id].ResumeSpeaking? { ResumeSpeakingTurn(s, id); }
  }

  lemma ResumeSpeakingTurn(s: State, id: nat)
    ensures ResumeSpeakingSegment(s, id).turnSeq >= s.turnSeq
  {
  }

  lemma TurnNeverFalls(s: State, e: Event)
    ensures Step(s, e).turnSeq >= s.turnSeq
  {
    match e
    case RunTask(id, x) =>
      if id in s.tasks {
        if TurnOf(s.tasks[id]).Some? {
          TurnTaskTurn(Tick(s, x.now), id, x);
        } else if IsClosingTask(s.tasks[id]) {
          ClosingTaskTurn(Tick(s, x.now), id, x);
        } else {
          ResumeTaskTurn(Tick(s, x.now), id, x);
        }
      }
    case _ =>
  }

  lemma {:induction false} TurnsNeverFall(s: State, es: seq<Event>)
    ensures Exec(s, es).turnSeq >= s.turnSeq
  {
    if es != [] {
      TurnsNeverFall(s, es[..|es| - 1]);
      TurnNeverFalls(Exec(s, es[..|es| - 1]), es[|es| - 1]);
    }
  }

  /** What ends a turn: a departure, the end of the pipeline, and an answer that is taken while the
      interview runs. */
  predicate EndsTurn(s: State, e: Event) {
    || e.Depart?
    || (e.Close? && !s.closed)
    || (e.UserTurn? && s.end.phase == RUNNING && Said(Step(s, e)) != Said(s))
  }

  /** Whatever happens after that, a coroutine of that turn or an earlier one adds nothing to the log, and
      ends with the await it is at: only one that has not begun may still ask the orchestrator, and one
      that waits for the speech lock waits until it is free. */
  lemma OverTurnIsDropped(s: State, e: Event, es: seq<Event>, id: nat, x: Input)
    requires EndsTurn(s, e)
    requires var t := Exec(Step(s, e), es);
             && id in t.tasks && id < t.nextId
             && TurnOf(t.tasks[id]).Some? && TurnOf(t.tasks[id]).value <= s.turnSeq
    ensures var t := Exec(Step(s, e), es);
            && Said(Run(t, id, x)) == Said(t)
            && (!t.tasks[id].Start? && !(t.tasks[id].Queued? && t.speech.Some?) ==> id !in Run(t, id, x).tasks)
  {
    TurnEnds(s, e);
    TurnsNeverFall(Step(s, e), es);
    OldTurnAddsNothing(Exec(Step(s, e), es), id, x);
  }

  lemma TurnEnds(s: State, e: Event)
    requires EndsTurn(s, e)
    ensures Step(s, e).turnSeq == s.turnSeq + 1
  {
  }

  lemma OldTurnAddsNothing(s: State, id: nat, x: Input)
    requires id in s.tasks && TurnOf(s.tasks[id]).Some? && TurnOf(s.tasks[id]).value < s.turnSeq
    ensures Said(Run(s, id, x)) == Said(s)
    ensures id < s.nextId && !s.tasks[id].Start? && !(s.tasks[id].Queued? && s.speech.Some?) ==>
              id !in Run(s, id, x).tasks
  {
  }

  // ------------------------------------------------------------------ the end of the job

  /** The cleanup runs once; only if it raises does the pipeline shut the job down itself. */
  lemma CleanupEndsTheJob(s: State, id: nat, cause: EndCause, x: Input)
    requires id in s.tasks && s.tasks[id] == Cleaning(cause)
    ensures var t := Run(s, id, x);
            && t.tasks == s.tasks - {id} && Said(t) == Said(s) && t.end == s.end && t.cleanups == s.cleanups
            && t.shutdowns == s.shutdowns + (if x.failed then 1 else 0)
  {
  }

  /** A return is noticed unless the session is ending, and the notice waits for the speech lock. */
  lemma ReturnIsNoticed(s: State, x: Input)
    ensures Ending(s) ==> Step(s, Resume) == s
    ensures !Ending(s) ==>
              var t := Step(s, Resume);
              && t.tasks == s.tasks[s.nextId := ResumeQueued] && Said(t) == Said(s) && t.turnSeq == s.turnSeq
              && (s.speech.None? ==> Run(t, s.nextId, x).tasks == s.tasks[s.nextId := ResumeSpeaking]
                                     && Run(t, s.nextId, x).speech == Some(s.nextId))
              && (s.speech.Some? ==> Run(t, s.nextId, x).tasks == t.tasks)
  {
  }

  // ------------------------------------------------------------------ the start

  /** Where a session goes on that starts on a well-formed log: its closing was heard and nothing is left
      to say; its final question was answered and the closing begins; the answer to it is awaited; or the
      interview runs. The derived cause is the one it ends with. */
  lemma SessionGoesOn(l: Log, maxFollowUps: nat, now: int)
    requires WellFormed(l.utterances)
    ensures var s := SessionStart(l, maxFollowUps, now); var us := l.utterances;
            && s.log == l && s.clock == now && s.end.cause == DeriveMode(us).1
            && (if HasClosing(us) then
                  s.closed && s.end == End(CLEANING, Some(RECOVERED_CLOSING)) && s.tasks == map[]
                else if HasFinal(us) && IsAnswer(us[|us| - 1]) then
                  !s.closed && s.end == End(CLOSING, Some(EndCause.FINAL_QUESTION)) && s.tasks == map[0 := ClosingStart]
                else
                  && !s.closed && s.tasks == map[]
                  && s.end == End(if HasFinal(us) then WAITING_FINAL_ANSWER else RUNNING, None))
  {
    ModeIsStructural(l.utterances);
    if HasFinal(l.utterances) && !HasClosing(l.utterances) {
      FinalIsNearTheEnd(l.utterances);
      WellFormedValid(l.utterances);
      LastIsIn(l.utterances);
    }
  }
}
