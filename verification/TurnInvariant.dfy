/** What every segment of the turn pipeline keeps, in every interleaving. A rebuilt log may be of any
    shape; what is claimed of the shape is claimed from utterance `base` on, which is 0 where the
    whole log is sound and the length of the rebuilt log where nothing is known of it. */
module TurnInvariant {
  import opened Wrappers
  import opened Utterances
  import opened Conversation
  import opened EndStates
  import opened Orchestrator
  import opened TurnProtocol

  // ------------------------------------------------------------------ what a task carries

  function TurnOf(t: Task): Option<nat> {
    match t
    case Start(turn) => Some(turn)
    case Deciding(turn, _, _) => Some(turn)
    case Generating(turn, _) => Some(turn)
    case Queued(p) => Some(p.turn)
    case Speaking(p, _) => Some(p.turn)
    case _ => None
  }

  function OriginBasis(o: Origin): Option<seq<Utterance>> {
    match o
    case Asked(basis, _, _) => Some(basis)
    case Opening => Some([])
    case _ => None
  }

  /** The log a question in the making was decided on. */
  function BasisOf(t: Task): Option<seq<Utterance>> {
    match t
    case Deciding(_, basis, _) => Some(basis)
    case Generating(_, o) => OriginBasis(o)
    case Queued(p) => OriginBasis(p.origin)
    case Speaking(p, _) => OriginBasis(p.origin)
    case _ => None
  }

  predicate IsOpening(t: Task) {
    (t.Queued? || t.Speaking?) && t.plan.origin.Opening?
  }

  /** Task states that hold the speech lock. */
  predicate Holds(t: Task) {
    t.Speaking? || t.ClosingSpeaking? || t.ResumeSpeaking? || t.RespeakSpeaking?
  }

  predicate IsClosingTask(t: Task) {
    t.ClosingStart? || t.Marking? || t.ClosingQueued? || t.ClosingSpeaking? || t.Cleaning?
  }

  // ------------------------------------------------------------------ the invariant

  type Tasks = map<nat, Task>

  /** The speech lock is held by exactly the task that is speaking. */
  ghost predicate LockInv(tasks: Tasks, speech: Option<nat>) {
    && (forall id | id in tasks && Holds(tasks[id]) :: speech == Some(id))
    && (speech.Some? ==> speech.value in tasks && Holds(tasks[speech.value]))
  }

  ghost predicate IdsInv(tasks: Tasks, nextId: nat) {
    forall id | id in tasks :: id < nextId
  }

  /** One task per turn, none ahead of the turn counter. */
  ghost predicate TurnsInv(tasks: Tasks, turnSeq: nat) {
    && (forall id | id in tasks && TurnOf(tasks[id]).Some? :: TurnOf(tasks[id]).value <= turnSeq)
    && (forall i, j | i in tasks && j in tasks && TurnOf(tasks[i]).Some? && TurnOf(tasks[i]) == TurnOf(tasks[j]) :: i == j)
  }

  /** While the log is empty the only turn tasks are those of the opening question. */
  ghost predicate OpeningInv(tasks: Tasks, turnSeq: nat, empty: bool, initialTurn: Option<nat>) {
    && (empty ==> forall id | id in tasks && TurnOf(tasks[id]).Some? :: IsOpening(tasks[id]))
    && (forall id | id in tasks && IsOpening(tasks[id]) ::
          initialTurn.Some? && TurnOf(tasks[id]).value <= initialTurn.value)
    && (initialTurn.Some? ==> initialTurn.value <= turnSeq)
  }

  /** A question of the current turn rests on the whole log, while it may still be committed. */
  ghost predicate BasisInv(tasks: Tasks, turnSeq: nat, running: bool, us: seq<Utterance>) {
    forall id | id in tasks && TurnOf(tasks[id]) == Some(turnSeq) && BasisOf(tasks[id]).Some? ::
      (Holds(tasks[id]) || running) ==> BasisOf(tasks[id]).value == us
  }

  ghost predicate PlanOk(p: Plan, maxFollowUps: nat) {
    match p.origin
    case Opening => p.kind == Initial && p.followUpType.None? && p.reason.None? && p.ref.None?
    case Asked(basis, wrapUp, d) =>
      && basis != [] && Legal(basis, maxFollowUps, wrapUp, d)
      && (p.reason.Some? ==> p.reason == d.reason)
      && (match p.kind
          case Final => d.action == Action.FINAL_QUESTION && p.followUpType.None? && p.ref.None?
          case Topic => d.action in {FOLLOW_UP, NEXT_TOPIC} && p.followUpType.None? && p.ref.None?
          case FollowUp => d.action == FOLLOW_UP && p.followUpType == d.followUpType && p.ref == d.ref
          case _ => false)
    case _ => false
  }

  ghost predicate TaskOk(t: Task, maxFollowUps: nat) {
    match t
    case Deciding(_, basis, _) => basis != [] && !Forced(basis, maxFollowUps)
    case Generating(_, o) =>
      o.Asked? && o.basis != [] && Legal(o.basis, maxFollowUps, o.wrapUp, o.decision) && o.decision.action in {FOLLOW_UP, NEXT_TOPIC}
    case Queued(p) => PlanOk(p, maxFollowUps)
    case Speaking(p, _) => PlanOk(p, maxFollowUps)
    case _ => true
  }

  ghost predicate TasksOk(tasks: Tasks, maxFollowUps: nat) {
    forall id | id in tasks :: TaskOk(tasks[id], maxFollowUps)
  }

  /** No question of the current turn is being spoken. */
  ghost predicate Quiet(tasks: Tasks, turnSeq: nat) {
    forall id | id in tasks && tasks[id].Speaking? :: TurnOf(tasks[id]) != Some(turnSeq)
  }

  function From(us: seq<Utterance>, base: nat): seq<Utterance> {
    if base <= |us| then us[base..] else []
  }

  /** The final question and the end phase agree. */
  ghost predicate FinalInv(us: seq<Utterance>, phase: EndPhase, base: nat) {
    && (HasFinal(From(us, base)) ==> phase != RUNNING)
    && (phase == WAITING_FINAL_ANSWER ==> us != [] && IsFinal(us[|us| - 1]))
  }

  predicate NoMoreQuestions(us: seq<Utterance>, phase: EndPhase, base: nat) {
    HasFinal(From(us, base)) || HasClosing(From(us, base)) || phase == WAITING_FINAL_ANSWER
  }

  /** How far the ending got: what was written, started and fixed. */
  datatype EndRecord = EndRecord(end: End, markers: seq<EndCause>, cleanups: seq<EndCause>)

  /** What the closing task's progress says about markers, cleanup and the end phase. */
  ghost predicate ClosingStage(e: EndRecord, t: Task) {
    match t
    case ClosingStart => e.markers == [] && e.cleanups == [] && e.end.phase == CLOSING
    case Cleaning(cause) => e.cleanups == [cause] && e.end.phase == CLEANING && e.end.cause == Some(cause)
    case _ =>
      IsClosingTask(t) ==>
        e.markers == [t.cause] && e.cleanups == [] && e.end.phase == CLOSING && e.end.cause == Some(t.cause)
  }

  ghost predicate ClosingTaskInv(e: EndRecord, tasks: Tasks) {
    && (forall id | id in tasks :: ClosingStage(e, tasks[id]))
    && (forall i, j | i in tasks && j in tasks && IsClosingTask(tasks[i]) && IsClosingTask(tasks[j]) :: i == j)
  }

  ghost predicate EndingInv(e: EndRecord, closingSaid: bool) {
    && Consistent(e.end)
    && (closingSaid ==> e.end.phase == CLEANING)
    && e.end.phase != CLOSED
    && |e.markers| <= 1 && |e.cleanups| <= 1
    && (forall c | c in e.markers :: e.end.cause == Some(c))
    && (forall c | c in e.cleanups :: e.end.cause == Some(c))
    && (Rank(e.end.phase) < Rank(CLOSING) ==> e.markers == [] && e.cleanups == [])
  }

  /** Where an utterance came from fits what it is. */
  ghost predicate OriginOk(before: Log, u: Utterance, o: Origin, maxFollowUps: nat) {
    match o
    case Recovered => true
    case Opening =>
      before.utterances == [] && u.questionType == Some(Initial) && u.questionNumber == Some(LastNumber(before) + 1)
    case Asked(basis, wrapUp, d) =>
      && basis == before.utterances && basis != [] && Legal(basis, maxFollowUps, wrapUp, d)
      && IsQuestion(u) && u.questionType.Some? && u.questionNumber == Some(LastNumber(before) + 1)
      && (u.reason.Some? ==> u.reason == d.reason)
      && (match u.questionType.value
          case Final => d.action == Action.FINAL_QUESTION
          case Topic => d.action in {FOLLOW_UP, NEXT_TOPIC}
          case FollowUp =>
            d.action == FOLLOW_UP && u.followUpType == d.followUpType && u.ref == d.ref
            && u.parent == CurrentRoot(before.utterances)
          case _ => false)
    case Answered =>
      && IsAnswer(u) && LastQuestion(before.utterances).Some?
      && u.questionNumber == LastQuestion(before.utterances).value.questionNumber
      && u.parent == LastQuestion(before.utterances).value.parent
    case Farewell => IsClosing(u)
  }

  function Before(l: Log, i: nat): Log
    requires i <= |l.utterances|
  {
    l.(utterances := l.utterances[..i])
  }

  ghost predicate OriginAt(l: Log, origins: seq<Origin>, i: nat, maxFollowUps: nat)
    requires i < |origins| == |l.utterances|
  {
    OriginOk(Before(l, i), l.utterances[i], origins[i], maxFollowUps)
  }

  ghost predicate OriginsInv(l: Log, origins: seq<Origin>, kept: nat, maxFollowUps: nat) {
    && |origins| == |l.utterances|
    && (forall i | 0 <= i < |origins| :: OriginAt(l, origins, i, maxFollowUps))
    && (forall i | 0 <= i < |origins| :: origins[i] == Recovered <==> i < kept)
    && kept <= |origins|
  }

  ghost predicate HasTurnTask(tasks: Tasks, turnSeq: nat) {
    exists id :: id in tasks && TurnOf(tasks[id]) == Some(turnSeq)
  }

  /** An answered turn still has its task, unless the turn is excused. */
  ghost predicate SilenceInv(s: State) {
    !s.closed && s.end.phase == RUNNING && !s.excused && Said(s) != [] && IsAnswer(Said(s)[|Said(s)| - 1]) ==>
      HasTurnTask(s.tasks, s.turnSeq)
  }

  /** What reconstruction guarantees of any log: its utterances obey the schema and no number is
      above the one new questions count from. */
  ghost predicate Startable(l: Log) {
    (forall u | u in l.utterances :: Valid(u)) && Bounded(l)
  }

  /** From `base` on a question's number exceeds every number before it, in the whole log. */
  ghost predicate Growing(us: seq<Utterance>, base: nat) {
    forall i, j | 0 <= i < j < |us| && base <= j && IsQuestion(us[j]) && us[i].questionNumber.Some? ::
      us[i].questionNumber.value < us[j].questionNumber.value
  }

  ghost predicate LogInv(l: Log, base: nat) {
    && Startable(l) && base <= |l.utterances|
    && Growing(l.utterances, base) && WellFormed(From(l.utterances, base))
  }

  function EndingOf(s: State): EndRecord {
    EndRecord(s.end, s.markers, s.cleanups)
  }

  /** What holds of the tasks of turns. */
  ghost predicate TurnPart(tasks: Tasks, turnSeq: nat, us: seq<Utterance>, phase: EndPhase, initialTurn: Option<nat>,
                           base: nat) {
    && TurnsInv(tasks, turnSeq)
    && OpeningInv(tasks, turnSeq, us == [], initialTurn)
    && BasisInv(tasks, turnSeq, phase == RUNNING, us)
    && (NoMoreQuestions(us, phase, base) ==> Quiet(tasks, turnSeq))
  }

  /** What holds of the task table as such. */
  ghost predicate TablePart(tasks: Tasks, speech: Option<nat>, nextId: nat, maxFollowUps: nat, e: EndRecord) {
    && LockInv(tasks, speech)
    && IdsInv(tasks, nextId)
    && TasksOk(tasks, maxFollowUps)
    && ClosingTaskInv(e, tasks)
  }

  /** The part of the invariant that speaks of tasks. */
  ghost predicate TaskInv(s: State, base: nat) {
    && TurnPart(s.tasks, s.turnSeq, Said(s), s.end.phase, s.initialTurn, base)
    && TablePart(s.tasks, s.speech, s.nextId, s.maxFollowUps, EndingOf(s))
  }

  /** The part that speaks of the log, the end state and the history. */
  ghost predicate DataInv(s: State, base: nat) {
    && LogInv(s.log, base)
    && !s.raised
    && FinalInv(Said(s), s.end.phase, base)
    && EndingInv(EndingOf(s), HasClosing(From(Said(s), base)))
    && OriginsInv(s.log, s.origins, s.kept, s.maxFollowUps)
  }

  ghost predicate Inv(s: State, base: nat) {
    TaskInv(s, base) && DataInv(s, base) && SilenceInv(s)
  }

  // ------------------------------------------------------------------ appends are never refused

  lemma NumbersAfterQuestion(l: Log, u: Utterance)
    requires Bounded(l) && IsQuestion(u) && u.questionNumber.value == LastNumber(l) + 1
    ensures Bounded(l.(utterances := l.utterances + [u]))
    ensures LastNumber(l.(utterances := l.utterances + [u])) == LastNumber(l) + 1
  {
    LastQuestionAppend(l.utterances, u);
  }

  lemma NumbersAfterOther(l: Log, u: Utterance)
    requires Bounded(l) && !IsQuestion(u)
    requires u.questionNumber.Some? ==> u.questionNumber.value <= LastNumber(l)
    ensures Bounded(l.(utterances := l.utterances + [u]))
    ensures LastNumber(l.(utterances := l.utterances + [u])) == LastNumber(l)
  {
    LastQuestionAppend(l.utterances, u);
  }

  lemma FromAppend(us: seq<Utterance>, u: Utterance, base: nat)
    requires base <= |us|
    ensures From(us + [u], base) == From(us, base) + [u]
    ensures forall x | x in From(us, base) :: x in us
  {
  }

  lemma GrowingAppend(l: Log, u: Utterance, base: nat)
    requires Bounded(l) && Growing(l.utterances, base)
    requires IsQuestion(u) ==> u.questionNumber.value > LastNumber(l)
    ensures Growing(l.utterances + [u], base)
  {
  }

  lemma NumbersAfter(l: Log, u: Utterance)
    requires Bounded(l)
    requires IsQuestion(u) ==> u.questionNumber.value == LastNumber(l) + 1
    requires !IsQuestion(u) && u.questionNumber.Some? ==> u.questionNumber.value <= LastNumber(l)
    ensures Bounded(l.(utterances := l.utterances + [u]))
  {
    if IsQuestion(u) { NumbersAfterQuestion(l, u); } else { NumbersAfterOther(l, u); }
  }

  /** What enters a log keeps it sound, a question under the next number, anything else under a
      number that is known. */
  lemma LogGrows(l: Log, u: Utterance, base: nat)
    requires LogInv(l, base) && Fits(From(l.utterances, base), u)
    requires IsQuestion(u) ==> u.questionNumber.value == LastNumber(l) + 1
    requires !IsQuestion(u) && u.questionNumber.Some? ==> u.questionNumber.value <= LastNumber(l)
    ensures LogInv(l.(utterances := l.utterances + [u]), base)
  {
    NumbersAfter(l, u);
    GrowingAppend(l, u, base);
    FromAppend(l.utterances, u, base);
    WellFormedAppend(From(l.utterances, base), u);
  }

  lemma CurrentRootIsKnown(l: Log)
    requires Startable(l) && HasTopicOrFollowUp(l.utterances)
    ensures CurrentRoot(l.utterances).Some?
  {
    var u :| u in l.utterances && (u.questionType == Some(Topic) || u.questionType == Some(FollowUp));
    assert Valid(u) && IsQuestion(u);
    assert LastQuestion(l.utterances).Some?;
    assert Valid(LastQuestion(l.utterances).value);
  }

  /** The heart of the numbering rule: on any log whose utterances are valid, a plan decided on the
      whole log is always accepted, under the next number. */
  lemma PlannedQuestionAccepted(s: State, p: Plan, x: Input)
    requires Startable(s.log)
    requires PlanOk(p, s.maxFollowUps) && OriginBasis(p.origin) == Some(Said(s))
    ensures var u := QuestionOf(DraftOf(s, p, x));
            && CheckQuestion(s.log, DraftOf(s, p, x)) == Ok(u)
            && Valid(u) && IsQuestion(u) && u.questionNumber == Some(LastNumber(s.log) + 1)
            && (forall v | v in Said(s) && v.questionNumber.Some? :: v.questionNumber.value < u.questionNumber.value)
            && OriginOk(s.log, u, p.origin, s.maxFollowUps)
  {
    var d := DraftOf(s, p, x);
    assert LastNumber(s.log) >= 0;
    if p.kind == FollowUp {
      assert !Forced(Said(s), s.maxFollowUps);
      CurrentRootIsKnown(s.log);
      var root := QuestionFor(Said(s), d.parent);
      assert root.value in Said(s) && root.value.questionNumber.value <= LastNumber(s.log);
    }
    assert Valid(QuestionOf(d));
  }

  lemma AnswerAccepted(l: Log, text: string, at: int)
    requires Startable(l) && text != ""
    ensures CheckAnswer(l, text, Utc(at)).Ok? <==> LastQuestion(l.utterances).Some?
    ensures CheckAnswer(l, text, Utc(at)).Ok? ==>
              var u := CheckAnswer(l, text, Utc(at)).value;
              IsAnswer(u) && Valid(u) && u.questionNumber == LastQuestion(l.utterances).value.questionNumber
              && u.parent == LastQuestion(l.utterances).value.parent
  {
  }
}
