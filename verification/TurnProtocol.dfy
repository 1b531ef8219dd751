/** The turn pipeline as a protocol: tasks interleaved over one log, one segment between two
    suspension points at a time. Whatever the models, the speech engine, the clock and the room
    answer is an argument of the segment. */
module TurnProtocol {
  import opened Wrappers
  import opened Utterances
  import opened Conversation
  import opened EndStates
  import opened Orchestrator

  type Spoken = s: string | s != "" witness "?"

  /** Where an utterance of the log comes from; `basis` is the log its question was decided on. */
  datatype Origin =
    | Recovered
    | Opening
    | Asked(basis: seq<Utterance>, wrapUp: bool, decision: Decision)
    | Answered
    | Farewell

  /** A question on its way to being spoken. */
  datatype Plan = Plan(
    turn: nat, text: Spoken, kind: QuestionType, followUpType: Option<FollowUpType>,
    reason: Option<string>, ref: Option<int>, origin: Origin)

  /** A live task and the suspension point it is at. */
  datatype Task =
    | Start(turn: nat)
    | Deciding(turn: nat, basis: seq<Utterance>, wrapUp: bool)
    | Generating(turn: nat, origin: Origin)
    | Queued(plan: Plan)
    | Speaking(plan: Plan, retried: bool)
    | ClosingStart
    | Marking(cause: EndCause)
    | ClosingQueued(cause: EndCause, text: Spoken)
    | ClosingSpeaking(cause: EndCause, text: Spoken, retried: bool)
    | Cleaning(cause: EndCause)
    | ResumeQueued
    | ResumeSpeaking
    | RespeakQueued(content: string)
    | RespeakSpeaking(content: string, retried: bool)

  /** What a segment may be told by its surroundings. */
  datatype Input = Input(
    now: int,                    // wall clock
    present: bool,               // listener_present_fn()
    wrapUp: bool,                // the interview clock says wrap-up
    failed: bool,                // the awaited call raised
    reply: Option<Reply>,        // the orchestrator's parsed reply
    text: Spoken,                // generated or chosen wording
    fallback: bool,              // the wording is a fallback question
    ok: bool,                    // playout succeeded
    startedAt: Option<int>)      // when playout started

  datatype State = State(
    maxFollowUps: nat,
    kept: nat,                   // utterances a rebuilt log started with
    log: Log,
    origins: seq<Origin>,        // history: one per utterance
    end: End,
    closingReason: Option<string>,
    turnSeq: nat,
    closed: bool,
    tasks: map<nat, Task>,
    nextId: nat,
    speech: Option<nat>,         // the task that holds the speech lock
    clock: int,
    initialTurn: Option<nat>,    // turn of the last speak_initial
    markers: seq<EndCause>,      // history: termination markers written
    cleanups: seq<EndCause>,     // history: cleanups started
    shutdowns: nat,              // history: shutdown_fn calls
    raised: bool,                // history: an append at a commit point was refused
    excused: bool)               // history: this turn lost its listener or its voice

  datatype Event =
    | UserTurn(text: string, now: int, present: bool, beforeBoundary: bool)
    | Depart
    | Resume
    | RequestClosing(cause: EndCause)
    | SpeakInitial(opening: Spoken)
    | RunTask(id: nat, input: Input)
    | Close

  // ------------------------------------------------------------------ primitives

  function Said(s: State): seq<Utterance> {
    s.log.utterances
  }

  function Tick(s: State, now: int): State {
    s.(clock := Max(s.clock, now))
  }

  function Put(s: State, id: nat, t: Task): State {
    s.(tasks := s.tasks[id := t])
  }

  function Remove(s: State, id: nat): State {
    s.(tasks := s.tasks - {id})
  }

  /** The end of a task that holds the speech lock. */
  function Finish(s: State, id: nat): State {
    s.(tasks := s.tasks - {id}, speech := None)
  }

  function Acquire(s: State, id: nat, t: Task): State {
    s.(tasks := s.tasks[id := t], speech := Some(id))
  }

  function Spawn(s: State, t: Task): State {
    s.(tasks := s.tasks[s.nextId := t], nextId := s.nextId + 1)
  }

  function Append(s: State, r: Result<Utterance, AppendError>, origin: Origin): State {
    if r.Err? then s.(raised := true)
    else s.(log := Extend(s.log, r), origins := s.origins + [origin])
  }

  predicate Stale(s: State, turn: nat) {
    s.closed || turn != s.turnSeq || s.end.phase != RUNNING
  }

  predicate Ending(s: State) {
    s.closed || Rank(s.end.phase) >= Rank(CLOSING)
  }

  /** Only the winner of the transition starts the closing task. */
  function BeginClosing(s: State, cause: EndCause, reason: Option<string>): State {
    var q := Request(CLOSING, Some(cause));
    if s.closed || Judge(s.end, q) != Ok(true) then s
    else Spawn(s.(end := Advanced(s.end, q), closingReason := reason), ClosingStart)
  }

  /** A new turn begins. */
  function Bumped(s: State): State {
    s.(turnSeq := s.turnSeq + 1, excused := false)
  }

  function NextTurn(s: State): State {
    Spawn(Bumped(s), Start(s.turnSeq + 1))
  }

  // ------------------------------------------------------------------ events

  /** Why a finished user turn is not taken as an answer. */
  predicate Ignored(s: State, text: string, present: bool, beforeBoundary: bool) {
    || Ending(s) || !present || beforeBoundary || text == ""
    || LastNumber(s.log) == 0
    || (s.end.phase == WAITING_FINAL_ANSWER &&
        var q := QuestionFor(s.log.utterances, LastNumber(s.log));
        q.None? || !IsFinal(q.value))
  }

  function OnUserTurn(s: State, text: string, present: bool, beforeBoundary: bool): State {
    var r := CheckAnswer(s.log, text, Utc(s.clock));
    if Ignored(s, text, present, beforeBoundary) || r.Err? then s
    else if s.end.phase == WAITING_FINAL_ANSWER then BeginClosing(Append(s, r, Answered), EndCause.FINAL_QUESTION, None)
    else NextTurn(Append(s, r, Answered))
  }

  function OnSpeakInitial(s: State, text: Spoken): State {
    if Said(s) != [] || s.initialTurn == Some(s.turnSeq) then s else
    var s := s.(initialTurn := Some(s.turnSeq));
    if Stale(s, s.turnSeq) then s
    else Spawn(s, Queued(Plan(s.turnSeq, text, Initial, None, None, None, Opening)))
  }

  /** Tasks started outside the pipeline are not cancelled with it. */
  predicate OutlivesClose(t: Task) {
    match t
    case Queued(p) => p.origin.Opening?
    case Speaking(p, _) => p.origin.Opening?
    case ResumeQueued => true
    case ResumeSpeaking => true
    case RespeakQueued(_) => true
    case RespeakSpeaking(_, _) => true
    case _ => false
  }

  function OnClose(s: State): State {
    if s.closed then s else
    var left := map id | id in s.tasks && OutlivesClose(s.tasks[id]) :: s.tasks[id];
    s.(closed := true, turnSeq := s.turnSeq + 1, tasks := left,
       speech := if s.speech.Some? && s.speech.value in left then s.speech else None)
  }

  // ------------------------------------------------------------------ task segments

  function StartSegment(s: State, id: nat, turn: nat, x: Input): State {
    if Forced(Said(s), s.maxFollowUps)
    then Decided(s, id, turn, Said(s), x.wrapUp, SafeDecision(x.wrapUp, FORCED), x)
    else Put(s, id, Deciding(turn, Said(s), x.wrapUp))
  }

  function DecidingSegment(s: State, id: nat, turn: nat, basis: seq<Utterance>, wrapUp: bool, x: Input): State {
    var d := if x.failed then SafeDecision(wrapUp, FORCED) else Decide(Said(s), wrapUp, x.reply);
    Decided(s, id, turn, basis, wrapUp, d, x)
  }

  /** The rest of the segment in which a decision arrives. */
  function Decided(s: State, id: nat, turn: nat, basis: seq<Utterance>, wrapUp: bool, d: Decision, x: Input): State {
    if Stale(s, turn) then Remove(s, id)
    else if d.action == END then
      BeginClosing(Remove(s, id), LLM_END, if d.source == ORCHESTRATOR then d.reason else None)
    else if d.action == Action.FINAL_QUESTION then
      Put(s, id, Queued(Plan(turn, x.text, Final, None,
                             if d.source == ORCHESTRATOR then d.reason else None, None,
                             Asked(basis, wrapUp, d))))
    else Put(s, id, Generating(turn, Asked(basis, wrapUp, d)))
  }

  /** What a generated wording becomes; a fallback question opens a topic and carries no reason. */
  function PlanFor(turn: nat, o: Origin, x: Input): Plan
    requires o.Asked?
  {
    var d := o.decision;
    var fallback := x.failed || x.fallback;
    var followUp := d.action == FOLLOW_UP && !fallback;
    Plan(turn, x.text,
         if followUp then FollowUp else Topic,
         if followUp then d.followUpType else None,
         if d.source == ORCHESTRATOR && !fallback then d.reason else None,
         if followUp then d.ref else None,
         o)
  }

  function GeneratingSegment(s: State, id: nat, turn: nat, o: Origin, x: Input): State
    requires o.Asked?
  {
    if Stale(s, turn) then Remove(s, id) else Put(s, id, Queued(PlanFor(turn, o, x)))
  }

  function QueuedSegment(s: State, id: nat, p: Plan): State {
    if s.speech.Some? then s
    else if Stale(s, p.turn) then Remove(s, id)
    else Acquire(s, id, Speaking(p, false))
  }

  function SpeakingSegment(s: State, id: nat, p: Plan, retried: bool, x: Input): State {
    if x.ok then Commit(Finish(s, id), p, x)
    else if !retried then
      if Stale(s, p.turn) then Finish(s, id) else Put(s, id, Speaking(p, true))
    else if p.kind == Final then BeginClosing(Finish(s, id), EndCause.FINAL_QUESTION, None)
    else Finish(s, id).(shutdowns := s.shutdowns + 1, excused := true)
  }

  function DraftOf(s: State, p: Plan, x: Input): QuestionDraft {
    var number := LastNumber(s.log) + 1;
    var root := CurrentRoot(Said(s));
    QuestionDraft(
      number, if p.kind == FollowUp && root.Some? then root.value else number, p.kind, p.text,
      Utc(if x.startedAt.Some? then Min(x.startedAt.value, s.clock) else s.clock),
      p.followUpType, p.reason, p.ref)
  }

  /** After playout: the question is committed unless the turn moved on or nobody heard it. */
  function Commit(s: State, p: Plan, x: Input): State {
    if s.closed || p.turn != s.turnSeq || !x.present
    then s.(excused := s.excused || (p.turn == s.turnSeq && !x.present))
    else
      var r := CheckQuestion(s.log, DraftOf(s, p, x));
      var s := Append(s, r, p.origin);
      if p.kind == Final && r.Ok?
      then s.(end := Advanced(s.end, Request(WAITING_FINAL_ANSWER, None)))
      else s
  }

  function ClosingStartSegment(s: State, id: nat): State {
    if s.end.cause.None? then Remove(s, id)
    else Put(s, id, Marking(s.end.cause.value)).(markers := s.markers + [s.end.cause.value])
  }

  function MarkingSegment(s: State, id: nat, cause: EndCause, x: Input): State {
    if cause == RECONNECT_TIMEOUT || cause == RECOVERED_CLOSING || !x.present
    then StartCleanup(s, id, cause)
    else Put(s, id, ClosingQueued(cause, x.text))
  }

  function StartCleanup(s: State, id: nat, cause: EndCause): State {
    Put(s, id, Cleaning(cause)).(
      end := Advanced(s.end, Request(CLEANING, None)), cleanups := s.cleanups + [cause])
  }

  function ClosingSpeakingSegment(s: State, id: nat, cause: EndCause, text: Spoken, retried: bool, x: Input): State {
    if x.ok then
      var at := if x.startedAt.Some? then Min(x.startedAt.value, s.clock) else s.clock;
      var r := CheckClosing(text, Utc(at), s.closingReason);
      StartCleanup(Append(s.(speech := None), r, Farewell), id, cause)
    else if !retried then Put(s, id, ClosingSpeaking(cause, text, true))
    else StartCleanup(s.(speech := None), id, cause)
  }

  /** After the notice: say an unanswered question again, or go on from an answer. */
  function ResumeSpeakingSegment(s: State, id: nat): State {
    var us := Said(s);
    if us == [] then Finish(s, id)
    else if IsQuestion(us[|us| - 1]) then Put(s.(speech := None), id, RespeakQueued(us[|us| - 1].content))
    else NextTurn(Finish(s, id))
  }

  function RespeakSpeakingSegment(s: State, id: nat, text: string, retried: bool, x: Input): State {
    if x.ok then Finish(s, id)
    else if retried then Finish(s, id).(shutdowns := s.shutdowns + 1, excused := true)
    else if Ending(s) then Finish(s, id)
    else Put(s, id, RespeakSpeaking(text, true))
  }

  function Segment(s: State, id: nat, x: Input): State
    requires id in s.tasks
  {
    match s.tasks[id]
    case Start(turn) => StartSegment(s, id, turn, x)
    case Deciding(turn, basis, wrapUp) => DecidingSegment(s, id, turn, basis, wrapUp, x)
    case Generating(turn, o) => if o.Asked? then GeneratingSegment(s, id, turn, o, x) else Remove(s, id)
    case Queued(p) => QueuedSegment(s, id, p)
    case Speaking(p, retried) => SpeakingSegment(s, id, p, retried, x)
    case ClosingStart => ClosingStartSegment(s, id)
    case Marking(cause) => MarkingSegment(s, id, cause, x)
    case ClosingQueued(cause, text) =>
      if s.speech.Some? then s else Acquire(s, id, ClosingSpeaking(cause, text, false))
    case ClosingSpeaking(cause, text, retried) => ClosingSpeakingSegment(s, id, cause, text, retried, x)
    case Cleaning(_) => Remove(s, id).(shutdowns := s.shutdowns + (if x.failed then 1 else 0))
    case ResumeQueued =>
      if s.speech.Some? then s else if Ending(s) then Remove(s, id) else Acquire(s, id, ResumeSpeaking)
    case ResumeSpeaking => ResumeSpeakingSegment(s, id)
    case RespeakQueued(text) =>
      if s.speech.Some? then s else if Ending(s) then Remove(s, id) else Acquire(s, id, RespeakSpeaking(text, false))
    case RespeakSpeaking(text, retried) => RespeakSpeakingSegment(s, id, text, retried, x)
  }

  // ------------------------------------------------------------------ runs

  /** One atomic step; an event that is not possible leaves the state as it is. */
  function Step(s: State, e: Event): State {
    match e
    case UserTurn(text, now, present, beforeBoundary) => OnUserTurn(Tick(s, now), text, present, beforeBoundary)
    case Depart => s.(turnSeq := s.turnSeq + 1, excused := true)
    case Resume => if Ending(s) then s else Spawn(s, ResumeQueued)
    case RequestClosing(cause) => BeginClosing(s, cause, None)
    case SpeakInitial(text) => OnSpeakInitial(s, text)
    case RunTask(id, x) => if id in s.tasks then Segment(Tick(s, x.now), id, x) else s
    case Close => OnClose(s)
  }

  function Exec(s: State, es: seq<Event>): State {
    if es == [] then s else Step(Exec(s, es[..|es| - 1]), es[|es| - 1])
  }

  /** A session that starts on a log: a fresh one, or one rebuilt after a crash. */
  function Begin(log: Log, end: End, maxFollowUps: nat, now: int): State {
    State(maxFollowUps, |log.utterances|, log, seq(|log.utterances|, _ => Recovered), end, None, 0, false,
          map[], 0, None, now, None, [], [], 0, false, true)
  }
}
