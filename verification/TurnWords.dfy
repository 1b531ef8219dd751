/** Words: what enters the log is what was said, and what is said is a wording that was given. */
module TurnWords {
  import opened Wrappers
  import opened Utterances
  import opened Conversation
  import opened Orchestrator
  import opened TurnProtocol
  import opened TurnInvariant
  import opened TurnTheorems

  // ------------------------------------------------------------------ one step

  /** When a playout that started earlier is committed, its time is the start. */
  function SpokenAt(x: Input, clock: int): Time {
    Utc(if x.startedAt.Some? && x.startedAt.value <= clock then x.startedAt.value else clock)
  }

  /** What a step may add to the log: the text of a finished user turn as an answer, stamped now; the
      text of a question that has just been spoken, stamped with the start of its playout, with the
      reason, type and reference it was planned with; or the text of a closing that has just been
      spoken, with the reason the closing was begun for. The candidate was there, and the playout
      succeeded. */
  ghost predicate Says(s: State, e: Event, u: Utterance, clock: int) {
    match e
    case UserTurn(text, _, present, beforeBoundary) =>
      !Ending(s) && present && !beforeBoundary && IsAnswer(u) && u.content == text && u.spokenAt == Utc(clock)
    case RunTask(id, x) =>
      && id in s.tasks && x.ok && u.spokenAt == SpokenAt(x, clock)
      && (match s.tasks[id]
          case Speaking(p, _) =>
            && x.present && p.turn == s.turnSeq && !s.closed
            && u.speaker == Interviewer && u.content == p.text && u.questionType == Some(p.kind)
            && u.reason == p.reason && u.followUpType == p.followUpType && u.ref == p.ref
          case ClosingSpeaking(_, text, _) =>
            IsClosing(u) && u.content == text && u.reason == s.closingReason
          case _ => false)
    case _ => false
  }

  /** The log got longer by one utterance. */
  ghost predicate Added(s: State, t: State) {
    |Said(t)| == |Said(s)| + 1 && Said(t)[..|Said(s)|] == Said(s)
  }

  function Last(t: State): Utterance
    requires Said(t) != []
  {
    Said(t)[|Said(t)| - 1]
  }

  lemma CommitSays(s: State, p: Plan, x: Input)
    requires Said(Commit(s, p, x)) != Said(s)
    ensures !s.closed && p.turn == s.turnSeq && x.present
    ensures Said(Commit(s, p, x)) == Said(s) + [QuestionOf(DraftOf(s, p, x))]
  {
  }

  lemma DecidedSaysNothing(s: State, id: nat, turn: nat, basis: seq<Utterance>, wrapUp: bool, d: Decision, x: Input)
    ensures Said(Decided(s, id, turn, basis, wrapUp, d, x)) == Said(s)
  {
  }

  lemma TurnSegmentSays(s: State, id: nat, x: Input)
    requires id in s.tasks && TurnOf(s.tasks[id]).Some? && Said(Segment(s, id, x)) != Said(s)
    ensures s.tasks[id].Speaking? && x.ok
    ensures Said(Segment(s, id, x)) == Said(Commit(Finish(s, id), s.tasks[id].plan, x))
  {
    match s.tasks[id]
    case Start(turn) => DecidedSaysNothing(s, id, turn, Said(s), x.wrapUp, SafeDecision(x.wrapUp, FORCED), x);
    case Deciding(turn, basis, wrapUp) =>
      DecidedSaysNothing(s, id, turn, basis, wrapUp,
                         if x.failed then SafeDecision(wrapUp, FORCED) else Decide(Said(s), wrapUp, x.reply), x);
    case _ =>
  }

  lemma OtherSegmentSays(s: State, id: nat, x: Input)
    requires id in s.tasks && TurnOf(s.tasks[id]).None? && Said(Segment(s, id, x)) != Said(s)
    ensures s.tasks[id].ClosingSpeaking? && x.ok
    ensures var at := if x.startedAt.Some? then Min(x.startedAt.value, s.clock) else s.clock;
            var r := CheckClosing(s.tasks[id].text, Utc(at), s.closingReason);
            r.Ok? && Said(Segment(s, id, x)) == Said(s) + [r.value]
  {
    if s.tasks[id].ClosingSpeaking? && x.ok { ClosingSaid(s, id, x); }
  }

  lemma ClosingSaid(s: State, id: nat, x: Input)
    requires id in s.tasks && s.tasks[id].ClosingSpeaking? && x.ok
    ensures var at := if x.startedAt.Some? then Min(x.startedAt.value, s.clock) else s.clock;
            var r := CheckClosing(s.tasks[id].text, Utc(at), s.closingReason);
            r.Ok? && Said(Segment(s, id, x)) == Said(s) + [r.value]
  {
  }

  lemma SegmentSays(s: State, id: nat, x: Input)
    requires id in s.tasks && Said(Segment(s, id, x)) != Said(s)
    ensures Added(s, Segment(s, id, x)) && Says(s, RunTask(id, x), Last(Segment(s, id, x)), s.clock)
  {
    if TurnOf(s.tasks[id]).Some? {
      TurnSegmentSays(s, id, x);
      CommitSays(Finish(s, id), s.tasks[id].plan, x);
    } else {
      OtherSegmentSays(s, id, x);
    }
  }

  lemma UserTurnSays(s: State, text: string, present: bool, beforeBoundary: bool)
    requires Said(OnUserTurn(s, text, present, beforeBoundary)) != Said(s)
    ensures present && !beforeBoundary && !Ending(s)
    ensures var t := OnUserTurn(s, text, present, beforeBoundary);
            Added(s, t) && IsAnswer(Last(t)) && Last(t).content == text && Last(t).spokenAt == Utc(s.clock)
  {
    var r := CheckAnswer(s.log, text, Utc(s.clock));
    assert r.Ok? && Said(OnUserTurn(s, text, present, beforeBoundary)) == Said(s) + [r.value];
  }

  function ClockAt(s: State, e: Event): int {
    match e
    case UserTurn(_, now, _, _) => Max(s.clock, now)
    case RunTask(_, x) => Max(s.clock, x.now)
    case _ => s.clock
  }

  /** Every step that lengthens the log adds exactly what was said. */
  lemma StepSays(s: State, e: Event)
    requires Said(Step(s, e)) != Said(s)
    ensures Added(s, Step(s, e)) && Says(s, e, Last(Step(s, e)), ClockAt(s, e))
  {
    match e
    case UserTurn(text, now, present, beforeBoundary) => UserTurnSays(Tick(s, now), text, present, beforeBoundary);
    case RunTask(id, x) => if id in s.tasks { SegmentSays(Tick(s, x.now), id, x); }
    case _ =>
  }

  // ------------------------------------------------------------------ every session

  /** A log that grows by at most one at a time got its element i in some step. */
  lemma {:induction false} WhenItGrew<T>(logs: seq<seq<T>>, i: nat) returns (n: nat)
    requires logs != [] && |logs[0]| <= i < |logs[|logs| - 1]|
    requires forall j | 0 <= j < |logs| - 1 :: logs[j] <= logs[j + 1] && |logs[j + 1]| <= |logs[j]| + 1
    ensures n + 1 < |logs|
    ensures logs[n] == logs[|logs| - 1][..i] && logs[n + 1] == logs[|logs| - 1][..i + 1]
  {
    var m := |logs| - 2;
    assert logs[m] <= logs[m + 1];
    if i < |logs[m]| {
      n := WhenItGrew(logs[..m + 1], i);
    } else {
      n := m;
    }
  }

  /** The log after each event. */
  function Logs(s: State, es: seq<Event>): (logs: seq<seq<Utterance>>)
    ensures |logs| == |es| + 1
  {
    seq(|es| + 1, j requires 0 <= j <= |es| => Said(Exec(s, es[..j])))
  }

  lemma ExecNext(s: State, es: seq<Event>, j: nat)
    requires j < |es|
    ensures Exec(s, es[..j + 1]) == Step(Exec(s, es[..j]), es[j])
  {
    assert es[..j + 1][..j] == es[..j];
  }

  lemma LogsGrow(s: State, es: seq<Event>, j: nat)
    requires j < |es|
    ensures Logs(s, es)[j] <= Logs(s, es)[j + 1] && |Logs(s, es)[j + 1]| <= |Logs(s, es)[j]| + 1
  {
    ExecNext(s, es, j);
    StepGrows(Exec(s, es[..j]), es[j]);
  }

  lemma StepGrows(s: State, e: Event)
    ensures Said(s) <= Said(Step(s, e)) && |Said(Step(s, e))| <= |Said(s)| + 1
  {
    if Said(Step(s, e)) != Said(s) { StepSays(s, e); }
  }

  lemma FoundStep(s: State, es: seq<Event>, i: nat) returns (n: nat)
    requires |Said(s)| <= i < |Said(Exec(s, es))|
    ensures n < |es| && Said(Exec(s, es[..n])) == Said(Exec(s, es))[..i]
    ensures Said(Exec(s, es[..n + 1])) == Said(Exec(s, es))[..i + 1]
  {
    var logs := Logs(s, es);
    forall j | 0 <= j < |es|
      ensures logs[j] <= logs[j + 1] && |logs[j + 1]| <= |logs[j]| + 1
    {
      LogsGrow(s, es, j);
    }
    assert es[..0] == [] && es[..|es|] == es;
    n := WhenItGrew(logs, i);
  }

  lemma StepSaid(s: State, e: Event, us: seq<Utterance>, i: nat)
    requires i < |us| && Said(s) == us[..i] && Said(Step(s, e)) == us[..i + 1]
    ensures Says(s, e, us[i], ClockAt(s, e))
  {
    StepSays(s, e);
  }

  /** Every utterance of a run was said by one event, on exactly the log before it. */
  lemma RunSays(s: State, es: seq<Event>, i: nat) returns (n: nat)
    requires |Said(s)| <= i < |Said(Exec(s, es))|
    ensures n < |es| && Said(Exec(s, es[..n])) == Said(Exec(s, es))[..i]
    ensures Says(Exec(s, es[..n]), es[n], Said(Exec(s, es))[i], ClockAt(Exec(s, es[..n]), es[n]))
  {
    n := FoundStep(s, es, i);
    ExecNext(s, es, n);
    StepSaid(Exec(s, es[..n]), es[n], Said(Exec(s, es)), i);
  }

  /** Whatever log a session starts on and however it runs: every utterance it adds was added by one
      step, on exactly the log before it, and reads as what was said in that step. */
  lemma EverythingWasSaid(l: Log, maxFollowUps: nat, now: int, es: seq<Event>, i: nat) returns (n: nat)
    requires |l.utterances| <= i < |Said(Session(l, maxFollowUps, now, es))|
    ensures n < |es|
    ensures var us := Said(Session(l, maxFollowUps, now, es));
            var b := Session(l, maxFollowUps, now, es[..n]);
            Said(b) == us[..i] && Says(b, es[n], us[i], ClockAt(b, es[n]))
  {
    StartSaid(l, maxFollowUps, now);
    n := RunSays(SessionStart(l, maxFollowUps, now), es, i);
  }

  lemma StartSaid(l: Log, maxFollowUps: nat, now: int)
    ensures Said(SessionStart(l, maxFollowUps, now)) == l.utterances
  {
  }
}
