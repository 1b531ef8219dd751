/** What holds of every session of the turn pipeline, fresh or rebuilt, in every interleaving. */
module TurnTheorems {
  import opened Wrappers
  import opened Utterances
  import opened Conversation
  import opened EndStates
  import opened Orchestrator
  import opened TurnProtocol
  import opened TurnInvariant
  import opened TurnSafety
  import opened TurnFrame
  import opened Subsequences
  import opened Restore

  // ------------------------------------------------------------------ how sessions start

  /** The log of a real session, or what a copy with gaps kept of one. */
  ghost predicate GoodLog(l: Log) {
    WellFormed(l.utterances) && Bounded(l)
  }

  /** From where on the log of a session is sound: all of it, if the session starts on a good log;
      everything it adds itself, whatever it starts on. */
  ghost predicate SoundFrom(l: Log, base: nat) {
    Startable(l) && (base == |l.utterances| || (base == 0 && GoodLog(l)))
  }

  /** A session may start on whatever a copy holds, polluted or not: reconstruction keeps what parses. */
  lemma {:induction false} ParsedIsValid(items: seq<Dict>)
    ensures forall u | u in Parsed(items) :: Valid(u)
  {
    if items != [] { ParsedIsValid(items[..|items| - 1]); }
  }

  lemma AnyRebuiltLogIsStartable(items: seq<Dict>)
    ensures Startable(RebuiltLog(items))
  {
    ParsedIsValid(items);
  }

  lemma GoodIsSound(l: Log)
    requires GoodLog(l)
    ensures SoundFrom(l, 0) && SoundFrom(l, |l.utterances|)
  {
    WellFormedValid(l.utterances);
  }

  /** The state in which the first event finds a session. A log that ends with its closing gets no
      pipeline; one whose final question is answered goes straight to closing. */
  function SessionStart(l: Log, maxFollowUps: nat, now: int): State {
    match DeriveMode(l.utterances).0
    case ResumeRunning => Begin(l, End(RUNNING, None), maxFollowUps, now)
    case ResumeWaitingFinalAnswer => Begin(l, End(WAITING_FINAL_ANSWER, None), maxFollowUps, now)
    case CloseFinalAnswered =>
      BeginClosing(Begin(l, End(RUNNING, None), maxFollowUps, now), EndCause.FINAL_QUESTION, None)
    case CloseRecovered =>
      Begin(l, End(CLEANING, Some(RECOVERED_CLOSING)), maxFollowUps, now).(closed := true)
  }

  function Session(l: Log, maxFollowUps: nat, now: int, es: seq<Event>): State {
    Exec(SessionStart(l, maxFollowUps, now), es)
  }

  lemma RecoveredOrigins(l: Log, maxFollowUps: nat)
    ensures OriginsInv(l, seq(|l.utterances|, _ => Recovered), |l.utterances|, maxFollowUps)
  {
  }

  lemma BeginOrigins(l: Log, maxFollowUps: nat, now: int)
    ensures var s := SessionStart(l, maxFollowUps, now);
            OriginsInv(s.log, s.origins, s.kept, s.maxFollowUps) && s.log == l && s.kept == |l.utterances|
  {
    RecoveredOrigins(l, maxFollowUps);
    assert SessionStart(l, maxFollowUps, now).origins == Begin(l, End(RUNNING, None), maxFollowUps, now).origins;
  }

  lemma NoTasksInv(s: State, base: nat)
    requires s.tasks == map[] && s.speech.None? && s.initialTurn.None?
    ensures TaskInv(s, base)
  {
  }

  lemma SessionStartTasks(l: Log, maxFollowUps: nat, now: int, base: nat)
    ensures TaskInv(SessionStart(l, maxFollowUps, now), base)
  {
    var s := SessionStart(l, maxFollowUps, now);
    if DeriveMode(l.utterances).0 == CloseFinalAnswered {
      var b := Begin(l, End(CLOSING, Some(EndCause.FINAL_QUESTION)), maxFollowUps, now);
      NoTasksInv(b, base);
      SpawnKeepsTasks(b, ClosingStart, base);
    } else {
      NoTasksInv(s, base);
    }
  }

  lemma SessionStartInv(l: Log, maxFollowUps: nat, now: int, base: nat)
    requires SoundFrom(l, base)
    ensures Inv(SessionStart(l, maxFollowUps, now), base)
  {
    SessionStartTasks(l, maxFollowUps, now, base);
    SessionStartData(l, maxFollowUps, now, base);
    SessionStartEnd(l, maxFollowUps, now);
  }

  function StartEnd(m: ResumeMode): End {
    match m
    case ResumeRunning => End(RUNNING, None)
    case ResumeWaitingFinalAnswer => End(WAITING_FINAL_ANSWER, None)
    case CloseFinalAnswered => End(CLOSING, Some(EndCause.FINAL_QUESTION))
    case CloseRecovered => End(CLEANING, Some(RECOVERED_CLOSING))
  }

  lemma SessionStartEnd(l: Log, maxFollowUps: nat, now: int)
    ensures var s := SessionStart(l, maxFollowUps, now);
            && s.log == l && !s.raised && SilenceInv(s)
            && EndingOf(s) == EndRecord(StartEnd(DeriveMode(l.utterances).0), [], [])
  {
  }

  lemma SessionStartData(l: Log, maxFollowUps: nat, now: int, base: nat)
    requires SoundFrom(l, base)
    ensures DataInv(SessionStart(l, maxFollowUps, now), base)
  {
    BeginOrigins(l, maxFollowUps, now);
    SessionStartEnd(l, maxFollowUps, now);
    SoundLog(l, base);
    SoundPhase(l, base);
  }

  lemma SoundLog(l: Log, base: nat)
    requires SoundFrom(l, base)
    ensures LogInv(l, base)
  {
    if base == |l.utterances| {
      assert From(l.utterances, base) == [];
    } else {
      WellFormedMeans(l.utterances);
      assert From(l.utterances, base) == l.utterances;
    }
  }

  /** The derived mode agrees with what the log says of its ending. */
  lemma SoundPhase(l: Log, base: nat)
    requires SoundFrom(l, base)
    ensures var e := EndRecord(StartEnd(DeriveMode(l.utterances).0), [], []);
            FinalInv(l.utterances, e.end.phase, base) && EndingInv(e, HasClosing(From(l.utterances, base)))
  {
    if base == |l.utterances| {
      assert From(l.utterances, base) == [];
    } else {
      ModeIsStructural(l.utterances);
      assert From(l.utterances, base) == l.utterances;
    }
  }

  lemma SessionInv(l: Log, maxFollowUps: nat, now: int, es: seq<Event>, base: nat)
    requires SoundFrom(l, base)
    ensures Inv(Session(l, maxFollowUps, now, es), base)
  {
    SessionStartInv(l, maxFollowUps, now, base);
    RunKeeps(SessionStart(l, maxFollowUps, now), es, base);
  }

  /** What a session adds to any log it may start on. */
  lemma AnySessionInv(l: Log, maxFollowUps: nat, now: int, es: seq<Event>)
    requires Startable(l)
    ensures Inv(Session(l, maxFollowUps, now, es), |l.utterances|)
  {
    SessionInv(l, maxFollowUps, now, es, |l.utterances|);
  }

  /** A session that starts on a good log keeps it good. */
  lemma GoodSession(l: Log, maxFollowUps: nat, now: int, es: seq<Event>)
    requires GoodLog(l)
    ensures var s := Session(l, maxFollowUps, now, es);
            && Inv(s, 0) && GoodLog(s.log)
            && FinalInv(Said(s), s.end.phase, 0) && From(Said(s), 0) == Said(s)
  {
    GoodIsSound(l);
    SessionInv(l, maxFollowUps, now, es, 0);
    assert From(Said(Session(l, maxFollowUps, now, es)), 0) == Said(Session(l, maxFollowUps, now, es));
  }

  lemma SessionFrame(l: Log, maxFollowUps: nat, now: int, es: seq<Event>)
    ensures var s := Session(l, maxFollowUps, now, es);
            && s.maxFollowUps == maxFollowUps && s.kept == |l.utterances| && s.log.floor == l.floor
            && l.utterances <= Said(s)
  {
    BeginOrigins(l, maxFollowUps, now);
    RunFrame(SessionStart(l, maxFollowUps, now), es);
  }

  // ------------------------------------------------------------------ decided on its prefix

  /** Nothing enters the log between the decision for a question and its append: whatever log a
      session starts on, every question it commits was decided on exactly the log before it, and
      lawfully so. */
  lemma DecidedOnItsPrefix(l: Log, maxFollowUps: nat, now: int, es: seq<Event>, i: nat)
    requires Startable(l)
    requires |l.utterances| <= i < |Said(Session(l, maxFollowUps, now, es))|
    requires IsQuestion(Said(Session(l, maxFollowUps, now, es))[i])
    ensures var s := Session(l, maxFollowUps, now, es);
            && |s.origins| == |Said(s)|
            && (match s.origins[i]
                case Opening => i == 0
                case Asked(basis, wrapUp, d) => basis == Said(s)[..i] && Legal(basis, s.maxFollowUps, wrapUp, d)
                case _ => false)
  {
    AnySessionInv(l, maxFollowUps, now, es);
    SessionFrame(l, maxFollowUps, now, es);
    var s := Session(l, maxFollowUps, now, es);
    assert OriginAt(s.log, s.origins, i, s.maxFollowUps);
    assert Said(s)[i] in Said(s);
  }

  /** Once the end phase reaches CLOSING, no event adds an answer any more. */
  lemma NoAnswerOnceClosing(s: State, e: Event)
    requires Rank(s.end.phase) >= Rank(CLOSING)
    ensures Said(Step(s, e)) != Said(s) ==>
              |Said(Step(s, e))| == |Said(s)| + 1 && !IsAnswer(Said(Step(s, e))[|Said(s)|])
  {
    StepFollows(s, e);
  }

  // ------------------------------------------------------------------ numbering

  /** Whatever log a session starts on, no append at a commit point is ever refused, and each new
      question's number is one more than the largest number the session has seen. */
  lemma NumberingNeverFails(l: Log, maxFollowUps: nat, now: int, es: seq<Event>, i: nat)
    requires Startable(l)
    requires |l.utterances| <= i < |Said(Session(l, maxFollowUps, now, es))|
    requires IsQuestion(Said(Session(l, maxFollowUps, now, es))[i])
    ensures var s := Session(l, maxFollowUps, now, es);
            && !s.raised
            && Said(s)[i].questionNumber == Some(LastNumber(Before(s.log, i)) + 1)
            && forall j | 0 <= j < i && Said(s)[j].questionNumber.Some? ::
                 Said(s)[j].questionNumber.value < Said(s)[i].questionNumber.value
  {
    var s := Session(l, maxFollowUps, now, es);
    AnySessionNumbers(l, maxFollowUps, now, es);
    CommittedNumber(s.log, s.origins, s.kept, s.maxFollowUps, i);
  }

  lemma AnySessionNumbers(l: Log, maxFollowUps: nat, now: int, es: seq<Event>)
    requires Startable(l)
    ensures var s := Session(l, maxFollowUps, now, es);
            && !s.raised && s.kept == |l.utterances| && Startable(s.log) && Growing(Said(s), s.kept)
            && OriginsInv(s.log, s.origins, s.kept, s.maxFollowUps)
  {
    AnySessionInv(l, maxFollowUps, now, es);
    SessionFrame(l, maxFollowUps, now, es);
  }

  lemma CommittedNumber(l: Log, os: seq<Origin>, kept: nat, m: nat, i: nat)
    requires Startable(l) && Growing(l.utterances, kept) && OriginsInv(l, os, kept, m)
    requires kept <= i < |l.utterances| && IsQuestion(l.utterances[i])
    ensures l.utterances[i].questionNumber == Some(LastNumber(Before(l, i)) + 1)
    ensures forall j | 0 <= j < i && l.utterances[j].questionNumber.Some? ::
              l.utterances[j].questionNumber.value < l.utterances[i].questionNumber.value
  {
    assert l.utterances[i] in l.utterances;
    assert OriginAt(l, os, i, m);
  }

  /** Taking an answer fails on exactly the rebuilt logs that kept numbers but no question. */
  lemma AnswerRefusedIff(l: Log, text: string, at: int)
    requires Startable(l) && text != "" && LastNumber(l) != 0
    ensures CheckAnswer(l, text, Utc(at)).Err? <==> forall u | u in l.utterances :: !IsQuestion(u)
    ensures (forall u | u in l.utterances :: !IsQuestion(u)) ==> l.floor > 0
  {
    AnswerAccepted(l, text, at);
  }

  /** Such a log: the only thing the copy kept is an answer. */
  lemma AnswerRefusedExample(at: int)
    ensures var a := Utterance(Some(1), Some(1), Candidate, "yes", Utc(at), None, None, None, None);
            var l := RebuiltLog([ToJson(a)]);
            GoodLog(l) && l.utterances == [Stored(a)] && LastNumber(l) != 0
            && CheckAnswer(l, "again", Utc(at)) == Err(NoQuestion)
  {
    var a := Utterance(Some(1), Some(1), Candidate, "yes", Utc(at), None, None, None, None);
    OneIsStored(a);
    LoneAnswer(Stored(a), "again", at);
  }

  lemma LoneAnswer(a: Utterance, text: string, at: int)
    requires Valid(a) && IsAnswer(a) && a.questionNumber == Some(1)
    ensures var l := Log([a], LargestNumber([a]));
            GoodLog(l) && LastNumber(l) != 0 && CheckAnswer(l, text, Utc(at)) == Err(NoQuestion)
  {
    assert [a][..0] == [] && [] + [a] == [a];
    WellFormedAppend([], a);
    LastQuestionAppend([], a);
  }

  // ------------------------------------------------------------------ how sessions end

  /** How a log may end: at most one closing, and it is last; at most one final question, it is the
      last question and gets at most one answer. */
  ghost predicate EndsWell(us: seq<Utterance>) {
    && (forall i | 0 <= i < |us| && IsClosing(us[i]) :: i == |us| - 1)
    && (forall i, j | 0 <= i < j < |us| && IsFinal(us[i]) && (IsQuestion(us[j]) || IsFinal(us[j])) :: false)
    && (forall i, j | 0 <= i < j < |us| && IsFinal(us[i]) && IsAnswer(us[j]) ::
          j == i + 1 && us[j].questionNumber == us[i].questionNumber)
  }

  /** A session ends once: its log ends well, all of it on a good log and its own part on any other,
      and marker and cleanup happen at most once, with the cause that won. */
  lemma EndsOnce(l: Log, maxFollowUps: nat, now: int, es: seq<Event>)
    requires Startable(l)
    ensures var s := Session(l, maxFollowUps, now, es);
            && l.utterances <= Said(s) && EndsWell(Said(s)[|l.utterances|..])
            && (GoodLog(l) ==> EndsWell(Said(s)))
            && |s.markers| <= 1 && |s.cleanups| <= 1
            && (forall c | c in s.markers + s.cleanups :: s.end.cause == Some(c))
  {
    var s := Session(l, maxFollowUps, now, es);
    AnySessionInv(l, maxFollowUps, now, es);
    SessionFrame(l, maxFollowUps, now, es);
    WellFormedMeans(From(Said(s), |l.utterances|));
    if GoodLog(l) {
      GoodSession(l, maxFollowUps, now, es);
      WellFormedMeans(Said(s));
    }
  }

  /** No turn ends in silence: while the interview runs, an answered turn that was not invalidated
      by a departure, dropped for lack of a listener or lost to the speech engine has a live task. */
  lemma NoSilentTurn(l: Log, maxFollowUps: nat, now: int, es: seq<Event>)
    requires Startable(l)
    ensures var s := Session(l, maxFollowUps, now, es);
            !s.closed && s.end.phase == RUNNING && !s.excused && Said(s) != [] && IsAnswer(Said(s)[|Said(s)| - 1])
            ==> exists id :: id in s.tasks && TurnOf(s.tasks[id]) == Some(s.turnSeq)
  {
    AnySessionInv(l, maxFollowUps, now, es);
  }

  // ------------------------------------------------------------------ crash and recovery

  function ModeOf(p: EndPhase): ResumeMode
    requires Rank(p) < Rank(CLOSING)
  {
    if p == RUNNING then ResumeRunning else ResumeWaitingFinalAnswer
  }

  /** With an intact copy a new job finds the phase the old one was in; with any gaps it finds a
      mode that is not further along, and a log it may start on. */
  lemma RecoveryRefinesLivePhase(l: Log, maxFollowUps: nat, now: int, es: seq<Event>, items: seq<Dict>)
    requires GoodLog(l)
    requires Sub(items, Map(ToJson, Said(Session(l, maxFollowUps, now, es))))
    ensures var s := Session(l, maxFollowUps, now, es);
            var copy := Map(ToJson, Said(s));
            && (Rank(s.end.phase) < Rank(CLOSING) ==> DeriveMode(RebuiltLog(copy).utterances).0 == ModeOf(s.end.phase))
            && ModeRank(DeriveMode(RebuiltLog(items).utterances).0) <= ModeRank(DeriveMode(RebuiltLog(copy).utterances).0)
            && GoodLog(RebuiltLog(items))
  {
    var s := Session(l, maxFollowUps, now, es);
    GoodSession(l, maxFollowUps, now, es);
    CopyHasMode(Said(s), items);
    if Rank(s.end.phase) < Rank(CLOSING) { PhaseIsMode(Said(s), EndingOf(s)); }
  }

  /** Before closing, the log tells the phase. */
  lemma PhaseIsMode(us: seq<Utterance>, e: EndRecord)
    requires FinalInv(us, e.end.phase, 0) && EndingInv(e, HasClosing(From(us, 0))) && Rank(e.end.phase) < Rank(CLOSING)
    ensures StructuralMode(us) == ModeOf(e.end.phase)
  {
    assert From(us, 0) == us;
    if e.end.phase == WAITING_FINAL_ANSWER { assert us[|us| - 1] in us; }
  }

  lemma CopyHasMode(us: seq<Utterance>, items: seq<Dict>)
    requires WellFormed(us) && Sub(items, Map(ToJson, us))
    ensures DeriveMode(RebuiltLog(Map(ToJson, us)).utterances).0 == StructuralMode(us)
    ensures ModeRank(DeriveMode(RebuiltLog(items).utterances).0) <= ModeRank(StructuralMode(us))
    ensures GoodLog(RebuiltLog(items))
  {
    WellFormedValid(us);
    ParsedIsStored(Map(ToJson, us), us);
    StoredKeepsMode(us);
    ModeIsStructural(us);
    RebuiltIsSound(items, us);
  }

  /** One life of a session: what it found in the copy, and what happened until it crashed. */
  datatype Life = Life(items: seq<Dict>, maxFollowUps: nat, now: int, events: seq<Event>)

  function LogOf(v: Life): seq<Utterance> {
    Said(Session(RebuiltLog(v.items), v.maxFollowUps, v.now, v.events))
  }

  /** Each life starts on what the lossy copy kept of the one before; the first one on nothing. */
  ghost predicate Lineage(vs: seq<Life>) {
    && (vs != [] ==> vs[0].items == [])
    && forall i | 0 < i < |vs| :: Sub(vs[i].items, Map(ToJson, LogOf(vs[i - 1])))
  }

  /** However often a session crashes and whatever its copies lose, every life keeps the structure. */
  lemma {:induction false} EveryLifeIsSound(vs: seq<Life>, n: nat)
    requires Lineage(vs) && n < |vs|
    ensures GoodLog(RebuiltLog(vs[n].items)) && WellFormed(LogOf(vs[n]))
  {
    var v := vs[n];
    if n == 0 {
      assert RebuiltLog([]) == Log([], 0);
    } else {
      EveryLifeIsSound(vs, n - 1);
      var w := vs[n - 1];
      RecoveryRefinesLivePhase(RebuiltLog(w.items), w.maxFollowUps, w.now, w.events, v.items);
    }
    GoodSession(RebuiltLog(v.items), v.maxFollowUps, v.now, v.events);
  }
}
