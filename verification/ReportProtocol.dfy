/** Text processors, audio processors and the grace timer racing on one report row: any number of
    deliveries, any interleaving, and death at any point. */
module ReportProtocol {
  import opened Wrappers
  import opened ReportRepository

  /** Results as the evaluator and the audio analysis validate them. */
  type ValidText = t: TextResults | TextOk(t)
    witness TextResults(Scores(0, 0, 0), [Feedback(1, Scores(0, 0, 0), "", [])], "", [])
  type ValidAudio = a: AudioResults | AudioOk(a) witness AudioResults(None, [])

  /** A live processor and the suspension point it is at; `seen` is the row it read at its start. */
  datatype Proc =
    | TextStart(count: nat)
    | TextRead(count: nat, seen: Option<Report>)
    | TextCreated(count: nat)
    | TextAnnouncing(count: nat)
    | Evaluating
    | AudioStart(count: nat)
    | AudioRead(count: nat, seen: Option<Report>)
    | Analysing
    | Publishing(status: Status)

  /** What a segment may be told by its surroundings. */
  datatype Input = Input(
    now: int,
    pairs: bool,            // the transcript exists and has question-answer pairs
    source: bool,           // session and resume exist
    raised: bool,           // the awaited call raised for good
    text: ValidText,
    audio: ValidAudio)

  datatype Config = Config(audioOn: bool, threshold: int, grace: int)

  datatype State = State(
    config: Config,
    report: Option<Report>,
    procs: map<nat, Proc>,
    nextId: nat,
    events: seq<Status>,    // history: status events published
    late: bool)             // history: text results were stored after the end

  datatype Event =
    | DeliverText(count: nat)
    | DeliverAudio(count: nat)
    | Run(id: nat, input: Input)
    | GracePoll(now: int)
    | Die(id: nat)

  // ------------------------------------------------------------------ primitives

  function Put(s: State, id: nat, p: Proc): State {
    s.(procs := s.procs[id := p])
  }

  function Remove(s: State, id: nat): State {
    s.(procs := s.procs - {id})
  }

  function Spawn(s: State, p: Proc): State {
    s.(procs := s.procs[s.nextId := p], nextId := s.nextId + 1)
  }

  /** A statement that fixed the outcome leaves its processor with an event to publish. */
  function Settle(s: State, id: nat, r: Report, won: bool): State {
    if won then Put(s, id, Publishing(r.status)).(report := Some(r)) else Remove(s, id).(report := Some(r))
  }

  function JudgeCompletion(s: State, id: nat, r: Report, now: int): State {
    Settle(s, id, Completed(r, s.config.audioOn, now), Completable(r, s.config.audioOn))
  }

  // ------------------------------------------------------------------ the text stage

  function TextReadSegment(s: State, id: nat, count: nat, seen: Option<Report>, x: Input): State {
    if seen.Some? && IsTerminal(seen.value.status) then Remove(s, id)
    else if seen.Some? && seen.value.textAt.Some? then
      if s.report.Some? then JudgeCompletion(s, id, s.report.value, x.now) else Remove(s, id)
    else if count >= s.config.threshold then GiveUpSegment(s, id, seen)
    else if !x.pairs then Remove(s, id)
    else if seen.None? then
      if x.source && s.report.None? then Put(s, id, TextCreated(count)).(report := Some(NewReport()))
      else Remove(s, id)
    else EnterSegment(s, id, count, seen.value.status)
  }

  function GiveUpSegment(s: State, id: nat, seen: Option<Report>): State {
    if seen.None? || s.report.None? then Remove(s, id)
    else
      var r := s.report.value;
      Settle(s, id, MarkedFailed(r, "redelivery threshold"), !IsTerminal(r.status))
  }

  /** Entering PROCESSING: by CAS, or by taking over from a processor that died. */
  function EnterSegment(s: State, id: nat, count: nat, status: Status): State {
    if status == PENDING then
      if s.report.Some? && s.report.value.status == PENDING
      then Put(s, id, TextAnnouncing(count)).(report := Some(s.report.value.(status := PROCESSING)))
      else Remove(s, id)
    else if count <= 1 then Remove(s, id)
    else Put(s, id, Evaluating)
  }

  function AnnounceSegment(s: State, id: nat, x: Input): State {
    if x.raised then Remove(s, id)
    else Put(s, id, Evaluating).(events := s.events + [PROCESSING])
  }

  function EvaluatingSegment(s: State, id: nat, x: Input): State {
    if x.raised || s.report.None? then Remove(s, id)
    else
      var r := s.report.value;
      JudgeCompletion(s, id, TextSaved(r, x.text, x.now), x.now).(late := s.late || IsTerminal(r.status))
  }

  // ------------------------------------------------------------------ the audio stage

  function AudioReadSegment(s: State, id: nat, count: nat, seen: Option<Report>, x: Input): State {
    if seen.Some? && IsTerminal(seen.value.status) then Remove(s, id)
    else if seen.Some? && seen.value.audioAt.Some? then
      if s.report.Some? then JudgeCompletion(s, id, s.report.value, x.now) else Remove(s, id)
    else if count >= s.config.threshold then Remove(s, id)
    else if seen.None? then Remove(s, id)
    else Put(s, id, Analysing)
  }

  function AnalysingSegment(s: State, id: nat, x: Input): State {
    if x.raised || s.report.None? then Remove(s, id)
    else
      var r := s.report.value;
      if IsTerminal(r.status) then Remove(s, id) else JudgeCompletion(s, id, AudioSaved(r, x.audio, x.now), x.now)
  }

  // ------------------------------------------------------------------ steps and runs

  function PublishSegment(s: State, id: nat, status: Status, x: Input): State {
    if x.raised then Remove(s, id) else Remove(s, id).(events := s.events + [status])
  }

  function Segment(s: State, id: nat, x: Input): State
    requires id in s.procs
  {
    match s.procs[id]
    case TextStart(count) => Put(s, id, TextRead(count, s.report))
    case TextRead(count, seen) => TextReadSegment(s, id, count, seen, x)
    case TextCreated(count) => EnterSegment(s, id, count, PENDING)
    case TextAnnouncing(_) => AnnounceSegment(s, id, x)
    case Evaluating => EvaluatingSegment(s, id, x)
    case AudioStart(count) => Put(s, id, AudioRead(count, s.report))
    case AudioRead(count, seen) => AudioReadSegment(s, id, count, seen, x)
    case Analysing => AnalysingSegment(s, id, x)
    case Publishing(status) => PublishSegment(s, id, status, x)
  }

  function GraceStep(s: State, now: int): State {
    if !s.config.audioOn || s.report.None? || !Overdue(s.report.value, s.config.grace, now) then s
    else Spawn(s.(report := Some(OverdueCompleted(s.report.value, s.config.grace, now))), Publishing(COMPLETED))
  }

  function Step(s: State, e: Event): State {
    match e
    case DeliverText(count) => Spawn(s, TextStart(count))
    case DeliverAudio(count) => Spawn(s, AudioStart(count))
    case Run(id, x) => if id in s.procs then Segment(s, id, x) else s
    case GracePoll(now) => GraceStep(s, now)
    case Die(id) => Remove(s, id)
  }

  function Exec(s: State, es: seq<Event>): State {
    if es == [] then s else Step(Exec(s, es[..|es| - 1]), es[|es| - 1])
  }

  function Idle(config: Config): State {
    State(config, None, map[], 0, [], false)
  }

  // ------------------------------------------------------------------ the invariant

  /** The row, whatever happened to it. */
  ghost predicate RowInv(r: Report, audioOn: bool) {
    && (r.status == PENDING ==> r.textAt.None?)
    && (r.textAt.Some? ==> r.scores.Some?)
    && (r.scores.Some? ==> ScoresOk(r.scores.value))
    && (r.delivery.Some? ==> InRange(r.delivery.value) && r.audioAt.Some?)
    && (r.overall.Some? <==> r.status == COMPLETED)
    && (r.overall.Some? ==> InRange(r.overall.value))
    && (r.completedAt.Some? <==> r.status == COMPLETED)
    && (r.failedReason.Some? <==> r.status == FAILED)
    && !Completable(r, audioOn)
  }

  /** What a processor knows about the row from its place in the code. */
  ghost predicate ProcOk(p: Proc, report: Option<Report>) {
    match p
    case TextRead(_, seen) => seen.Some? ==> report.Some? && Rank(seen.value.status) <= Rank(report.value.status)
    case TextCreated(_) => report.Some?
    case TextAnnouncing(_) => report.Some? && report.value.status != PENDING
    case Evaluating => report.Some? && report.value.status != PENDING
    case AudioRead(_, seen) => seen.Some? ==> report.Some?
    case Analysing => report.Some?
    case Publishing(status) => IsTerminal(status) && report.Some? && report.value.status == status
    case _ => true
  }

  ghost predicate ProcsInv(procs: map<nat, Proc>, report: Option<Report>, nextId: nat) {
    && (forall id | id in procs :: id < nextId)
    && (forall id | id in procs :: ProcOk(procs[id], report))
  }

  function TerminalEvents(events: seq<Status>): nat {
    if events == [] then 0
    else TerminalEvents(events[..|events| - 1]) + (if IsTerminal(events[|events| - 1]) then 1 else 0)
  }

  ghost predicate HasPublisher(procs: map<nat, Proc>) {
    exists id :: id in procs && procs[id].Publishing?
  }

  /** The outcome is announced by at most one processor, at most once, and truthfully. */
  ghost predicate EventsInv(procs: map<nat, Proc>, report: Option<Report>, events: seq<Status>) {
    && (forall i, j | i in procs && j in procs && procs[i].Publishing? && procs[j].Publishing? :: i == j)
    && (HasPublisher(procs) ==> TerminalEvents(events) == 0)
    && TerminalEvents(events) <= 1
    && (forall e | e in events && IsTerminal(e) :: report.Some? && report.value.status == e)
    && (report.None? || !IsTerminal(report.value.status) ==> TerminalEvents(events) == 0)
  }

  ghost predicate ScoreInv(s: State) {
    s.report.Some? && s.report.value.status == COMPLETED && !s.late ==>
      var r := s.report.value;
      r.scores.Some? && r.overall == Some(Overall(r.scores.value, r.delivery))
  }

  ghost predicate Inv(s: State) {
    && (s.report.Some? ==> RowInv(s.report.value, s.config.audioOn))
    && ProcsInv(s.procs, s.report, s.nextId)
    && EventsInv(s.procs, s.report, s.events)
    && ScoreInv(s)
  }

  // ------------------------------------------------------------------ every step keeps it

  /** How a row may change: it never comes back, and a finished one keeps its verdict. */
  ghost predicate Advances(r: Report, q: Report) {
    && Rank(r.status) <= Rank(q.status)
    && (IsTerminal(r.status) ==>
          && q.status == r.status && q.overall == r.overall && q.delivery == r.delivery && q.audioAt == r.audioAt
          && q.completedAt == r.completedAt && q.failedReason == r.failedReason)
  }

  lemma CompletedKeepsRow(r: Report, audioOn: bool, now: int)
    requires r.status == PENDING ==> r.textAt.None?
    requires r.textAt.Some? ==> r.scores.Some?
    requires r.scores.Some? ==> ScoresOk(r.scores.value)
    requires r.delivery.Some? ==> InRange(r.delivery.value) && r.audioAt.Some?
    requires r.overall.Some? <==> r.status == COMPLETED
    requires r.overall.Some? ==> InRange(r.overall.value)
    requires (r.completedAt.Some? <==> r.status == COMPLETED) && (r.failedReason.Some? <==> r.status == FAILED)
    ensures RowInv(Completed(r, audioOn, now), audioOn)
    ensures Advances(r, Completed(r, audioOn, now))
  {
    if r.scores.Some? { OverallIsMean(r.scores.value, r.delivery); }
  }

  /** A row that moved on without the processor at `id`, which stays in place as `p` or leaves. */
  lemma ProcsFollow(procs: map<nat, Proc>, report: Option<Report>, q: Report, nextId: nat, id: nat, p: Proc)
    requires ProcsInv(procs, report, nextId) && id in procs
    requires report.Some? ==> Advances(report.value, q)
    requires forall i | i in procs && i != id && procs[i].Publishing? :: report.Some? && q.status == report.value.status
    ensures ProcsInv(procs - {id}, Some(q), nextId)
    ensures ProcOk(p, Some(q)) ==> ProcsInv(procs[id := p], Some(q), nextId)
  {
    forall i | i in procs && i != id
      ensures ProcOk(procs[i], Some(q))
    {
      assert ProcOk(procs[i], report);
    }
  }

  lemma NoPublisherBefore(s: State, id: nat)
    requires Inv(s) && id in s.procs && (s.report.None? || !IsTerminal(s.report.value.status))
    ensures forall i | i in s.procs :: !s.procs[i].Publishing?
    ensures TerminalEvents(s.events) == 0
  {
    forall i | i in s.procs
      ensures !s.procs[i].Publishing?
    {
      assert ProcOk(s.procs[i], s.report);
    }
  }

  lemma EventsFollow(s: State, id: nat, q: Report, won: bool)
    requires Inv(s) && id in s.procs && !s.procs[id].Publishing? && s.report.Some? && Advances(s.report.value, q)
    requires won <==> !IsTerminal(s.report.value.status) && IsTerminal(q.status)
    ensures EventsInv(Settle(s, id, q, won).procs, Some(q), s.events)
  {
    if !IsTerminal(s.report.value.status) {
      NoPublisherBefore(s, id);
      NoTerminalEvent(s.events);
    }
    var t := Settle(s, id, q, won).procs;
    if HasPublisher(t) {
      var i :| i in t && t[i].Publishing?;
      if !won { assert i in s.procs && s.procs[i].Publishing?; }
    }
  }

  lemma {:induction false} NoTerminalEvent(events: seq<Status>)
    requires TerminalEvents(events) == 0
    ensures forall e | e in events :: !IsTerminal(e)
  {
    if events != [] {
      NoTerminalEvent(events[..|events| - 1]);
      assert events == events[..|events| - 1] + [events[|events| - 1]];
    }
  }

  /** A statement on the row by a processor that is not yet publishing. */
  lemma SettleKeeps(s: State, id: nat, q: Report, won: bool)
    requires Inv(s) && id in s.procs && !s.procs[id].Publishing? && s.report.Some? && Advances(s.report.value, q)
    requires RowInv(q, s.config.audioOn)
    requires won <==> !IsTerminal(s.report.value.status) && IsTerminal(q.status)
    requires ScoreInv(Settle(s, id, q, won))
    ensures Inv(Settle(s, id, q, won))
  {
    EventsFollow(s, id, q, won);
    if !IsTerminal(s.report.value.status) { NoPublisherBefore(s, id); }
    ProcsFollow(s.procs, s.report, q, s.nextId, id, Publishing(q.status));
  }

  lemma RemoveKeeps(s: State, id: nat)
    requires Inv(s)
    ensures Inv(Remove(s, id))
  {
  }

  lemma PutKeeps(s: State, id: nat, p: Proc)
    requires Inv(s) && id in s.procs && ProcOk(p, s.report) && !p.Publishing?
    ensures Inv(Put(s, id, p))
  {
    var t := s.procs[id := p];
    if HasPublisher(t) {
      var i :| i in t && t[i].Publishing?;
      assert i in s.procs && s.procs[i].Publishing?;
    }
  }

  lemma JudgeKeeps(s: State, id: nat, q: Report, now: int)
    requires Inv(s) && id in s.procs && !s.procs[id].Publishing? && s.report.Some?
    requires Advances(s.report.value, q) && Rank(q.status) == Rank(s.report.value.status)
    requires q.status == s.report.value.status && RowInv(Completed(q, s.config.audioOn, now), s.config.audioOn)
    requires Advances(q, Completed(q, s.config.audioOn, now))
    requires q.status == COMPLETED && !s.late ==> q.overall == s.report.value.overall && q.scores == s.report.value.scores
    ensures Inv(JudgeCompletion(s, id, q, now))
  {
    SettleKeeps(s, id, Completed(q, s.config.audioOn, now), Completable(q, s.config.audioOn));
  }

  lemma GiveUpKeeps(s: State, id: nat, seen: Option<Report>)
    requires Inv(s) && id in s.procs && !s.procs[id].Publishing?
    ensures Inv(GiveUpSegment(s, id, seen))
  {
    RemoveKeeps(s, id);
    if seen.Some? && s.report.Some? {
      var r := s.report.value;
      SettleKeeps(s, id, MarkedFailed(r, "redelivery threshold"), !IsTerminal(r.status));
    }
  }

  /** A row that moves on, with its processor moving along, before the end. */
  lemma MoveKeeps(s: State, id: nat, q: Report, p: Proc)
    requires Inv(s) && id in s.procs && !s.procs[id].Publishing? && !p.Publishing?
    requires s.report.Some? ==> Advances(s.report.value, q) && !IsTerminal(s.report.value.status)
    requires RowInv(q, s.config.audioOn) && !IsTerminal(q.status) && ProcOk(p, Some(q))
    ensures Inv(Put(s, id, p).(report := Some(q)))
  {
    NoPublisherBefore(s, id);
    NoTerminalEvent(s.events);
    ProcsFollow(s.procs, s.report, q, s.nextId, id, p);
  }

  lemma EnterKeeps(s: State, id: nat, count: nat, status: Status)
    requires Inv(s) && id in s.procs && !s.procs[id].Publishing? && s.report.Some?
    requires status != PENDING ==> s.report.value.status != PENDING
    ensures Inv(EnterSegment(s, id, count, status))
  {
    RemoveKeeps(s, id);
    if status == PENDING {
      if s.report.value.status == PENDING {
        MoveKeeps(s, id, s.report.value.(status := PROCESSING), TextAnnouncing(count));
      }
    } else {
      PutKeeps(s, id, Evaluating);
    }
  }

  lemma TextReadKeeps(s: State, id: nat, x: Input)
    requires Inv(s) && id in s.procs && s.procs[id].TextRead?
    ensures Inv(TextReadSegment(s, id, s.procs[id].count, s.procs[id].seen, x))
  {
    var count, seen := s.procs[id].count, s.procs[id].seen;
    assert ProcOk(s.procs[id], s.report);
    RemoveKeeps(s, id);
    if seen.Some? && IsTerminal(seen.value.status) {
    } else if seen.Some? && seen.value.textAt.Some? {
      CompletedKeepsRow(s.report.value, s.config.audioOn, x.now);
      JudgeKeeps(s, id, s.report.value, x.now);
    } else if count >= s.config.threshold {
      GiveUpKeeps(s, id, seen);
    } else if x.pairs && seen.None? {
      if x.source && s.report.None? { MoveKeeps(s, id, NewReport(), TextCreated(count)); }
    } else if x.pairs {
      EnterKeeps(s, id, count, seen.value.status);
    }
  }

  lemma EvaluatingKeeps(s: State, id: nat, x: Input)
    requires Inv(s) && id in s.procs && s.procs[id].Evaluating?
    ensures Inv(EvaluatingSegment(s, id, x))
  {
    assert ProcOk(s.procs[id], s.report);
    RemoveKeeps(s, id);
    if !x.raised {
      var r := s.report.value;
      var q := TextSaved(r, x.text, x.now);
      CompletedKeepsRow(q, s.config.audioOn, x.now);
      var s' := s.(late := s.late || IsTerminal(r.status));
      assert Inv(s');
      JudgeKeeps(s', id, q, x.now);
      assert EvaluatingSegment(s, id, x) == JudgeCompletion(s', id, q, x.now);
    }
  }

  lemma AudioReadKeeps(s: State, id: nat, x: Input)
    requires Inv(s) && id in s.procs && s.procs[id].AudioRead?
    ensures Inv(AudioReadSegment(s, id, s.procs[id].count, s.procs[id].seen, x))
  {
    var count, seen := s.procs[id].count, s.procs[id].seen;
    assert ProcOk(s.procs[id], s.report);
    RemoveKeeps(s, id);
    if seen.Some? && !IsTerminal(seen.value.status) {
      if seen.value.audioAt.Some? {
        CompletedKeepsRow(s.report.value, s.config.audioOn, x.now);
        JudgeKeeps(s, id, s.report.value, x.now);
      } else if count < s.config.threshold {
        PutKeeps(s, id, Analysing);
      }
    }
  }

  lemma AnalysingKeeps(s: State, id: nat, x: Input)
    requires Inv(s) && id in s.procs && s.procs[id].Analysing?
    ensures Inv(AnalysingSegment(s, id, x))
  {
    assert ProcOk(s.procs[id], s.report);
    RemoveKeeps(s, id);
    if !x.raised && !IsTerminal(s.report.value.status) {
      var q := AudioSaved(s.report.value, x.audio, x.now);
      CompletedKeepsRow(q, s.config.audioOn, x.now);
      JudgeKeeps(s, id, q, x.now);
    }
  }

  lemma CountOne(events: seq<Status>, e: Status)
    ensures TerminalEvents(events + [e]) == TerminalEvents(events) + (if IsTerminal(e) then 1 else 0)
  {
    assert (events + [e])[..|events|] == events;
  }

  lemma PublishKeeps(s: State, id: nat, x: Input)
    requires Inv(s) && id in s.procs && s.procs[id].Publishing?
    ensures Inv(PublishSegment(s, id, s.procs[id].status, x))
  {
    assert ProcOk(s.procs[id], s.report);
    RemoveKeeps(s, id);
    assert HasPublisher(s.procs);
    CountOne(s.events, s.procs[id].status);
    assert !HasPublisher(s.procs - {id});
  }

  lemma AnnounceKeeps(s: State, id: nat, x: Input)
    requires Inv(s) && id in s.procs && s.procs[id].TextAnnouncing?
    ensures Inv(AnnounceSegment(s, id, x))
  {
    assert ProcOk(s.procs[id], s.report);
    RemoveKeeps(s, id);
    PutKeeps(s, id, Evaluating);
    CountOne(s.events, PROCESSING);
  }

  lemma GraceKeeps(s: State, now: int)
    requires Inv(s)
    ensures Inv(GraceStep(s, now))
  {
    if s.config.audioOn && s.report.Some? && Overdue(s.report.value, s.config.grace, now) {
      var r := s.report.value;
      var q := OverdueCompleted(r, s.config.grace, now);
      OverallIsMean(r.scores.value, None);
      NoTerminalEvent(s.events);
      forall i | i in s.procs
        ensures ProcOk(s.procs[i], Some(q)) && !s.procs[i].Publishing?
      {
        assert ProcOk(s.procs[i], s.report);
      }
    }
  }

  lemma SpawnKeeps(s: State, p: Proc)
    requires Inv(s) && (p.TextStart? || p.AudioStart?)
    ensures Inv(Spawn(s, p))
  {
    var t := Spawn(s, p).procs;
    if HasPublisher(t) {
      var i :| i in t && t[i].Publishing?;
      assert i in s.procs && s.procs[i].Publishing?;
    }
  }

  lemma SegmentKeeps(s: State, id: nat, x: Input)
    requires Inv(s) && id in s.procs
    ensures Inv(Segment(s, id, x))
  {
    match s.procs[id]
    case TextStart(count) => PutKeeps(s, id, TextRead(count, s.report));
    case TextRead(_, _) => TextReadKeeps(s, id, x);
    case TextCreated(count) =>
      assert ProcOk(s.procs[id], s.report);
      EnterKeeps(s, id, count, PENDING);
    case TextAnnouncing(_) => AnnounceKeeps(s, id, x);
    case Evaluating => EvaluatingKeeps(s, id, x);
    case AudioStart(count) => PutKeeps(s, id, AudioRead(count, s.report));
    case AudioRead(_, _) => AudioReadKeeps(s, id, x);
    case Analysing => AnalysingKeeps(s, id, x);
    case Publishing(_) => PublishKeeps(s, id, x);
  }

  lemma StepKeeps(s: State, e: Event)
    requires Inv(s)
    ensures Inv(Step(s, e))
  {
    match e
    case DeliverText(count) => SpawnKeeps(s, TextStart(count));
    case DeliverAudio(count) => SpawnKeeps(s, AudioStart(count));
    case Run(id, x) => if id in s.procs { SegmentKeeps(s, id, x); }
    case GracePoll(now) => GraceKeeps(s, now);
    case Die(id) => RemoveKeeps(s, id);
  }

  lemma {:induction false} RunKeeps(s: State, es: seq<Event>)
    requires Inv(s)
    ensures Inv(Exec(s, es))
  {
    if es != [] {
      RunKeeps(s, es[..|es| - 1]);
      StepKeeps(Exec(s, es[..|es| - 1]), es[|es| - 1]);
    }
  }

  // ------------------------------------------------------------------ theorems

  function After(config: Config, es: seq<Event>): State {
    Exec(Idle(config), es)
  }

  lemma ConfigKept(s: State, e: Event)
    ensures Step(s, e).config == s.config
  {
  }

  lemma {:induction false} ConfigStays(s: State, es: seq<Event>)
    ensures Exec(s, es).config == s.config
  {
    if es != [] {
      ConfigStays(s, es[..|es| - 1]);
      ConfigKept(Exec(s, es[..|es| - 1]), es[|es| - 1]);
    }
  }

  lemma AfterInv(config: Config, es: seq<Event>)
    ensures Inv(After(config, es)) && After(config, es).config == config
  {
    RunKeeps(Idle(config), es);
    ConfigStays(Idle(config), es);
  }

  /** No report is left behind: after every step, whoever died where, no row is PROCESSING with
      everything done that its completion needs. */
  lemma NothingLeftToComplete(config: Config, es: seq<Event>)
    ensures var s := After(config, es);
            s.report.Some? && s.report.value.status == PROCESSING && s.report.value.textAt.Some? ==>
              config.audioOn && s.report.value.audioAt.None?
  {
    AfterInv(config, es);
  }

  /** At most one terminal event is ever published, and it names the status the row ends in. */
  lemma OneTerminalEvent(config: Config, es: seq<Event>)
    ensures var s := After(config, es);
            && TerminalEvents(s.events) <= 1
            && forall e | e in s.events && IsTerminal(e) :: s.report.Some? && s.report.value.status == e
  {
    AfterInv(config, es);
  }

  lemma StepAdvances(s: State, e: Event)
    requires Inv(s) && s.report.Some?
    ensures Step(s, e).report.Some? && Advances(s.report.value, Step(s, e).report.value)
  {
    match e
    case Run(id, x) =>
      if id in s.procs { assert ProcOk(s.procs[id], s.report); }
    case _ =>
  }

  lemma {:induction false} RunsJoin(s: State, es: seq<Event>, more: seq<Event>)
    ensures Exec(s, es + more) == Exec(Exec(s, es), more)
    decreases |more|
  {
    if more == [] {
      assert es + more == es;
    } else {
      var front := more[..|more| - 1];
      RunsJoin(s, es, front);
      assert (es + more)[..|es + more| - 1] == es + front;
    }
  }

  lemma AdvancesTrans(p: Report, q: Report, r: Report)
    requires Advances(p, q) && Advances(q, r)
    ensures Advances(p, r)
  {
  }

  lemma {:induction false} RunAdvances(s: State, es: seq<Event>)
    requires Inv(s) && s.report.Some?
    ensures Exec(s, es).report.Some? && Advances(s.report.value, Exec(s, es).report.value)
  {
    if es != [] {
      var front := es[..|es| - 1];
      RunAdvances(s, front);
      RunKeeps(s, front);
      StepAdvances(Exec(s, front), es[|es| - 1]);
      AdvancesTrans(s.report.value, Exec(s, front).report.value, Exec(s, es).report.value);
    }
  }

  /** The row says how it ended: a time and an overall score exactly when it completed, a reason exactly
      when it failed. */
  lemma EndIsRecorded(config: Config, es: seq<Event>)
    ensures var s := After(config, es);
            s.report.Some? ==>
              && (s.report.value.completedAt.Some? <==> s.report.value.status == COMPLETED)
              && (s.report.value.overall.Some? <==> s.report.value.status == COMPLETED)
              && (s.report.value.failedReason.Some? <==> s.report.value.status == FAILED)
  {
    AfterInv(config, es);
  }

  /** After the end, status, overall score, delivery score, audio time, and when or why it ended never
      change again. */
  lemma EndIsFrozen(config: Config, es: seq<Event>, more: seq<Event>)
    requires After(config, es).report.Some?
    ensures var a, b := After(config, es), After(config, es + more);
            b.report.Some? && Advances(a.report.value, b.report.value)
  {
    AfterInv(config, es);
    RunAdvances(After(config, es), more);
    RunsJoin(Idle(config), es, more);
  }

  /** Every way to COMPLETED sets the overall score to the half-up mean of the axes, and of delivery
      where it was measured; it stays on the scale, and it is the mean of what the row holds unless
      a second text processor stored its results after the end. */
  lemma CompletedScoreIsMean(config: Config, es: seq<Event>)
    ensures var s := After(config, es);
            s.report.Some? && s.report.value.status == COMPLETED ==>
              var r := s.report.value;
              && r.overall.Some? && InRange(r.overall.value)
              && (!s.late ==>
                    r.scores.Some?
                    && var sum := r.scores.value.logic + r.scores.value.specificity + r.scores.value.technical;
                       if r.delivery.Some? then IsHalfUpMean(r.overall.value, sum + r.delivery.value, 4)
                       else IsHalfUpMean(r.overall.value, sum, 3))
  {
    AfterInv(config, es);
    var s := After(config, es);
    if s.report.Some? && s.report.value.scores.Some? {
      OverallIsMean(s.report.value.scores.value, s.report.value.delivery);
    }
  }

  lemma ExecStep(s: State, es: seq<Event>, e: Event)
    ensures Exec(s, es + [e]) == Step(Exec(s, es), e)
  {
    assert (es + [e])[..|es|] == es;
  }

  lemma OneMore(config: Config, es: seq<Event>, e: Event)
    ensures After(config, es + [e]) == Step(After(config, es), e)
  {
    ExecStep(Idle(config), es, e);
  }

  // ------------------------------------------------------------------ whenever the audio stage ends

  lemma FourSteps(s: State, a: Event, b: Event, c: Event, d: Event)
    ensures Exec(s, [a, b, c, d]) == Step(Step(Step(Step(s, a), b), c), d)
  {
    ExecStep(s, [], a);
    ExecStep(s, [a], b);
    ExecStep(s, [a, b], c);
    ExecStep(s, [a, b, c], d);
    assert [] + [a] == [a] && [a] + [b] == [a, b] && [a, b] + [c] == [a, b, c] && [a, b, c] + [d] == [a, b, c, d];
  }

  /** A text processor that has just made the row, and an audio processor that has analysed. */
  ghost predicate BothAtWork(s: State, text: nat, audio: nat) {
    && s.config.audioOn && text != audio
    && text in s.procs && s.procs[text].TextCreated? && audio in s.procs && s.procs[audio] == Analysing
    && s.report.Some? && s.report.value.status == PENDING
    && s.report.value.textAt.None? && s.report.value.audioAt.None?
  }

  /** The three segments of the text processor, with the audio processor's after the first k. */
  function AudioAfter(text: Event, audio: Event, k: nat): seq<Event> {
    match k
    case 0 => [audio, text, text, text]
    case 1 => [text, audio, text, text]
    case 2 => [text, text, audio, text]
    case _ => [text, text, text, audio]
  }

  /** The report has its outcome, and one processor, and only one, its completion to announce. */
  ghost predicate Ended(s: State, text: nat, audio: nat, t: TextResults, a: AudioResults) {
    && s.report.Some? && Verdict(s.report.value) == Outcome(t, a)
    && (text in s.procs <==> audio !in s.procs)
    && (text in s.procs ==> s.procs[text] == Publishing(COMPLETED))
    && (audio in s.procs ==> s.procs[audio] == Publishing(COMPLETED))
  }

  /** A stage that ends while the other is missing leaves its results and goes. */
  lemma AudioWaits(s: State, audio: nat, y: Input)
    requires s.config.audioOn && audio in s.procs && s.procs[audio] == Analysing && !y.raised
    requires s.report.Some? && !IsTerminal(s.report.value.status) && s.report.value.textAt.None?
    ensures Step(s, Run(audio, y))
         == s.(procs := s.procs - {audio}, report := Some(AudioSaved(s.report.value, y.audio, y.now)))
  {
  }

  lemma TextWaits(s: State, text: nat, x: Input)
    requires s.config.audioOn && text in s.procs && s.procs[text] == Evaluating && !x.raised
    requires s.report.Some? && !IsTerminal(s.report.value.status) && s.report.value.audioAt.None?
    ensures Step(s, Run(text, x))
         == s.(procs := s.procs - {text}, report := Some(TextSaved(s.report.value, x.text, x.now)))
  {
  }

  lemma TextEndsLast(s: State, text: nat, audio: nat, x: Input, y: Input)
    requires s.config.audioOn && text != audio && text in s.procs && audio in s.procs
    requires s.procs[text] == Evaluating && s.procs[audio] == Analysing && !x.raised && !y.raised
    requires s.report.Some? && s.report.value.status == PROCESSING && s.report.value.textAt.None?
    ensures Ended(Step(Step(s, Run(audio, y)), Run(text, x)), text, audio, x.text, y.audio)
  {
    AudioWaits(s, audio, y);
    TagsMerge(s.report.value.tags, x.text, y.audio);
  }

  lemma AudioEndsLast(s: State, text: nat, audio: nat, x: Input, y: Input)
    requires s.config.audioOn && text != audio && text in s.procs && audio in s.procs
    requires s.procs[text] == Evaluating && s.procs[audio] == Analysing && !x.raised && !y.raised
    requires s.report.Some? && s.report.value.status == PROCESSING && s.report.value.audioAt.None?
    ensures Ended(Step(Step(s, Run(text, x)), Run(audio, y)), text, audio, x.text, y.audio)
  {
    TextWaits(s, text, x);
    TagsMerge(s.report.value.tags, x.text, y.audio);
  }

  /** Storing audio results before the text stage ends and taking the report up do not get in each
      other's way. */
  lemma TakingUpCommutes(s: State, text: nat, audio: nat, x: Input, y: Input)
    requires text != audio && text in s.procs && audio in s.procs && !x.raised && !y.raised
    requires s.procs[text].TextCreated? || s.procs[text].TextAnnouncing?
    requires s.config.audioOn && s.procs[audio] == Analysing && s.report.Some? && s.report.value.textAt.None?
    requires s.procs[text].TextCreated? ==> s.report.value.status == PENDING
    requires s.procs[text].TextAnnouncing? ==> s.report.value.status == PROCESSING
    ensures Step(Step(s, Run(audio, y)), Run(text, x)) == Step(Step(s, Run(text, x)), Run(audio, y))
  {
    var p, q := Step(Step(s, Run(audio, y)), Run(text, x)), Step(Step(s, Run(text, x)), Run(audio, y));
    AudioWaits(s, audio, y);
    AudioWaits(Step(s, Run(text, x)), audio, y);
    assert p.procs == q.procs;
  }

  lemma TakenUp(s: State, text: nat, audio: nat, x: Input)
    requires BothAtWork(s, text, audio) && !x.raised
    ensures var m := Step(s, Run(text, x)); var n := Step(m, Run(text, x));
            && m.procs == s.procs[text := TextAnnouncing(s.procs[text].count)]
            && m.report == Some(s.report.value.(status := PROCESSING)) && m.config == s.config
            && n.procs == m.procs[text := Evaluating] && n.report == m.report && n.config == s.config
  {
  }

  /** Over the steps of both processors: at whatever point the audio stage ends, the report comes out
      the same. */
  lemma AudioEndsAnyTime(s: State, text: nat, audio: nat, x: Input, y: Input, k: nat)
    requires BothAtWork(s, text, audio) && !x.raised && !y.raised
    ensures Ended(Exec(s, AudioAfter(Run(text, x), Run(audio, y), k)), text, audio, x.text, y.audio)
  {
    var t, a := Run(text, x), Run(audio, y);
    var m := Step(s, t);
    var n := Step(m, t);
    TakenUp(s, text, audio, x);
    TextEndsLast(n, text, audio, x, y);
    AudioEndsLast(n, text, audio, x, y);
    TakingUpCommutes(s, text, audio, x, y);
    TakingUpCommutes(m, text, audio, x, y);
    match k
    case 0 => FourSteps(s, a, t, t, t);
    case 1 => FourSteps(s, t, a, t, t);
    case 2 => FourSteps(s, t, t, a, t);
    case _ => FourSteps(s, t, t, t, a);
  }

  /** Two text processors on one PROCESSING report: the second took the first for dead. */
  lemma TwoTextProcessors(c: Config, x: Input) returns (es: seq<Event>)
    requires c.threshold == 3 && x.pairs && x.source && !x.raised
    ensures var s := After(c, es);
            && 0 in s.procs && s.procs[0] == Evaluating && 1 in s.procs && s.procs[1] == Evaluating
            && s.report == Some(NewReport().(status := PROCESSING))
  {
    assert After(c, []) == Idle(c);
    OneMore(c, [], DeliverText(1));
    es := [] + [DeliverText(1)];
    OneMore(c, es, DeliverText(2));
    es := es + [DeliverText(2)];
    OneMore(c, es, Run(0, x));
    es := es + [Run(0, x)];
    OneMore(c, es, Run(0, x));
    es := es + [Run(0, x)];
    OneMore(c, es, Run(0, x));
    es := es + [Run(0, x)];
    assert After(c, es).procs[0] == TextAnnouncing(1) && After(c, es).report == Some(NewReport().(status := PROCESSING));
    OneMore(c, es, Run(1, x));
    es := es + [Run(1, x)];
    OneMore(c, es, Run(1, x));
    es := es + [Run(1, x)];
    OneMore(c, es, Run(0, x));
    es := es + [Run(0, x)];
  }

  /** The condition in CompletedScoreIsMean is needed: a text processor that took over a run whose
      first processor was still alive replaces the axes of a completed report. */
  lemma LateTextRewritesAxes(zero: ValidText, ninety: ValidText) returns (es: seq<Event>)
    requires zero.scores == Scores(0, 0, 0) && ninety.scores == Scores(90, 90, 90)
    ensures var s := After(Config(false, 3, 0), es);
            s.late && s.report.Some? && s.report.value.status == COMPLETED
            && s.report.value.overall == Some(0) && s.report.value.scores == Some(Scores(90, 90, 90))
  {
    var c := Config(false, 3, 0);
    var x := Input(0, true, true, false, zero, AudioResults(None, []));
    es := TwoTextProcessors(c, x);
    AfterInv(c, es);
    OneMore(c, es, Run(0, x));
    es := es + [Run(0, x)];
    OneMore(c, es, Run(1, x.(text := ninety)));
    es := es + [Run(1, x.(text := ninety))];
  }

  // ------------------------------------------------------------------ what a row shows was stored by a processor

  /** The row shows exactly these text results: scores, feedback, summary and text tags. */
  predicate ShowsText(r: Report, t: TextResults, at: int) {
    && r.scores == Some(t.scores) && r.feedbacks == t.feedbacks && r.summary == Some(t.summary)
    && Keep(r.tags, false) == t.tags && r.textAt == Some(at)
  }

  /** The row shows exactly these audio results: delivery and voice tags. */
  predicate ShowsAudio(r: Report, a: AudioResults, at: int) {
    r.delivery == a.delivery && Keep(r.tags, true) == a.tags && r.audioAt == Some(at)
  }

  predicate SameText(r: Report, q: Report) {
    && q.scores == r.scores && q.feedbacks == r.feedbacks && q.summary == r.summary
    && Keep(q.tags, false) == Keep(r.tags, false) && q.textAt == r.textAt
  }

  predicate SameAudio(r: Report, q: Report) {
    q.delivery == r.delivery && Keep(q.tags, true) == Keep(r.tags, true) && q.audioAt == r.audioAt
  }

  /** In this step a text processor that has evaluated stores its results. */
  predicate StoresText(s: State, e: Event) {
    e.Run? && e.id in s.procs && s.procs[e.id] == Evaluating && !e.input.raised
  }

  predicate StoresAudio(s: State, e: Event) {
    e.Run? && e.id in s.procs && s.procs[e.id] == Analysing && !e.input.raised
  }

  /** Text and audio of a row change only where a processor stores its results, and then to exactly
      those. */
  lemma StepShows(s: State, e: Event)
    requires s.report.Some?
    ensures Step(s, e).report.Some?
    ensures var r, q := s.report.value, Step(s, e).report.value;
            && (if StoresText(s, e) then ShowsText(q, e.input.text, e.input.now) else SameText(r, q))
            && (SameAudio(r, q) || (StoresAudio(s, e) && ShowsAudio(q, e.input.audio, e.input.now)))
            && (StoresAudio(s, e) && !IsTerminal(r.status) ==> ShowsAudio(q, e.input.audio, e.input.now))
  {
    if StoresText(s, e) {
      TextStored(s, e.id, e.input);
    } else if StoresAudio(s, e) {
      AudioStored(s, e.id, e.input);
    } else {
      NothingStored(s, e);
    }
  }

  lemma TextStored(s: State, id: nat, x: Input)
    requires s.report.Some? && id in s.procs && s.procs[id] == Evaluating && !x.raised
    ensures var q := Step(s, Run(id, x)).report;
            q.Some? && ShowsText(q.value, x.text, x.now) && SameAudio(s.report.value, q.value)
  {
    SavedKeepsTheOther(s.report.value, x.text, x.audio, x.now);
  }

  lemma AudioStored(s: State, id: nat, x: Input)
    requires s.report.Some? && id in s.procs && s.procs[id] == Analysing && !x.raised
    ensures var q := Step(s, Run(id, x)).report;
            && q.Some? && SameText(s.report.value, q.value)
            && (if IsTerminal(s.report.value.status) then q == s.report else ShowsAudio(q.value, x.audio, x.now))
  {
    SavedKeepsTheOther(s.report.value, x.text, x.audio, x.now);
  }

  lemma NothingStored(s: State, e: Event)
    requires s.report.Some? && !StoresText(s, e) && !StoresAudio(s, e)
    ensures var q := Step(s, e).report;
            q.Some? && SameText(s.report.value, q.value) && SameAudio(s.report.value, q.value)
  {
    match e
    case Run(id, x) =>
      if id in s.procs {
        match s.procs[id]
        case TextRead(count, seen) => TextReadStoresNothing(s, id, count, seen, x);
        case AudioRead(count, seen) => AudioReadStoresNothing(s, id, count, seen, x);
        case TextCreated(count) => EnterStoresNothing(s, id, count, PENDING);
        case _ =>
      }
    case _ =>
  }

  ghost predicate SameRow(s: State, t: State) {
    s.report.Some? && t.report.Some? && SameText(s.report.value, t.report.value) && SameAudio(s.report.value, t.report.value)
  }

  lemma EnterStoresNothing(s: State, id: nat, count: nat, status: Status)
    requires s.report.Some?
    ensures SameRow(s, EnterSegment(s, id, count, status))
  {
  }

  lemma JudgeStoresNothing(s: State, id: nat, now: int)
    requires s.report.Some?
    ensures SameRow(s, JudgeCompletion(s, id, s.report.value, now))
  {
  }

  lemma GiveUpStoresNothing(s: State, id: nat, seen: Option<Report>)
    requires s.report.Some?
    ensures SameRow(s, GiveUpSegment(s, id, seen))
  {
  }

  lemma TextReadStoresNothing(s: State, id: nat, count: nat, seen: Option<Report>, x: Input)
    requires s.report.Some?
    ensures SameRow(s, TextReadSegment(s, id, count, seen, x))
  {
    JudgeStoresNothing(s, id, x.now);
    GiveUpStoresNothing(s, id, seen);
    if seen.Some? { EnterStoresNothing(s, id, count, seen.value.status); }
  }

  lemma AudioReadStoresNothing(s: State, id: nat, count: nat, seen: Option<Report>, x: Input)
    requires s.report.Some?
    ensures SameRow(s, AudioReadSegment(s, id, count, seen, x))
  {
    JudgeStoresNothing(s, id, x.now);
  }

  /** A new row shows nothing. */
  lemma NewRowIsEmpty(s: State, e: Event)
    requires s.report.None? && Step(s, e).report.Some?
    ensures Step(s, e).report.value == NewReport()
  {
  }

  /** In every run, what a row shows as analysed text are the scores, feedback, summary and tags of one
      set of results, whole, that a text processor of the run stored; there is feedback in it. */
  lemma {:induction false} TextWasStored(config: Config, es: seq<Event>)
    ensures var s := After(config, es);
            s.report.Some? && s.report.value.textAt.Some? ==>
              && s.report.value.feedbacks != []
              && exists n: nat :: n < |es| && StoresText(After(config, es[..n]), es[n])
                                  && ShowsText(s.report.value, es[n].input.text, es[n].input.now)
  {
    if es != [] {
      var front, e := es[..|es| - 1], es[|es| - 1];
      var b, s := After(config, front), After(config, es);
      TextWasStored(config, front);
      if b.report.None? {
        if s.report.Some? { NewRowIsEmpty(b, e); }
      } else {
        StepShows(b, e);
        if s.report.value.textAt.Some? && !StoresText(b, e) {
          var n: nat :| n < |front| && StoresText(After(config, front[..n]), front[n])
                        && ShowsText(b.report.value, front[n].input.text, front[n].input.now);
          assert front[..n] == es[..n] && front[n] == es[n];
        } else if s.report.value.textAt.Some? {
          assert es[|es| - 1] == e && es[..|es| - 1] == front;
        }
      }
    }
  }

  /** The same of the audio results. */
  lemma {:induction false} AudioWasStored(config: Config, es: seq<Event>)
    ensures var s := After(config, es);
            s.report.Some? && s.report.value.audioAt.Some? ==>
              exists n: nat :: n < |es| && StoresAudio(After(config, es[..n]), es[n])
                               && ShowsAudio(s.report.value, es[n].input.audio, es[n].input.now)
  {
    if es != [] {
      var front, e := es[..|es| - 1], es[|es| - 1];
      var b, s := After(config, front), After(config, es);
      AudioWasStored(config, front);
      if b.report.None? {
        if s.report.Some? { NewRowIsEmpty(b, e); }
      } else {
        StepShows(b, e);
        if s.report.value.audioAt.Some? && SameAudio(b.report.value, s.report.value) {
          var n: nat :| n < |front| && StoresAudio(After(config, front[..n]), front[n])
                        && ShowsAudio(b.report.value, front[n].input.audio, front[n].input.now);
          assert front[..n] == es[..n] && front[n] == es[n];
        } else if s.report.value.audioAt.Some? {
          assert es[|es| - 1] == e && es[..|es| - 1] == front;
        }
      }
    }
  }

  // ------------------------------------------------------------------ what each delivery comes to

  /** The grace timer completes a report on its text axes, and leaves the completion to announce, exactly
      when the report is being processed, its text is done, its audio is not, and the grace has run out;
      otherwise it changes nothing. */
  lemma OverdueIsCompletedIff(config: Config, es: seq<Event>, now: int)
    ensures var s := After(config, es); var t := Step(s, GracePoll(now));
            if config.audioOn && s.report.Some? && s.report.value.status == PROCESSING && s.report.value.textAt.Some?
               && s.report.value.audioAt.None? && s.report.value.textAt.value + config.grace < now then
              && t.report.Some? && s.report.value.scores.Some?
              && (var x := s.report.value.scores.value;
                  t.report == Some(s.report.value.(status := COMPLETED, completedAt := Some(now),
                                                   overall := Some(Overall(x, None)))))
              && t.procs == s.procs[s.nextId := Publishing(COMPLETED)]
            else t == s
  {
    AfterInv(config, es);
  }

  /** From the threshold on a text delivery is not processed any more: a report that has no outcome and
      no text fails, and its failure is announced. An audio delivery never fails a report. */
  lemma ThresholdGivesUp(s: State, id: nat, count: nat, seen: Option<Report>, x: Input)
    requires id in s.procs && count >= s.config.threshold && s.report.Some?
    requires seen.Some? && !IsTerminal(seen.value.status)
    ensures s.procs[id] == TextRead(count, seen) && seen.value.textAt.None? && !IsTerminal(s.report.value.status) ==>
              var t := Step(s, Run(id, x));
              && t.report.Some? && t.report.value.status == FAILED && t.report.value.failedReason.Some?
              && t.procs == s.procs[id := Publishing(FAILED)]
    ensures s.procs[id] == AudioRead(count, seen) && seen.value.audioAt.None? ==>
              Step(s, Run(id, x)).report == s.report && Step(s, Run(id, x)).procs == s.procs - {id}
  {
  }

  /** An outcome that is to be announced is announced, unless publishing raises or the processor dies. */
  lemma OutcomeIsAnnounced(s: State, id: nat, status: Status, x: Input)
    requires id in s.procs && s.procs[id] == Publishing(status) && !x.raised
    ensures Step(s, Run(id, x)).events == s.events + [status]
  {
  }

  /** One undisturbed text delivery, with audio switched off: the report is made, announced as being
      processed, completed on the results and announced as completed. */
  lemma OneDeliveryCompletes(config: Config, x: Input)
    requires !config.audioOn && config.threshold > 1 && x.pairs && x.source && !x.raised
    ensures var r := Run(0, x);
            var s := After(config, [DeliverText(1), r, r, r, r, r, r]);
            && s.report.Some? && Verdict(s.report.value) == Outcome(x.text, AudioResults(None, []))
            && s.events == [PROCESSING, COMPLETED] && s.procs == map[]
  {
    var r := Run(0, x);
    var s := Step(Idle(config), DeliverText(1));
    assert After(config, [DeliverText(1)]) == s by { OneMore(config, [], DeliverText(1)); }
    var a := [DeliverText(1)];
    OneMore(config, a, r);
    OneMore(config, a + [r], r);
    OneMore(config, a + [r] + [r], r);
    var b := a + [r] + [r] + [r];
    assert After(config, b).procs[0] == TextAnnouncing(1)
           && After(config, b).report == Some(NewReport().(status := PROCESSING));
    OneMore(config, b, r);
    OneMore(config, b + [r], r);
    OneMore(config, b + [r] + [r], r);
    assert b + [r] + [r] + [r] == [DeliverText(1), r, r, r, r, r, r];
    assert x.text.tags + [] == x.text.tags;
  }
}
