/** Resume analysis: any number of processors over one status row, restarting, overtaking each
    other and dying, and the chunk table that has to agree with the structured data in the end. */
module ResumeIndex {
  import opened Wrappers
  import Chunking

  datatype Status = UPLOADED | PARSING | TEXT_EXTRACTING | STRUCTURING | PARSED | EMBEDDING | EMBEDDED | FAILED

  datatype Mode = FULL | REINDEX

  /** The status row, the structured data and the chunk table of one resume. */
  datatype Resume = Resume(
    status: Option<Status>,
    structured: Option<Chunking.StructuredData>,
    index: Chunking.Output)

  predicate IsTerminal(s: Status) {
    s == EMBEDDED || s == FAILED
  }

  function Rank(s: Option<Status>): nat {
    match s
    case None => 0
    case Some(PARSED) => 1
    case Some(EMBEDDING) => 2
    case Some(EMBEDDED) => 3
    case Some(FAILED) => 3
    case Some(_) => 0
  }

  /** A live processor and the suspension point it is at. */
  datatype Proc =
    | Start(count: nat, mode: Mode)
    | Routed(mode: Mode, seen: Option<Status>)
    | Announcing(status: Status)
    | Extracting
    | Fetching
    | StructuringText
    | Entering
    | Loading
    | Enriching(data: Chunking.StructuredData)
    | EmbeddingChunks(data: Chunking.StructuredData, enrichment: Chunking.Enrichment, output: Chunking.Output)
    | Publishing(status: Status)

  datatype Input = Input(
    raised: bool,                            // the awaited call raised for good
    emptyText: bool,
    data: Chunking.StructuredData,           // what the model structured
    enrichment: Chunking.Enrichment,
    embedded: nat)                           // how many embeddings came back

  /** How chunks and metadata are made of structured data and its enrichment. */
  type Build = (Chunking.StructuredData, Chunking.Enrichment) -> Chunking.Output

  datatype Config = Config(threshold: int, build: Build)

  /** The worker's own way, under its chunk settings. */
  function ConfigFor(threshold: int, settings: Chunking.Settings): Config {
    Config(threshold, (data, enrichment) => Chunking.Built(data, enrichment, settings))
  }

  datatype State = State(
    config: Config,
    resume: Resume,
    procs: map<nat, Proc>,
    nextId: nat,
    events: seq<Status>)                     // history: status events published

  datatype Event = Deliver(count: nat, mode: Mode) | Run(id: nat, input: Input) | Die(id: nat)

  // ------------------------------------------------------------------ statements and transactions

  function Put(s: State, id: nat, p: Proc): State {
    s.(procs := s.procs[id := p])
  }

  function Remove(s: State, id: nat): State {
    s.(procs := s.procs - {id})
  }

  /** CAS: only the processor that moves the status goes on; the others yield. */
  function Enter(s: State, id: nat, from: Status, to: Status): State {
    if s.resume.status == Some(from)
    then Put(s, id, Announcing(to)).(resume := s.resume.(status := Some(to)))
    else Remove(s, id)
  }

  function Fail(s: State, id: nat): State {
    if s.resume.status.None? || IsTerminal(s.resume.status.value) then Remove(s, id)
    else Put(s, id, Publishing(FAILED)).(resume := s.resume.(status := Some(FAILED)))
  }

  /** Structured data and PARSED, or neither. */
  function StoreStructured(s: State, id: nat, data: Chunking.StructuredData): State {
    if s.resume.status != Some(STRUCTURING) then Remove(s, id)
    else Put(s, id, Announcing(PARSED)).(resume := s.resume.(status := Some(PARSED), structured := Some(data)))
  }

  /** The chunk table and EMBEDDED, or neither; a wrong number of embeddings raises. */
  function StoreChunks(s: State, id: nat, output: Chunking.Output, embedded: nat): State {
    if embedded != |output.chunks| || |output.extras| != |output.chunks| then Remove(s, id)
    else if s.resume.status != Some(EMBEDDING) then Remove(s, id)
    else Put(s, id, Publishing(EMBEDDED)).(resume := s.resume.(status := Some(EMBEDDED), index := output))
  }

  // ------------------------------------------------------------------ segments

  function RoutedSegment(s: State, id: nat, mode: Mode, seen: Option<Status>): State {
    if seen.None? || IsTerminal(seen.value) then Remove(s, id)
    else if seen == Some(PARSED) then Enter(s, id, PARSED, EMBEDDING)
    else if seen == Some(EMBEDDING) then Put(s, id, Announcing(EMBEDDING))
    else if mode == REINDEX then Fail(s, id)
    else Enter(s, id, seen.value, PARSING)
  }

  /** After its event a stage goes on with its own work. */
  function AfterAnnouncing(status: Status): Proc {
    match status
    case PARSING => Extracting
    case TEXT_EXTRACTING => Fetching
    case STRUCTURING => StructuringText
    case PARSED => Entering
    case _ => Loading
  }

  function Segment(s: State, id: nat, x: Input): State
    requires id in s.procs
  {
    match s.procs[id]
    case Start(count, mode) =>
      if count >= s.config.threshold then Fail(s, id) else Put(s, id, Routed(mode, s.resume.status))
    case Routed(mode, seen) => RoutedSegment(s, id, mode, seen)
    case Announcing(status) =>
      if x.raised then Remove(s, id) else Put(s, id, AfterAnnouncing(status)).(events := s.events + [status])
    case Extracting => Enter(s, id, PARSING, TEXT_EXTRACTING)
    case Fetching =>
      if x.raised then Remove(s, id)
      else if x.emptyText then Fail(s, id)
      else Enter(s, id, TEXT_EXTRACTING, STRUCTURING)
    case StructuringText => if x.raised then Remove(s, id) else StoreStructured(s, id, x.data)
    case Entering => Enter(s, id, PARSED, EMBEDDING)
    case Loading =>
      if s.resume.structured.None? then Fail(s, id) else Put(s, id, Enriching(s.resume.structured.value))
    case Enriching(data) =>
      if x.raised then Remove(s, id)
      else Put(s, id, EmbeddingChunks(data, x.enrichment, s.config.build(data, x.enrichment)))
    case EmbeddingChunks(_, _, output) => if x.raised then Remove(s, id) else StoreChunks(s, id, output, x.embedded)
    case Publishing(status) => if x.raised then Remove(s, id) else Remove(s, id).(events := s.events + [status])
  }

  function Step(s: State, e: Event): State {
    match e
    case Deliver(count, mode) => s.(procs := s.procs[s.nextId := Start(count, mode)], nextId := s.nextId + 1)
    case Run(id, x) => if id in s.procs then Segment(s, id, x) else s
    case Die(id) => Remove(s, id)
  }

  function Exec(s: State, es: seq<Event>): State {
    if es == [] then s else Step(Exec(s, es[..|es| - 1]), es[|es| - 1])
  }

  function Begin(config: Config, resume: Resume): State {
    State(config, resume, map[], 0, [])
  }

  // ------------------------------------------------------------------ the invariant

  /** The chunk table is what some enrichment makes of the stored structured data. */
  ghost predicate Agrees(r: Resume, k: Build) {
    r.structured.Some? && exists e :: r.index == k(r.structured.value, e)
  }

  /** What a processor knows from its place in the code. */
  ghost predicate ProcOk(p: Proc, r: Resume, k: Build) {
    match p
    case Routed(_, seen) => Rank(seen) <= Rank(r.status) && (seen.Some? ==> r.status.Some?)
    case Announcing(status) =>
      !IsTerminal(status) && status != UPLOADED && (status == EMBEDDING ==> Rank(r.status) >= 2)
    case Loading => Rank(r.status) >= 2
    case Enriching(data) => Rank(r.status) >= 2 && r.structured == Some(data)
    case EmbeddingChunks(data, e, output) =>
      Rank(r.status) >= 2 && r.structured == Some(data) && output == k(data, e)
    case Publishing(status) => IsTerminal(status) && r.status == Some(status)
    case _ => true
  }

  ghost predicate ProcsInv(procs: map<nat, Proc>, r: Resume, k: Build, nextId: nat) {
    && (forall id | id in procs :: id < nextId)
    && (forall id | id in procs :: ProcOk(procs[id], r, k))
  }

  function TerminalEvents(events: seq<Status>): nat {
    if events == [] then 0
    else TerminalEvents(events[..|events| - 1]) + (if IsTerminal(events[|events| - 1]) then 1 else 0)
  }

  ghost predicate HasPublisher(procs: map<nat, Proc>) {
    exists id :: id in procs && procs[id].Publishing?
  }

  ghost predicate EventsInv(procs: map<nat, Proc>, status: Option<Status>, events: seq<Status>) {
    && (forall i, j | i in procs && j in procs && procs[i].Publishing? && procs[j].Publishing? :: i == j)
    && (HasPublisher(procs) ==> TerminalEvents(events) == 0)
    && TerminalEvents(events) <= 1
    && (forall e | e in events && IsTerminal(e) :: status == Some(e))
    && (status.None? || !IsTerminal(status.value) ==> TerminalEvents(events) == 0)
  }

  ghost predicate Inv(s: State) {
    && ProcsInv(s.procs, s.resume, s.config.build, s.nextId)
    && EventsInv(s.procs, s.resume.status, s.events)
    && (s.resume.status == Some(EMBEDDED) ==> Agrees(s.resume, s.config.build))
  }

  /** How the rows of a resume may change in one step. */
  ghost predicate Advances(r: Resume, q: Resume, k: Build) {
    && Rank(r.status) <= Rank(q.status) && (r.status.Some? <==> q.status.Some?)
    && (r.status.Some? && IsTerminal(r.status.value) ==> q.status == r.status)
    && (q.structured != r.structured ==> r.status == Some(STRUCTURING) && q.status == Some(PARSED))
    && (q.index != r.index ==> r.status == Some(EMBEDDING) && q.status == Some(EMBEDDED))
    && (r.status == Some(EMBEDDING) && q.status == Some(EMBEDDED) ==> Agrees(q, k))
  }

  // ------------------------------------------------------------------ every step keeps it

  lemma OtherProcsStay(procs: map<nat, Proc>, r: Resume, q: Resume, k: Build, id: nat)
    requires forall i | i in procs && i != id :: ProcOk(procs[i], r, k)
    requires Advances(r, q, k)
    ensures forall i | i in procs && i != id :: ProcOk(procs[i], q, k)
  {
    forall i | i in procs && i != id
      ensures ProcOk(procs[i], q, k)
    {
      assert ProcOk(procs[i], r, k);
    }
  }

  lemma {:induction false} NoTerminalEvent(events: seq<Status>)
    requires TerminalEvents(events) == 0
    ensures forall e | e in events :: !IsTerminal(e)
  {
    if events != [] {
      NoTerminalEvent(events[..|events| - 1]);
      assert events == events[..|events| - 1] + [events[|events| - 1]];
    }
  }

  lemma CountOne(events: seq<Status>, e: Status)
    ensures TerminalEvents(events + [e]) == TerminalEvents(events) + (if IsTerminal(e) then 1 else 0)
  {
    assert (events + [e])[..|events|] == events;
  }

  lemma NobodyPublishes(s: State)
    requires Inv(s) && s.resume.status.Some? && !IsTerminal(s.resume.status.value)
    ensures forall i | i in s.procs :: !s.procs[i].Publishing?
    ensures forall e | e in s.events :: !IsTerminal(e)
  {
    forall i | i in s.procs
      ensures !s.procs[i].Publishing?
    {
      assert ProcOk(s.procs[i], s.resume, s.config.build);
    }
    NoTerminalEvent(s.events);
  }

  lemma RemoveKeeps(s: State, id: nat)
    requires Inv(s)
    ensures Inv(Remove(s, id))
  {
  }

  lemma PutKeeps(s: State, id: nat, p: Proc)
    requires Inv(s) && id in s.procs && ProcOk(p, s.resume, s.config.build) && !p.Publishing?
    ensures Inv(Put(s, id, p))
  {
    var t := s.procs[id := p];
    if HasPublisher(t) {
      var i :| i in t && t[i].Publishing?;
      assert i in s.procs && s.procs[i].Publishing?;
    }
  }

  /** A statement that moved the status: its processor goes on, nobody else was at the end. */
  lemma MoveKeeps(s: State, id: nat, q: Resume, p: Proc)
    requires Inv(s) && id in s.procs && s.resume.status.Some? && !IsTerminal(s.resume.status.value)
    requires Advances(s.resume, q, s.config.build) && ProcOk(p, q, s.config.build)
    requires p.Publishing? <==> q.status.Some? && IsTerminal(q.status.value)
    requires q.status == Some(EMBEDDED) ==> Agrees(q, s.config.build)
    ensures Inv(Put(s, id, p).(resume := q))
  {
    NobodyPublishes(s);
    OtherProcsStay(s.procs, s.resume, q, s.config.build, id);
  }

  lemma EnterKeeps(s: State, id: nat, from: Status, to: Status)
    requires Inv(s) && id in s.procs && !IsTerminal(from) && !IsTerminal(to)
    requires Rank(Some(from)) <= Rank(Some(to)) && to != PARSED && to != UPLOADED
    ensures Inv(Enter(s, id, from, to)) && Advances(s.resume, Enter(s, id, from, to).resume, s.config.build)
  {
    RemoveKeeps(s, id);
    if s.resume.status == Some(from) { MoveKeeps(s, id, s.resume.(status := Some(to)), Announcing(to)); }
  }

  lemma FailKeeps(s: State, id: nat)
    requires Inv(s) && id in s.procs
    ensures Inv(Fail(s, id)) && Advances(s.resume, Fail(s, id).resume, s.config.build)
  {
    RemoveKeeps(s, id);
    if s.resume.status.Some? && !IsTerminal(s.resume.status.value) {
      MoveKeeps(s, id, s.resume.(status := Some(FAILED)), Publishing(FAILED));
    }
  }

  lemma StoreStructuredKeeps(s: State, id: nat, data: Chunking.StructuredData)
    requires Inv(s) && id in s.procs
    ensures Inv(StoreStructured(s, id, data))
    ensures Advances(s.resume, StoreStructured(s, id, data).resume, s.config.build)
  {
    RemoveKeeps(s, id);
    if s.resume.status == Some(STRUCTURING) {
      MoveKeeps(s, id, s.resume.(status := Some(PARSED), structured := Some(data)), Announcing(PARSED));
    }
  }

  lemma StoreChunksKeeps(s: State, id: nat, embedded: nat)
    requires Inv(s) && id in s.procs && s.procs[id].EmbeddingChunks?
    ensures Inv(StoreChunks(s, id, s.procs[id].output, embedded))
    ensures Advances(s.resume, StoreChunks(s, id, s.procs[id].output, embedded).resume, s.config.build)
  {
    var output := s.procs[id].output;
    assert ProcOk(s.procs[id], s.resume, s.config.build);
    RemoveKeeps(s, id);
    if embedded == |output.chunks| && |output.extras| == |output.chunks| && s.resume.status == Some(EMBEDDING) {
      var q := s.resume.(status := Some(EMBEDDED), index := output);
      assert Agrees(q, s.config.build);
      MoveKeeps(s, id, q, Publishing(EMBEDDED));
    }
  }

  lemma AnnounceKeeps(s: State, id: nat, x: Input)
    requires Inv(s) && id in s.procs && s.procs[id].Announcing?
    ensures Inv(Segment(s, id, x)) && Segment(s, id, x).resume == s.resume
  {
    assert ProcOk(s.procs[id], s.resume, s.config.build);
    RemoveKeeps(s, id);
    CountOne(s.events, s.procs[id].status);
    PutKeeps(s, id, AfterAnnouncing(s.procs[id].status));
  }

  lemma PublishKeeps(s: State, id: nat, x: Input)
    requires Inv(s) && id in s.procs && s.procs[id].Publishing?
    ensures Inv(Segment(s, id, x)) && Segment(s, id, x).resume == s.resume
  {
    assert ProcOk(s.procs[id], s.resume, s.config.build);
    RemoveKeeps(s, id);
    assert HasPublisher(s.procs);
    CountOne(s.events, s.procs[id].status);
    assert !HasPublisher(s.procs - {id});
  }

  lemma RoutedKeeps(s: State, id: nat)
    requires Inv(s) && id in s.procs && s.procs[id].Routed?
    ensures var t := RoutedSegment(s, id, s.procs[id].mode, s.procs[id].seen);
            Inv(t) && Advances(s.resume, t.resume, s.config.build)
  {
    var mode, seen := s.procs[id].mode, s.procs[id].seen;
    assert ProcOk(s.procs[id], s.resume, s.config.build);
    RemoveKeeps(s, id);
    if seen.Some? && !IsTerminal(seen.value) {
      if seen == Some(PARSED) {
        EnterKeeps(s, id, PARSED, EMBEDDING);
      } else if seen == Some(EMBEDDING) {
        PutKeeps(s, id, Announcing(EMBEDDING));
      } else if mode == REINDEX {
        FailKeeps(s, id);
      } else {
        EnterKeeps(s, id, seen.value, PARSING);
      }
    }
  }

  lemma EmbeddingStageKeeps(s: State, id: nat, x: Input)
    requires Inv(s) && id in s.procs
    requires s.procs[id].Loading? || s.procs[id].Enriching? || s.procs[id].EmbeddingChunks?
    ensures Inv(Segment(s, id, x)) && Advances(s.resume, Segment(s, id, x).resume, s.config.build)
  {
    assert ProcOk(s.procs[id], s.resume, s.config.build);
    RemoveKeeps(s, id);
    match s.procs[id]
    case Loading =>
      if s.resume.structured.None? { FailKeeps(s, id); } else { PutKeeps(s, id, Enriching(s.resume.structured.value)); }
    case Enriching(data) =>
      PutKeeps(s, id, EmbeddingChunks(data, x.enrichment, s.config.build(data, x.enrichment)));
    case EmbeddingChunks(_, _, _) => StoreChunksKeeps(s, id, x.embedded);
  }

  lemma SegmentKeeps(s: State, id: nat, x: Input)
    requires Inv(s) && id in s.procs
    ensures Inv(Segment(s, id, x)) && Advances(s.resume, Segment(s, id, x).resume, s.config.build)
  {
    RemoveKeeps(s, id);
    match s.procs[id]
    case Start(count, mode) =>
      FailKeeps(s, id);
      PutKeeps(s, id, Routed(mode, s.resume.status));
    case Routed(_, _) => RoutedKeeps(s, id);
    case Announcing(_) => AnnounceKeeps(s, id, x);
    case Extracting => EnterKeeps(s, id, PARSING, TEXT_EXTRACTING);
    case Fetching =>
      FailKeeps(s, id);
      EnterKeeps(s, id, TEXT_EXTRACTING, STRUCTURING);
    case StructuringText => StoreStructuredKeeps(s, id, x.data);
    case Entering => EnterKeeps(s, id, PARSED, EMBEDDING);
    case Publishing(_) => PublishKeeps(s, id, x);
    case _ => EmbeddingStageKeeps(s, id, x);
  }

  lemma DeliverKeeps(s: State, count: nat, mode: Mode)
    requires Inv(s)
    ensures Inv(Step(s, Deliver(count, mode)))
  {
    var t := Step(s, Deliver(count, mode)).procs;
    if HasPublisher(t) {
      var i :| i in t && t[i].Publishing?;
      assert i in s.procs && s.procs[i].Publishing?;
    }
  }

  /** Every step: the rank never falls, the end is final, the structured data changes only on the
      way from STRUCTURING to PARSED, the chunk table only on entering EMBEDDED. */
  lemma StepKeeps(s: State, e: Event)
    requires Inv(s)
    ensures Inv(Step(s, e)) && Advances(s.resume, Step(s, e).resume, s.config.build)
  {
    match e
    case Deliver(count, mode) => DeliverKeeps(s, count, mode);
    case Run(id, x) => if id in s.procs { SegmentKeeps(s, id, x); }
    case Die(id) => RemoveKeeps(s, id);
  }

  lemma ConfigKept(s: State, e: Event)
    ensures Step(s, e).config == s.config
  {
  }

  lemma {:induction false} RunKeeps(s: State, es: seq<Event>)
    requires Inv(s)
    ensures Inv(Exec(s, es)) && Exec(s, es).config == s.config
    ensures Rank(s.resume.status) <= Rank(Exec(s, es).resume.status)
    ensures s.resume.status.Some? && IsTerminal(s.resume.status.value) ==> Exec(s, es).resume == s.resume
  {
    if es != [] {
      RunKeeps(s, es[..|es| - 1]);
      StepKeeps(Exec(s, es[..|es| - 1]), es[|es| - 1]);
      ConfigKept(Exec(s, es[..|es| - 1]), es[|es| - 1]);
    }
  }

  // ------------------------------------------------------------------ theorems

  /** A resume before analysis: uploaded, or set to EMBEDDING by a reindex, or whatever an earlier
      run left, as long as a finished index agrees with its data. */
  ghost predicate Startable(config: Config, r: Resume) {
    r.status == Some(EMBEDDED) ==> Agrees(r, config.build)
  }

  /** However many processors race, restart, overtake each other and die: an EMBEDDED resume has the
      chunks some enrichment makes of exactly the structured data that is stored. */
  lemma IndexAgrees(config: Config, r: Resume, es: seq<Event>)
    requires Startable(config, r)
    ensures var t := Exec(Begin(config, r), es).resume;
            t.status == Some(EMBEDDED) ==>
              t.structured.Some? && exists e :: t.index == config.build(t.structured.value, e)
  {
    RunKeeps(Begin(config, r), es);
  }

  /** In particular the worker's own: as many metadata records as chunks. */
  lemma WorkerIndexAgrees(threshold: int, settings: Chunking.Settings, r: Resume, es: seq<Event>)
    requires Startable(ConfigFor(threshold, settings), r)
    ensures var t := Exec(Begin(ConfigFor(threshold, settings), r), es).resume;
            t.status == Some(EMBEDDED) ==>
              && t.structured.Some? && |t.index.chunks| == |t.index.extras|
              && exists e :: t.index == Chunking.Built(t.structured.value, e, settings)
  {
    IndexAgrees(ConfigFor(threshold, settings), r, es);
    var t := Exec(Begin(ConfigFor(threshold, settings), r), es).resume;
    if t.status == Some(EMBEDDED) {
      var e :| t.index == ConfigFor(threshold, settings).build(t.structured.value, e);
      Chunking.ChunksHaveExtras(t.structured.value, e, settings);
    }
  }

  /** The outcome is announced at most once, truthfully, and is final: status, structured data and
      chunk table stay as they are. */
  lemma OutcomeIsFinal(config: Config, r: Resume, es: seq<Event>, more: seq<Event>)
    requires Startable(config, r)
    ensures var s := Exec(Begin(config, r), es);
            && TerminalEvents(s.events) <= 1
            && (forall e | e in s.events && IsTerminal(e) :: s.resume.status == Some(e))
            && (s.resume.status.Some? && IsTerminal(s.resume.status.value) ==> Exec(s, more).resume == s.resume)
  {
    RunKeeps(Begin(config, r), es);
    RunKeeps(Exec(Begin(config, r), es), more);
  }
}
