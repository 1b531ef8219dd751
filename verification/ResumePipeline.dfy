/** The resume worker: storage statements and transactions, and the stages that run on them. */
module ResumePipeline {
  import opened Wrappers
  import opened ResumeIndex
  import Chunking

  /** The rows of one resume. */
  class ResumeStore {
    var status: Option<Status>
    var structured: Option<Chunking.StructuredData>
    var index: Chunking.Output

    constructor (resume: Resume)
      ensures View() == resume
    {
      status, structured, index := resume.status, resume.structured, resume.index;
    }

    function View(): Resume
      reads this
    {
      Resume(status, structured, index)
    }

    method TryTransition(from: Status, to: Status) returns (won: bool)
      modifies this`status
      ensures won <==> old(status) == Some(from)
      ensures status == if won then Some(to) else old(status)
    {
      if status != Some(from) { return false; }
      status := Some(to);
      return true;
    }

    /** An outcome that is already there is never overwritten. */
    method MarkFailed() returns (won: bool)
      modifies this`status
      ensures won <==> old(status).Some? && !IsTerminal(old(status).value)
      ensures status == if won then Some(FAILED) else old(status)
    {
      if status.None? || status in {Some(FAILED), Some(EMBEDDED)} { return false; }
      status := Some(FAILED);
      return true;
    }

    /** One transaction: the structured data is kept only if the transition is won. */
    method SaveStructuredAndAdvance(data: Chunking.StructuredData) returns (won: bool)
      modifies this
      ensures won <==> old(status) == Some(STRUCTURING)
      ensures View() == if won then old(View()).(status := Some(PARSED), structured := Some(data)) else old(View())
    {
      var before := structured;
      structured := Some(data);
      won := TryTransition(STRUCTURING, PARSED);
      if !won { structured := before; }
    }

    /** Delete, then insert; refused when the lengths do not match. */
    method ReplaceChunks(output: Chunking.Output, embedded: nat) returns (ok: bool)
      modifies this`index
      ensures ok <==> embedded == |output.chunks| && |output.extras| == |output.chunks|
      ensures index == if ok then output else old(index)
    {
      if |output.chunks| != embedded { return false; }
      if |output.extras| != |output.chunks| { return false; }
      index := Chunking.Output([], []);
      if output.chunks == [] { return true; }
      index := output;
      return true;
    }

    /** One transaction: the new chunks are kept only if the transition is won. */
    method CommitChunks(output: Chunking.Output, embedded: nat) returns (won: bool)
      modifies this
      ensures won <==> embedded == |output.chunks| && |output.extras| == |output.chunks| && old(status) == Some(EMBEDDING)
      ensures View() == if won then old(View()).(status := Some(EMBEDDED), index := output) else old(View())
    {
      var before := index;
      var ok := ReplaceChunks(output, embedded);
      if !ok { return false; }
      won := TryTransition(EMBEDDING, EMBEDDED);
      if !won { index := before; }
    }
  }

  class AnalysisWorker {
    const threshold: int
    const settings: Chunking.Settings
    const store: ResumeStore
    var procs: map<nat, Proc>
    var nextId: nat
    ghost var events: seq<Status>

    constructor (threshold: int, settings: Chunking.Settings, store: ResumeStore)
      ensures this.threshold == threshold && this.settings == settings && this.store == store
      ensures View() == Begin(ConfigFor(threshold, settings), store.View())
    {
      this.threshold, this.settings, this.store := threshold, settings, store;
      procs, nextId, events := map[], 0, [];
    }

    ghost function View(): State
      reads this, store
    {
      State(ConfigFor(threshold, settings), store.View(), procs, nextId, events)
    }

    method EnterStage(id: nat, from: Status, to: Status)
      modifies this, store
      ensures View() == Enter(old(View()), id, from, to)
    {
      var won := store.TryTransition(from, to);
      procs := if won then procs[id := Announcing(to)] else procs - {id};
    }

    method FailRun(id: nat)
      modifies this, store
      ensures View() == Fail(old(View()), id)
    {
      var won := store.MarkFailed();
      procs := if won then procs[id := Publishing(FAILED)] else procs - {id};
    }

    /** The status in the database decides where to enter; the mode is only checked against it. */
    method Route(id: nat, mode: Mode, seen: Option<Status>)
      modifies this, store
      ensures View() == RoutedSegment(old(View()), id, mode, seen)
    {
      if seen.None? { procs := procs - {id}; return; }
      if seen.value == EMBEDDED || seen.value == FAILED { procs := procs - {id}; return; }
      if seen.value == EMBEDDING { procs := procs[id := Announcing(EMBEDDING)]; return; }
      if seen.value == PARSED { EnterStage(id, PARSED, EMBEDDING); return; }
      if mode == REINDEX { FailRun(id); return; }
      EnterStage(id, seen.value, PARSING);
    }

    method StructureStage(id: nat, x: Input)
      requires id in procs && procs[id].StructuringText?
      modifies this, store
      ensures View() == Segment(old(View()), id, x)
    {
      if x.raised { procs := procs - {id}; return; }
      var won := store.SaveStructuredAndAdvance(x.data);
      procs := if won then procs[id := Announcing(PARSED)] else procs - {id};
    }

    method LoadStage(id: nat, x: Input)
      requires id in procs && procs[id].Loading?
      modifies this, store
      ensures View() == Segment(old(View()), id, x)
    {
      if store.structured.None? { FailRun(id); return; }
      procs := procs[id := Enriching(store.structured.value)];
    }

    method EnrichStage(id: nat, x: Input)
      requires id in procs && procs[id].Enriching?
      modifies this, store
      ensures View() == Segment(old(View()), id, x)
    {
      if x.raised { procs := procs - {id}; return; }
      var output := Chunking.BuildChunks(procs[id].data, x.enrichment, settings);
      procs := procs[id := EmbeddingChunks(procs[id].data, x.enrichment, output)];
    }

    method EmbedStage(id: nat, x: Input)
      requires id in procs && procs[id].EmbeddingChunks?
      modifies this, store
      ensures View() == Segment(old(View()), id, x)
    {
      if x.raised { procs := procs - {id}; return; }
      var won := store.CommitChunks(procs[id].output, x.embedded);
      procs := if won then procs[id := Publishing(EMBEDDED)] else procs - {id};
    }

    method Publish(id: nat, x: Input)
      requires id in procs && (procs[id].Announcing? || procs[id].Publishing?)
      modifies this
      ensures View() == Segment(old(View()), id, x)
    {
      var p := procs[id];
      if x.raised { procs := procs - {id}; return; }
      events := events + [p.status];
      procs := if p.Announcing? then procs[id := AfterAnnouncing(p.status)] else procs - {id};
    }

    method ExtractStage(id: nat, x: Input)
      requires id in procs && procs[id].Fetching?
      modifies this, store
      ensures View() == Segment(old(View()), id, x)
    {
      if x.raised { procs := procs - {id}; return; }
      if x.emptyText { FailRun(id); return; }
      EnterStage(id, TEXT_EXTRACTING, STRUCTURING);
    }

    method Wake(id: nat, x: Input)
      modifies this, store
      ensures View() == Step(old(View()), Run(id, x))
    {
      if id !in procs { return; }
      match procs[id]
      case Start(count, mode) =>
        if count >= threshold { FailRun(id); } else { procs := procs[id := Routed(mode, store.status)]; }
      case Routed(mode, seen) => Route(id, mode, seen);
      case Announcing(_) => Publish(id, x);
      case Extracting => EnterStage(id, PARSING, TEXT_EXTRACTING);
      case Fetching => ExtractStage(id, x);
      case StructuringText => StructureStage(id, x);
      case Entering => EnterStage(id, PARSED, EMBEDDING);
      case Loading => LoadStage(id, x);
      case Enriching(_) => EnrichStage(id, x);
      case EmbeddingChunks(_, _, _) => EmbedStage(id, x);
      case Publishing(_) => Publish(id, x);
    }

    method Handle(e: Event)
      modifies this, store
      ensures View() == Step(old(View()), e)
    {
      match e
      case Deliver(count, mode) => procs, nextId := procs[nextId := Start(count, mode)], nextId + 1;
      case Run(id, x) => Wake(id, x);
      case Die(id) => procs := procs - {id};
    }

    method HandleAll(es: seq<Event>)
      modifies this, store
      ensures View() == Exec(old(View()), es)
      ensures old(Inv(View())) ==> Inv(View())
    {
      for i := 0 to |es|
        invariant View() == Exec(old(View()), es[..i])
      {
        Handle(es[i]);
        assert es[..i + 1][..i] == es[..i];
      }
      assert es[..|es|] == es;
      if Inv(old(View())) { RunKeeps(old(View()), es); }
    }
  }
}
