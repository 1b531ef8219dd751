/** What a resume processor achieves: where it gets to from every status, and that the index it leaves is
    made of what the model gave in this very run. */
module ResumeProgress {
  import opened Wrappers
  import opened ResumeIndex
  import Chunking

  // ------------------------------------------------------------------ one processor, undisturbed

  /** The next n segments of one processor, each with the same answers from outside. */
  function Runs(s: State, id: nat, x: Input, n: nat): State {
    if n == 0 then s else Step(Runs(s, id, x, n - 1), Run(id, x))
  }

  lemma After(s: State, id: nat, x: Input, n: nat) returns (t: State)
    ensures t == Runs(s, id, x, n + 1) == Step(Runs(s, id, x, n), Run(id, x))
  {
    t := Runs(s, id, x, n + 1);
  }

  lemma {:induction false} RunsSplit(s: State, id: nat, x: Input, m: nat, n: nat)
    ensures Runs(s, id, x, m + n) == Runs(Runs(s, id, x, m), id, x, n)
  {
    if n > 0 { RunsSplit(s, id, x, m, n - 1); }
  }

  /** The processor gets there by itself. */
  ghost predicate Alone(s: State, id: nat, x: Input, t: State) {
    exists n :: t == Runs(s, id, x, n)
  }

  lemma AloneAgain(s: State, id: nat, x: Input, t: State, u: State)
    requires Alone(s, id, x, t) && Alone(t, id, x, u)
    ensures Alone(s, id, x, u)
  {
    var m :| t == Runs(s, id, x, m);
    var n :| u == Runs(t, id, x, n);
    RunsSplit(s, id, x, m, n);
  }

  /** A status from which the analysis begins at its beginning. */
  predicate IsEarly(s: Status) {
    s == UPLOADED || s == PARSING || s == TEXT_EXTRACTING || s == STRUCTURING
  }

  /** Nothing raises, and the embeddings are as many as the chunks. */
  ghost predicate Works(config: Config, data: Chunking.StructuredData, x: Input) {
    && !x.raised
    && var o := config.build(data, x.enrichment); x.embedded == |o.chunks| == |o.extras|
  }

  ghost predicate At(s: State, id: nat, p: Proc, status: Status) {
    id in s.procs && s.procs[id] == p && s.resume.status == Some(status)
  }

  /** Two states that differ in one processor, the status and the events only. */
  ghost predicate Moved(s: State, t: State, status: Status, events: seq<Status>) {
    t.config == s.config && t.resume == s.resume.(status := Some(status)) && t.events == s.events + events
  }

  /** From the message to the text of the file. */
  lemma TextIsFetched(s: State, id: nat, count: nat, status: Status, x: Input) returns (t: State)
    requires At(s, id, Start(count, FULL), status) && IsEarly(status)
    requires count < s.config.threshold && !x.raised
    ensures Alone(s, id, x, t)
    ensures At(t, id, Fetching, TEXT_EXTRACTING) && Moved(s, t, TEXT_EXTRACTING, [PARSING, TEXT_EXTRACTING])
  {
    var a := After(s, id, x, 0);
    assert At(a, id, Routed(FULL, Some(status)), status) && Moved(s, a, status, []);
    var b := After(s, id, x, 1);
    assert At(b, id, Announcing(PARSING), PARSING) && Moved(s, b, PARSING, []);
    var c := After(s, id, x, 2);
    assert At(c, id, Extracting, PARSING) && Moved(s, c, PARSING, [PARSING]);
    var d := After(s, id, x, 3);
    assert At(d, id, Announcing(TEXT_EXTRACTING), TEXT_EXTRACTING) && Moved(s, d, TEXT_EXTRACTING, [PARSING]);
    t := After(s, id, x, 4);
  }

  /** From the text to the structured data. */
  lemma DataIsStored(s: State, id: nat, x: Input) returns (t: State)
    requires At(s, id, Fetching, TEXT_EXTRACTING) && !x.raised && !x.emptyText
    ensures Alone(s, id, x, t)
    ensures At(t, id, Entering, PARSED) && t.config == s.config
            && t.resume == s.resume.(status := Some(PARSED), structured := Some(x.data))
            && t.events == s.events + [STRUCTURING, PARSED]
  {
    var a := After(s, id, x, 0);
    assert At(a, id, Announcing(STRUCTURING), STRUCTURING) && Moved(s, a, STRUCTURING, []);
    var b := After(s, id, x, 1);
    assert At(b, id, StructuringText, STRUCTURING) && Moved(s, b, STRUCTURING, [STRUCTURING]);
    var c := After(s, id, x, 2);
    assert At(c, id, Announcing(PARSED), PARSED) && c.events == s.events + [STRUCTURING];
    t := After(s, id, x, 3);
  }

  /** From the structured data to the index: announce, load, enrich, embed, store, publish. */
  lemma ChunksAreStored(s: State, id: nat, data: Chunking.StructuredData, x: Input) returns (t: State)
    requires At(s, id, Announcing(EMBEDDING), EMBEDDING) && s.resume.structured == Some(data)
    requires Works(s.config, data, x)
    ensures Alone(s, id, x, t)
    ensures id !in t.procs && t.config == s.config
            && t.resume == s.resume.(status := Some(EMBEDDED), index := s.config.build(data, x.enrichment))
            && t.events == s.events + [EMBEDDING, EMBEDDED]
  {
    var o := s.config.build(data, x.enrichment);
    var a := After(s, id, x, 0);
    assert At(a, id, Loading, EMBEDDING) && Moved(s, a, EMBEDDING, [EMBEDDING]);
    var b := After(s, id, x, 1);
    assert At(b, id, Enriching(data), EMBEDDING) && Moved(s, b, EMBEDDING, [EMBEDDING]);
    var c := After(s, id, x, 2);
    assert At(c, id, EmbeddingChunks(data, x.enrichment, o), EMBEDDING) && Moved(s, c, EMBEDDING, [EMBEDDING]);
    var d := After(s, id, x, 3);
    assert At(d, id, Publishing(EMBEDDED), EMBEDDED) && d.events == s.events + [EMBEDDING];
    assert d.resume == s.resume.(status := Some(EMBEDDED), index := o);
    t := After(s, id, x, 4);
  }

  lemma DataIsIndexed(s: State, id: nat, data: Chunking.StructuredData, x: Input) returns (t: State)
    requires At(s, id, Entering, PARSED) && s.resume.structured == Some(data) && Works(s.config, data, x)
    ensures Alone(s, id, x, t)
    ensures id !in t.procs && t.resume == Resume(Some(EMBEDDED), Some(data), s.config.build(data, x.enrichment))
            && t.events == s.events + [EMBEDDING, EMBEDDED]
  {
    var a := After(s, id, x, 0);
    assert At(a, id, Announcing(EMBEDDING), EMBEDDING) && Moved(s, a, EMBEDDING, []);
    t := ChunksAreStored(a, id, data, x);
    AloneAgain(s, id, x, a, t);
  }

  /** An undisturbed analysis ends with the index of exactly the data the model structured, under the
      enrichment it gave, and announces every status on the way; also when an earlier processor gave up
      somewhere before PARSED. */
  lemma AnalysisFinishes(s: State, id: nat, count: nat, status: Status, x: Input) returns (t: State)
    requires At(s, id, Start(count, FULL), status) && IsEarly(status) && count < s.config.threshold
    requires Works(s.config, x.data, x) && !x.emptyText
    ensures Alone(s, id, x, t)
    ensures id !in t.procs && t.resume == Resume(Some(EMBEDDED), Some(x.data), s.config.build(x.data, x.enrichment))
            && t.events == s.events + [PARSING, TEXT_EXTRACTING, STRUCTURING, PARSED, EMBEDDING, EMBEDDED]
  {
    var a := TextIsFetched(s, id, count, status, x);
    var b := DataIsStored(a, id, x);
    AloneAgain(s, id, x, a, b);
    t := DataIsIndexed(b, id, x.data, x);
    AloneAgain(s, id, x, b, t);
  }

  /** From PARSED or EMBEDDING on the stored data is used, not structured again, in both modes. */
  lemma IndexingResumes(s: State, id: nat, count: nat, mode: Mode, status: Status, x: Input) returns (t: State)
    requires At(s, id, Start(count, mode), status) && (status == PARSED || status == EMBEDDING)
    requires count < s.config.threshold && s.resume.structured.Some? && Works(s.config, s.resume.structured.value, x)
    ensures Alone(s, id, x, t)
    ensures var data := s.resume.structured.value;
            && id !in t.procs && t.resume == Resume(Some(EMBEDDED), Some(data), s.config.build(data, x.enrichment))
            && t.events == s.events + [EMBEDDING, EMBEDDED]
  {
    var r := After(s, id, x, 0);
    assert At(r, id, Routed(mode, Some(status)), status) && Moved(s, r, status, []);
    var a := After(s, id, x, 1);
    assert At(a, id, Announcing(EMBEDDING), EMBEDDING) && Moved(s, a, EMBEDDING, []);
    t := ChunksAreStored(a, id, s.resume.structured.value, x);
    AloneAgain(s, id, x, a, t);
  }

  /** What makes a processor give the resume up: too many deliveries; a reindex of a resume that has no
      structured data yet; a file without text; a resume on EMBEDDING without structured data. */
  ghost predicate GivesUp(s: State, id: nat, x: Input) {
    && id in s.procs
    && match s.procs[id]
       case Start(count, _) => count >= s.config.threshold
       case Routed(mode, seen) => mode == REINDEX && seen.Some? && IsEarly(seen.value)
       case Fetching => !x.raised && x.emptyText
       case Loading => s.resume.structured.None?
       case _ => false
  }

  /** Then the resume is FAILED and that is announced, unless it has an outcome already; and nothing but
      giving up ever makes it FAILED. */
  lemma FailedIffGivenUp(s: State, id: nat, x: Input, y: Input)
    requires s.resume.status.Some? && !IsTerminal(s.resume.status.value) && id in s.procs
    ensures Step(s, Run(id, x)).resume.status == Some(FAILED) <==> GivesUp(s, id, x)
    ensures GivesUp(s, id, x) && !y.raised ==>
              var t := Step(Step(s, Run(id, x)), Run(id, y));
              t.resume == s.resume.(status := Some(FAILED)) && t.events == s.events + [FAILED] && id !in t.procs
  {
  }

  // ------------------------------------------------------------------ where the stored data comes from

  ghost predicate GaveData(es: seq<Event>, data: Chunking.StructuredData) {
    exists i :: 0 <= i < |es| && es[i].Run? && es[i].input.data == data
  }

  ghost predicate GaveEnrichment(es: seq<Event>, e: Chunking.Enrichment) {
    exists i :: 0 <= i < |es| && es[i].Run? && es[i].input.enrichment == e
  }

  lemma KeptData(es: seq<Event>, e: Event, data: Chunking.StructuredData)
    requires GaveData(es, data) || (e.Run? && e.input.data == data)
    ensures GaveData(es + [e], data)
  {
    assert (es + [e])[|es|] == e;
    if i :| 0 <= i < |es| && es[i].Run? && es[i].input.data == data { assert (es + [e])[i] == es[i]; }
  }

  lemma KeptEnrichment(es: seq<Event>, e: Event, k: Chunking.Enrichment)
    requires GaveEnrichment(es, k) || (e.Run? && e.input.enrichment == k)
    ensures GaveEnrichment(es + [e], k)
  {
    assert (es + [e])[|es|] == e;
    if i :| 0 <= i < |es| && es[i].Run? && es[i].input.enrichment == k { assert (es + [e])[i] == es[i]; }
  }

  ghost predicate ProcGiven(p: Proc, es: seq<Event>) {
    p.EmbeddingChunks? ==> GaveEnrichment(es, p.enrichment)
  }

  /** The stored data was there before or given by the model in this run; the index of a resume that
      became EMBEDDED in it was made under an enrichment that was given in it. */
  ghost predicate Given(start: Resume, s: State, es: seq<Event>) {
    && (forall id | id in s.procs :: ProcGiven(s.procs[id], es))
    && (s.resume.structured == start.structured
        || (s.resume.structured.Some? && GaveData(es, s.resume.structured.value)))
    && (s.resume.status == Some(EMBEDDED) && start.status != Some(EMBEDDED) ==> MadeOf(s.resume, s.config.build, es))
  }

  ghost predicate MadeOf(r: Resume, k: Build, es: seq<Event>) {
    r.structured.Some? && exists e :: GaveEnrichment(es, e) && r.index == k(r.structured.value, e)
  }

  lemma MadeLater(r: Resume, k: Build, es: seq<Event>, e: Event)
    requires MadeOf(r, k, es)
    ensures MadeOf(r, k, es + [e])
  {
    var x :| GaveEnrichment(es, x) && r.index == k(r.structured.value, x);
    KeptEnrichment(es, e, x);
  }

  lemma EnrichmentTaken(s: State, e: Event, id: nat)
    requires id in Step(s, e).procs && Step(s, e).procs[id].EmbeddingChunks?
    ensures || (id in s.procs && Step(s, e).procs[id] == s.procs[id])
            || (e.Run? && Step(s, e).procs[id].enrichment == e.input.enrichment)
  {
  }

  lemma DataTaken(s: State, e: Event)
    ensures var r := Step(s, e).resume; r.structured == s.resume.structured || (e.Run? && r.structured == Some(e.input.data))
  {
  }

  lemma IndexTaken(s: State, e: Event)
    requires Step(s, e).resume.status == Some(EMBEDDED) && s.resume.status != Some(EMBEDDED)
    ensures e.Run? && e.id in s.procs && s.procs[e.id].EmbeddingChunks?
    ensures Step(s, e).resume == s.resume.(status := Some(EMBEDDED), index := s.procs[e.id].output)
  {
  }

  lemma GivenStep(start: Resume, s: State, es: seq<Event>, e: Event)
    requires Inv(s) && Given(start, s, es)
    ensures Given(start, Step(s, e), es + [e])
  {
    var t, all := Step(s, e), es + [e];
    DataTaken(s, e);
    StepKeeps(s, e);
    ConfigKept(s, e);
    forall i | i in t.procs
      ensures ProcGiven(t.procs[i], all)
    {
      if t.procs[i].EmbeddingChunks? {
        EnrichmentTaken(s, e, i);
        KeptEnrichment(es, e, t.procs[i].enrichment);
      }
    }
    if t.resume.structured != start.structured { KeptData(es, e, t.resume.structured.value); }
    if t.resume.status == Some(EMBEDDED) && start.status != Some(EMBEDDED) {
      if s.resume.status == Some(EMBEDDED) {
        MadeLater(s.resume, s.config.build, es, e);
      } else {
        IndexTaken(s, e);
        StoredIsMade(start, s, es, e);
      }
    }
  }

  lemma StoredIsMade(start: Resume, s: State, es: seq<Event>, e: Event)
    requires Inv(s) && Given(start, s, es)
    requires e.Run? && e.id in s.procs && s.procs[e.id].EmbeddingChunks?
    ensures MadeOf(s.resume.(index := s.procs[e.id].output), s.config.build, es + [e])
  {
    var p := s.procs[e.id];
    assert ProcOk(p, s.resume, s.config.build) && ProcGiven(p, es);
    KeptEnrichment(es, e, p.enrichment);
  }

  lemma {:induction false} RunIsGiven(config: Config, r: Resume, es: seq<Event>)
    requires Startable(config, r)
    ensures Given(r, Exec(Begin(config, r), es), es) && Inv(Exec(Begin(config, r), es))
    ensures Exec(Begin(config, r), es).config == config
  {
    RunKeeps(Begin(config, r), es);
    if es != [] {
      var front, e := es[..|es| - 1], es[|es| - 1];
      RunIsGiven(config, r, front);
      GivenStep(r, Exec(Begin(config, r), front), front, e);
      assert es == front + [e];
    }
  }

  /** Nothing in the index is made up: whoever races and dies, the structured data is what was there or
      what the model structured in this run, and a resume that becomes EMBEDDED has the chunks of that
      data under an enrichment the model gave in this run. */
  lemma IndexIsOfThisRun(config: Config, r: Resume, es: seq<Event>)
    requires r.status != Some(EMBEDDED)
    ensures var t := Exec(Begin(config, r), es).resume;
            && (t.structured != r.structured ==> t.structured.Some? && GaveData(es, t.structured.value))
            && (t.status == Some(EMBEDDED) ==>
                  && t.structured.Some?
                  && exists e :: GaveEnrichment(es, e) && t.index == config.build(t.structured.value, e))
  {
    RunIsGiven(config, r, es);
  }
}
