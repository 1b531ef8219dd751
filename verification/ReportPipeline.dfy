/** The report worker: its processors, one segment a method, over the report table. */
module ReportPipeline {
  import opened Wrappers
  import opened ReportRepository
  import opened ReportProtocol

  class ReportWorker {
    const config: Config
    const table: ReportTable
    var procs: map<nat, Proc>
    var nextId: nat
    ghost var events: seq<Status>
    ghost var late: bool

    constructor (config: Config, table: ReportTable)
      requires table.report.None?
      ensures this.config == config && this.table == table && View() == Idle(config)
    {
      this.config, this.table, procs, nextId, events, late := config, table, map[], 0, [], false;
    }

    ghost function View(): State
      reads this, table
    {
      State(config, table.report, procs, nextId, events, late)
    }

    method SpawnProc(p: Proc)
      modifies this`procs, this`nextId
      ensures View() == Spawn(old(View()), p)
    {
      procs, nextId := procs[nextId := p], nextId + 1;
    }

    /** A processor whose statement fixed the outcome goes on to publish it; the others are done. */
    method Outcome(id: nat, won: bool, status: Status)
      modifies this`procs
      ensures procs == if won then old(procs)[id := Publishing(status)] else old(procs) - {id}
    {
      procs := if won then procs[id := Publishing(status)] else procs - {id};
    }

    // ---------------------------------------------------------------- process_generation_request

    method GenerationRead(id: nat, x: Input)
      requires id in procs && procs[id].TextRead? && Inv(View())
      modifies this, table
      ensures View() == TextReadSegment(old(View()), id, old(procs[id].count), old(procs[id].seen), x)
    {
      var count, seen := procs[id].count, procs[id].seen;
      assert ProcOk(procs[id], table.report);
      if seen.Some? && IsTerminal(seen.value.status) { procs := procs - {id}; return; }
      if seen.Some? && seen.value.textAt.Some? {
        var won := table.TryComplete(config.audioOn, x.now);
        Outcome(id, won, COMPLETED);
        return;
      }
      if count >= config.threshold {
        GiveUp(id, seen);
        return;
      }
      if !x.pairs { procs := procs - {id}; return; }
      if seen.None? {
        if !x.source { procs := procs - {id}; return; }
        var created := table.CreateReportWithJob();
        procs := if created then procs[id := TextCreated(count)] else procs - {id};
        return;
      }
      GenerationEnter(id, count, seen.value.status);
    }

    method GiveUp(id: nat, seen: Option<Report>)
      requires seen.Some? ==> table.report.Some?
      modifies this, table
      ensures View() == GiveUpSegment(old(View()), id, seen)
    {
      if seen.None? { procs := procs - {id}; return; }
      var won := table.MarkFailed("redelivery threshold");
      Outcome(id, won, FAILED);
    }

    method GenerationEnter(id: nat, count: nat, status: Status)
      requires table.report.Some?
      modifies this, table
      ensures View() == EnterSegment(old(View()), id, count, status)
    {
      if status == PENDING {
        var won := table.TryTransition(PENDING, PROCESSING);
        procs := if won then procs[id := TextAnnouncing(count)] else procs - {id};
      } else if count <= 1 {
        procs := procs - {id};
      } else {
        procs := procs[id := Evaluating];
      }
    }

    method GenerationAnnounce(id: nat, x: Input)
      modifies this
      ensures View() == AnnounceSegment(old(View()), id, x)
    {
      if x.raised { procs := procs - {id}; return; }
      events := events + [PROCESSING];
      procs := procs[id := Evaluating];
    }

    /** Results and verdict in one transaction. */
    method GenerationStore(id: nat, x: Input)
      requires id in procs && procs[id].Evaluating? && Inv(View())
      modifies this, table
      ensures View() == EvaluatingSegment(old(View()), id, x)
    {
      assert ProcOk(procs[id], table.report);
      if x.raised { procs := procs - {id}; return; }
      late := late || IsTerminal(table.report.value.status);
      var ok := table.SaveTextResults(x.text, x.now);
      var won := table.TryComplete(config.audioOn, x.now);
      Outcome(id, won, COMPLETED);
    }

    // ---------------------------------------------------------------- process_audio_request

    method AudioReadRow(id: nat, x: Input)
      requires id in procs && procs[id].AudioRead? && Inv(View())
      modifies this, table
      ensures View() == AudioReadSegment(old(View()), id, old(procs[id].count), old(procs[id].seen), x)
    {
      var count, seen := procs[id].count, procs[id].seen;
      assert ProcOk(procs[id], table.report);
      if seen.Some? && IsTerminal(seen.value.status) { procs := procs - {id}; return; }
      if seen.Some? && seen.value.audioAt.Some? {
        var won := table.TryComplete(config.audioOn, x.now);
        Outcome(id, won, COMPLETED);
        return;
      }
      if count >= config.threshold { procs := procs - {id}; return; }
      if seen.None? { procs := procs - {id}; return; }
      procs := procs[id := Analysing];
    }

    method AudioStore(id: nat, x: Input)
      requires id in procs && procs[id].Analysing? && Inv(View())
      modifies this, table
      ensures View() == AnalysingSegment(old(View()), id, x)
    {
      assert ProcOk(procs[id], table.report);
      if x.raised { procs := procs - {id}; return; }
      var saved := table.SaveAudioResult(x.audio, x.now);
      var won := false;
      if saved { won := table.TryComplete(config.audioOn, x.now); }
      Outcome(id, won, COMPLETED);
    }

    // ---------------------------------------------------------------- publishing and the grace timer

    method Publish(id: nat, status: Status, x: Input)
      modifies this
      ensures View() == PublishSegment(old(View()), id, status, x)
    {
      procs := procs - {id};
      if !x.raised { events := events + [status]; }
    }

    method CompleteOverdueOnce(now: int)
      modifies this, table
      ensures View() == Step(old(View()), GracePoll(now))
    {
      if !config.audioOn { return; }
      var won := table.CompleteOverdueAudio(config.grace, now);
      if won { SpawnProc(Publishing(COMPLETED)); }
    }

    // ---------------------------------------------------------------- running

    method Wake(id: nat, x: Input)
      requires Inv(View())
      modifies this, table
      ensures View() == Step(old(View()), Run(id, x))
    {
      if id !in procs { return; }
      assert ProcOk(procs[id], table.report);
      match procs[id]
      case TextStart(count) => procs := procs[id := TextRead(count, table.report)];
      case TextRead(_, _) => GenerationRead(id, x);
      case TextCreated(count) => GenerationEnter(id, count, PENDING);
      case TextAnnouncing(_) => GenerationAnnounce(id, x);
      case Evaluating => GenerationStore(id, x);
      case AudioStart(count) => procs := procs[id := AudioRead(count, table.report)];
      case AudioRead(_, _) => AudioReadRow(id, x);
      case Analysing => AudioStore(id, x);
      case Publishing(status) => Publish(id, status, x);
    }

    method Handle(e: Event)
      requires Inv(View())
      modifies this, table
      ensures View() == Step(old(View()), e) && Inv(View())
    {
      StepKeeps(View(), e);
      match e
      case DeliverText(count) => SpawnProc(TextStart(count));
      case DeliverAudio(count) => SpawnProc(AudioStart(count));
      case Run(id, x) => Wake(id, x);
      case GracePoll(now) => CompleteOverdueOnce(now);
      case Die(id) => procs := procs - {id};
    }

    method HandleAll(es: seq<Event>)
      requires Inv(View())
      modifies this, table
      ensures View() == Exec(old(View()), es) && Inv(View())
    {
      for i := 0 to |es|
        invariant View() == Exec(old(View()), es[..i]) && Inv(View())
      {
        Handle(es[i]);
        assert es[..i + 1][..i] == es[..i];
      }
      assert es[..|es|] == es;
    }
  }
}
