/**
 * The Cohere one-batch embedder: it reads the texts of one text-extractor task in pages
 * of 50 and embeds each text whole, in a call that charges the cost ledger 0.001 dollars
 * whether it succeeds or not.  A text whose call yields no embedding counts as a failure;
 * every other text gets exactly one record, with `seq` 1.  The ledger ends the process
 * as soon as its total passes the ceiling.
 */
module CohereOneBatchEmbedding {
  import opened Base
  import opened Js
  import opened Vectors
  import opened Db
  import opened PgParams
  import opened Tasks
  import opened Embedding
  import opened Ledger

  const Implementation := "cohere-one-batch-embedder"

  /** The Cohere client: `embed(model, text)` is the list of embeddings of the response, or
      the error the call throws. */
  type EmbedOne = (string, string) -> Result<seq<Vector>>

  /** Where a text leaves the loop: it goes on with the ledger at `spent` and maybe an
      embedding, or it stops the run. */
  datatype Step = Next(spent: real, vector: Option<Vector>) | Stop(spent: real, outcome: RunOutcome)

  /** One text: the string `getTextToEmbed` builds, as written (a NULL text throws before
      any call or charge), then one charged call.  The charge is made before the call's
      error is re-thrown, so a charge that passes the ceiling ends the process even when
      the call failed. */
  function TextStep(embed: EmbedOne, input: TextInput, spent: real, ceiling: Ceiling): (r: Step)
    ensures r.Stop? ==> !r.outcome.Returned?
    ensures r.Stop? && r.outcome.Exited? <==>
              TextToEmbed(input.text, input.decisionMetadata).Ok? && Exceeds(spent + CohereCallCost, ceiling)
    ensures r.spent == if TextToEmbed(input.text, input.decisionMetadata).Ok? then spent + CohereCallCost else spent
  {
    match TextToEmbed(input.text, input.decisionMetadata)
    case Err(e) => Stop(spent, Threw(e))
    case Ok(s) =>
      var after := spent + CohereCallCost;
      if Exceeds(after, ceiling) then Stop(after, Exited)
      else
        match embed(Model, s)
        case Err(e) => Stop(after, Threw(e))
        case Ok(embeddings) => Next(after, FirstEmbedding(embeddings))
  }

  /** A NULL text throws in `getTextToEmbed`, before the call and before the charge: the
      ledger stays where it was and the run ends with a TypeError. */
  lemma NullTextChargesNothing(embed: EmbedOne, input: TextInput, spent: real, ceiling: Ceiling)
    requires input.text.Null?
    ensures TextStep(embed, input, spent, ceiling) == Stop(spent, Threw(Error(TypeErrorMessage)))
  {
  }

  /** How a page went: every text done, or stopped at a text. */
  datatype PageRun = Done(records: seq<Embedded>, failures: nat, spent: real) | Halted(spent: real, outcome: RunOutcome)

  /** The page loop's spec, with the ledger at `spent` when the page starts. */
  function EmbedAll(embed: EmbedOne, rows: seq<TextInput>, spent: real, ceiling: Ceiling): (r: PageRun)
    ensures r.Halted? ==> !r.outcome.Returned?
  {
    if |rows| == 0 then Done([], 0, spent)
    else
      match EmbedAll(embed, rows[..|rows| - 1], spent, ceiling)
      case Halted(s, o) => Halted(s, o)
      case Done(records, failures, s) =>
        var last := rows[|rows| - 1];
        match TextStep(embed, last, s, ceiling)
        case Stop(after, o) => Halted(after, o)
        case Next(after, None) => Done(records, failures + 1, after)
        case Next(after, Some(v)) => Done(records + [Embedded(Num(last.id), v, 1)], failures, after)
  }

  lemma {:induction false} EmbedAllStops(embed: EmbedOne, rows: seq<TextInput>, spent: real, ceiling: Ceiling, n: nat)
    requires n <= |rows| && EmbedAll(embed, rows[..n], spent, ceiling).Halted?
    ensures EmbedAll(embed, rows, spent, ceiling) == EmbedAll(embed, rows[..n], spent, ceiling)
    decreases |rows|
  {
    if n < |rows| {
      var init := rows[..|rows| - 1];
      assert init[..n] == rows[..n];
      EmbedAllStops(embed, init, spent, ceiling, n);
    } else {
      assert rows[..n] == rows;
    }
  }

  /** The loop over a page's texts, charging `monitor` for every call. */
  method EmbedPage(monitor: EmbeddingUsageMonitor, embed: EmbedOne, rows: seq<TextInput>) returns (r: PageRun)
    requires !monitor.exited
    modifies monitor`totalCost, monitor`exited
    ensures r == EmbedAll(embed, rows, old(monitor.totalCost), monitor.maxCost)
    ensures monitor.totalCost == r.spent
    ensures monitor.exited <==> r.Halted? && r.outcome.Exited?
  {
    var records: seq<Embedded> := [];
    var failures: nat := 0;
    var i := 0;
    while i < |rows|
      invariant 0 <= i <= |rows| && !monitor.exited
      invariant EmbedAll(embed, rows[..i], old(monitor.totalCost), monitor.maxCost) == Done(records, failures, monitor.totalCost)
    {
      assert rows[..i + 1][..i] == rows[..i];
      var s := TextToEmbed(rows[i].text, rows[i].decisionMetadata);
      if s.Err? {
        EmbedAllStops(embed, rows, old(monitor.totalCost), monitor.maxCost, i + 1);
        return Halted(monitor.totalCost, Threw(s.error));
      }
      var costed := GenerateCohereEmbedding(monitor, embed, Model, s.value);
      if monitor.exited {
        EmbedAllStops(embed, rows, old(monitor.totalCost), monitor.maxCost, i + 1);
        return Halted(monitor.totalCost, Exited);
      }
      if costed.Err? {
        EmbedAllStops(embed, rows, old(monitor.totalCost), monitor.maxCost, i + 1);
        return Halted(monitor.totalCost, Threw(costed.error));
      }
      if costed.value.value.None? {
        failures := failures + 1;
      } else {
        records := records + [Embedded(Num(rows[i].id), costed.value.value.value, 1)];
      }
      i := i + 1;
    }
    assert rows[..i] == rows;
    r := Done(records, failures, monitor.totalCost);
  }

  /** A page that is done gave every text exactly one record (with `seq` 1) or one failure,
      and charged the ledger once per text; the ledger is still within the ceiling. */
  lemma {:induction false} OneRecordPerText(embed: EmbedOne, rows: seq<TextInput>, spent: real, ceiling: Ceiling)
    requires EmbedAll(embed, rows, spent, ceiling).Done?
    ensures var d := EmbedAll(embed, rows, spent, ceiling);
            && |d.records| + d.failures == |rows|
            && d.spent == spent + |rows| as real * CohereCallCost
            && (|rows| > 0 ==> !Exceeds(d.spent, ceiling))
            && forall e :: e in d.records ==> e.position == 1 && exists i :: 0 <= i < |rows| && e.textId == Num(rows[i].id)
  {
    if |rows| > 0 {
      var init := rows[..|rows| - 1];
      OneRecordPerText(embed, init, spent, ceiling);
      var d := EmbedAll(embed, rows, spent, ceiling);
      var before := EmbedAll(embed, init, spent, ceiling);
      forall e | e in d.records
        ensures e.position == 1 && exists i :: 0 <= i < |rows| && e.textId == Num(rows[i].id)
      {
        if e in before.records {
          var i :| 0 <= i < |init| && e.textId == Num(init[i].id);
          assert init[i] == rows[i];
        } else {
          assert e.textId == Num(rows[|rows| - 1].id);
        }
      }
    }
  }

  /** A page halts with `Exited` only when a charge took the ledger past the ceiling. */
  lemma {:induction false} ExitsOnlyPastCeiling(embed: EmbedOne, rows: seq<TextInput>, spent: real, ceiling: Ceiling)
    requires EmbedAll(embed, rows, spent, ceiling).Halted? && EmbedAll(embed, rows, spent, ceiling).outcome.Exited?
    ensures Exceeds(EmbedAll(embed, rows, spent, ceiling).spent, ceiling)
  {
    if |rows| > 0 {
      var init := rows[..|rows| - 1];
      if EmbedAll(embed, init, spent, ceiling).Halted? {
        ExitsOnlyPastCeiling(embed, init, spent, ceiling);
      }
    }
  }

  // ---------------------------------------------------------------------------------
  // The run

  /** What the first pages of a run stored and counted. */
  datatype Tally = Tally(records: seq<Embedded>, failures: nat, processed: nat)

  /** Where the run stands after some pages: still going with the ledger at `spent`, or
      stopped in the page after them. */
  datatype Progress = Going(tally: Tally, spent: real) | Ended(spent: real, outcome: RunOutcome)

  function NextTally(t: Tally, offset: nat, records: seq<Embedded>, failures: nat): Tally
  {
    Tally(t.records + records, t.failures + failures, offset + |records|)
  }

  /** The run after its first `pages` pages, from a ledger at `spent`. */
  function EmbeddedPages(embed: EmbedOne, inputs: seq<TextInput>, pages: nat, spent: real, ceiling: Ceiling): Progress
  {
    if pages == 0 then Going(Tally([], 0, 0), spent)
    else
      match EmbeddedPages(embed, inputs, pages - 1, spent, ceiling)
      case Ended(s, o) => Ended(s, o)
      case Going(t, s) =>
        match EmbedAll(embed, Page(inputs, BatchSize * (pages - 1), BatchSize), s, ceiling)
        case Halted(after, o) => Ended(after, o)
        case Done(records, failures, after) => Going(NextTally(t, BatchSize * (pages - 1), records, failures), after)
  }

  ghost predicate Stored(taskId: nat, start: seq<EmbeddingRow>, startMetrics: Value, pages: nat, t: Tally,
                         now: seq<EmbeddingRow>, metrics: Value)
  {
    && now == start + EmbeddingRows(taskId, t.records)
    && (pages == 0 ==> metrics == startMetrics)
    && (pages > 0 ==> metrics == Metrics(t.processed, t.failures))
  }

  /** How the page loop ended after storing `pages` pages, with the ledger at `total`: at an
      empty page, or in the page that halted, whose records are not stored. */
  ghost predicate PagesEnded(embed: EmbedOne, inputs: seq<TextInput>, spent: real, ceiling: Ceiling, taskId: nat,
                             start: seq<EmbeddingRow>, startMetrics: Value, pages: nat, o: RunOutcome,
                             now: seq<EmbeddingRow>, metrics: Value, total: real)
  {
    && EmbeddedPages(embed, inputs, pages, spent, ceiling).Going?
    && Stored(taskId, start, startMetrics, pages, EmbeddedPages(embed, inputs, pages, spent, ceiling).tally, now, metrics)
    && (pages > 0 ==> BatchSize * (pages - 1) < |inputs|)
    && (o.Returned? ==> BatchSize * pages >= |inputs| && total == EmbeddedPages(embed, inputs, pages, spent, ceiling).spent)
    && (!o.Returned? ==>
          && BatchSize * pages < |inputs|
          && EmbedAll(embed, Page(inputs, BatchSize * pages, BatchSize),
                      EmbeddedPages(embed, inputs, pages, spent, ceiling).spent, ceiling) == Halted(total, o))
  }

  lemma PagesStep(embed: EmbedOne, inputs: seq<TextInput>, pages: nat, spent: real, ceiling: Ceiling,
                  t: Tally, s: real, records: seq<Embedded>, failures: nat, after: real)
    requires EmbeddedPages(embed, inputs, pages, spent, ceiling) == Going(t, s)
    requires EmbedAll(embed, Page(inputs, BatchSize * pages, BatchSize), s, ceiling) == Done(records, failures, after)
    ensures EmbeddedPages(embed, inputs, pages + 1, spent, ceiling)
            == Going(NextTally(t, BatchSize * pages, records, failures), after)
  {
  }

  lemma StoredStep(taskId: nat, start: seq<EmbeddingRow>, startMetrics: Value, pages: nat, t: Tally,
                   now: seq<EmbeddingRow>, metrics: Value, offset: nat, records: seq<Embedded>, failures: nat)
    requires Stored(taskId, start, startMetrics, pages, t, now, metrics)
    ensures var u := NextTally(t, offset, records, failures);
            Stored(taskId, start, startMetrics, pages + 1, u, now + EmbeddingRows(taskId, records),
                   Metrics(u.processed, u.failures))
  {
    EmbeddingRowsAppend(taskId, t.records, records);
    SeqAssoc(start, EmbeddingRows(taskId, t.records), EmbeddingRows(taskId, records));
  }

  /** The loop leaves at the page after `pages`: empty, or halted. */
  lemma EndsHere(embed: EmbedOne, inputs: seq<TextInput>, spent: real, ceiling: Ceiling, taskId: nat,
                 start: seq<EmbeddingRow>, startMetrics: Value, pages: nat, t: Tally, before: real, o: RunOutcome,
                 now: seq<EmbeddingRow>, metrics: Value, total: real)
    requires EmbeddedPages(embed, inputs, pages, spent, ceiling) == Going(t, before)
    requires Stored(taskId, start, startMetrics, pages, t, now, metrics)
    requires pages > 0 ==> BatchSize * (pages - 1) < |inputs|
    requires o.Returned? ==> |Page(inputs, BatchSize * pages, BatchSize)| == 0 && total == before
    requires !o.Returned? ==> EmbedAll(embed, Page(inputs, BatchSize * pages, BatchSize), before, ceiling) == Halted(total, o)
    ensures PagesEnded(embed, inputs, spent, ceiling, taskId, start, startMetrics, pages, o, now, metrics, total)
  {
  }

  /** One iteration over a non-empty page: embed it, then store it unless the page stopped
      the run (`halt` is then how it stopped, and nothing of the page is stored). */
  method StorePage(task: Task, monitor: EmbeddingUsageMonitor, embed: EmbedOne, inputs: seq<TextInput>,
                   rows: seq<TextInput>, offset: nat, failures: nat, ghost spent: real, ghost pages: nat, ghost t: Tally,
                   ghost start: seq<EmbeddingRow>, ghost startMetrics: Value)
      returns (halt: Option<RunOutcome>, nextFailures: nat, ghost u: Tally)
    requires task.Synced() && !monitor.exited && failures == t.failures
    requires offset == BatchSize * pages && rows == Page(inputs, offset, BatchSize) && |rows| > 0
    requires pages > 0 ==> BatchSize * (pages - 1) < |inputs|
    requires EmbeddedPages(embed, inputs, pages, spent, monitor.maxCost) == Going(t, monitor.totalCost)
    requires Stored(task.id.value, start, startMetrics, pages, t, task.db.embeddings, task.metrics)
    modifies task`metrics, task`updatedAt, task`id, task.db`tasks, task.db`taskSerial, task.db`clock, task.db`embeddings
    modifies monitor`totalCost, monitor`exited
    ensures task.Synced() && task.id == old(task.id)
    ensures monitor.exited <==> halt.Some? && halt.value.Exited?
    ensures halt.Some? ==> PagesEnded(embed, inputs, spent, monitor.maxCost, task.id.value, start, startMetrics, pages,
                                      halt.value, task.db.embeddings, task.metrics, monitor.totalCost)
    ensures halt.None? ==> nextFailures == u.failures
    ensures halt.None? ==> EmbeddedPages(embed, inputs, pages + 1, spent, monitor.maxCost) == Going(u, monitor.totalCost)
    ensures halt.None? ==> Stored(task.id.value, start, startMetrics, pages + 1, u, task.db.embeddings, task.metrics)
  {
    ghost var before := monitor.totalCost;
    var page := EmbedPage(monitor, embed, rows);
    if page.Halted? {
      EndsHere(embed, inputs, spent, monitor.maxCost, task.id.value, start, startMetrics, pages, t,
               before, page.outcome, task.db.embeddings, task.metrics, monitor.totalCost);
      return Some(page.outcome), failures, t;
    }
    SavePage(task, page.records, page.failures, offset, failures, pages, t, start, startMetrics);
    PagesStep(embed, inputs, pages, spent, monitor.maxCost, t, before, page.records, page.failures, page.spent);
    halt, nextFailures, u := None, failures + page.failures, NextTally(t, offset, page.records, page.failures);
  }

  /** The end of an iteration: store the page's records, then replace the metrics. */
  method SavePage(task: Task, records: seq<Embedded>, pageFailures: nat, offset: nat, failures: nat,
                  ghost pages: nat, ghost t: Tally, ghost start: seq<EmbeddingRow>, ghost startMetrics: Value)
    requires task.Synced() && failures == t.failures
    requires Stored(task.id.value, start, startMetrics, pages, t, task.db.embeddings, task.metrics)
    modifies task`metrics, task`updatedAt, task`id, task.db`tasks, task.db`taskSerial, task.db`clock, task.db`embeddings
    ensures task.Synced() && task.id == old(task.id)
    ensures Stored(task.id.value, start, startMetrics, pages + 1, NextTally(t, offset, records, pageFailures),
                   task.db.embeddings, task.metrics)
  {
    StoredStep(task.id.value, start, startMetrics, pages, t, task.db.embeddings, task.metrics, offset, records, pageFailures);
    SaveEmbeddings(task.db, task.id.value, records);
    SyncedKept(task);
    task.UpdateMetrics(Metrics(offset + |records|, failures + pageFailures));
  }

  /** The page loop of `run`, over texts the loop does not write.  The sleep after each
      page is not modelled. */
  method RunPages(task: Task, monitor: EmbeddingUsageMonitor, embed: EmbedOne, inputs: seq<TextInput>)
      returns (o: RunOutcome, ghost pages: nat)
    requires task.Synced() && !monitor.exited
    modifies task`metrics, task`updatedAt, task`id, task.db`tasks, task.db`taskSerial, task.db`clock, task.db`embeddings
    modifies monitor`totalCost, monitor`exited
    ensures task.Synced() && task.id == old(task.id)
    ensures monitor.exited <==> o.Exited?
    ensures PagesEnded(embed, inputs, old(monitor.totalCost), monitor.maxCost, task.id.value, old(task.db.embeddings),
                       old(task.metrics), pages, o, task.db.embeddings, task.metrics, monitor.totalCost)
  {
    ghost var start, startMetrics, spent := task.db.embeddings, task.metrics, monitor.totalCost;
    var offset: nat := 0;
    var failures: nat := 0;
    pages := 0;
    ghost var t := Tally([], 0, 0);
    assert start + EmbeddingRows(task.id.value, []) == start;
    while true
      invariant task.Synced() && task.id == old(task.id) && !monitor.exited
      invariant offset == BatchSize * pages
      invariant pages > 0 ==> BatchSize * (pages - 1) < |inputs|
      invariant EmbeddedPages(embed, inputs, pages, spent, monitor.maxCost) == Going(t, monitor.totalCost)
      invariant failures == t.failures
      invariant Stored(task.id.value, start, startMetrics, pages, t, task.db.embeddings, task.metrics)
      decreases |inputs| + BatchSize - offset
    {
      var rows := Page(inputs, offset, BatchSize);
      if |rows| == 0 {
        EndsHere(embed, inputs, spent, monitor.maxCost, task.id.value, start, startMetrics, pages, t,
                 monitor.totalCost, Returned, task.db.embeddings, task.metrics, monitor.totalCost);
        return Returned, pages;
      }
      var halt, nextFailures, u := StorePage(task, monitor, embed, inputs, rows, offset, failures, spent, pages, t,
                                             start, startMetrics);
      if halt.Some? {
        return halt.value, pages;
      }
      t, failures := u, nextFailures;
      offset := offset + BatchSize;
      pages := pages + 1;
    }
  }

  /** How a run with `params` over the tables `texts` and `decisions` ended. */
  ghost predicate RunEnded(embed: EmbedOne, params: Value, texts: seq<TextRow>, decisions: seq<DecisionRow>,
                           spent: real, ceiling: Ceiling, taskId: nat, start: seq<EmbeddingRow>, startMetrics: Value,
                           pages: nat, o: RunOutcome, now: seq<EmbeddingRow>, metrics: Value, total: real)
  {
    if !Truthy(params) then
      o == Threw(Error(ParamsNotSetMessage)) && now == start && metrics == startMetrics && total == spent
    else if !Truthy(Get(params, "textExtractorTaskId").value) then
      o == Threw(Error(MissingParamsMessage)) && now == start && metrics == startMetrics && total == spent
    else
      match IntegerParam(Get(params, "textExtractorTaskId").value)
      case Err(e) => o == Threw(e) && now == start && metrics == startMetrics && total == spent
      case Ok(id) =>
        PagesEnded(embed, TextInputs(texts, decisions, id, 0), spent, ceiling, taskId, start, startMetrics,
                   pages, o, now, metrics, total)
  }

  /** `run`: the parameter checks, then the page loop.  The check that the text extractor
      exists tests a pending promise, which is always truthy, so it never refuses. */
  method Run(task: Task, monitor: EmbeddingUsageMonitor, embed: EmbedOne) returns (o: RunOutcome, ghost pages: nat)
    requires task.Synced() && !monitor.exited
    modifies task`metrics, task`updatedAt, task`id, task.db`tasks, task.db`taskSerial, task.db`clock, task.db`embeddings
    modifies monitor`totalCost, monitor`exited
    ensures task.Synced() && task.id == old(task.id)
    ensures monitor.exited <==> o.Exited?
    ensures RunEnded(embed, task.params, task.db.texts, task.db.decisions, old(monitor.totalCost), monitor.maxCost,
                     task.id.value, old(task.db.embeddings), old(task.metrics), pages, o, task.db.embeddings,
                     task.metrics, monitor.totalCost)
  {
    pages := 0;
    var params := task.params;
    if !Truthy(params) {
      return Threw(Error(ParamsNotSetMessage)), pages;
    }
    var textExtractorTaskId := Get(params, "textExtractorTaskId").value;
    if !Truthy(textExtractorTaskId) {
      return Threw(Error(MissingParamsMessage)), pages;
    }
    var id := IntegerParam(textExtractorTaskId);
    if id.Err? {
      return Threw(id.error), pages;
    }
    var inputs := TextInputs(task.db.texts, task.db.decisions, id.value, 0);
    o, pages := RunPages(task, monitor, embed, inputs);
  }

  /** The second half of `start`: run, then record how the run ended.  When the ledger ends
      the process, nothing is recorded and `start` never settles (`None`). */
  method RunAndFinish(task: Task, monitor: EmbeddingUsageMonitor, embed: EmbedOne)
      returns (r: Option<Outcome>, o: RunOutcome, ghost pages: nat)
    requires task.Synced() && !monitor.exited
    modifies task`status, task`metrics, task`updatedAt, task`id, task.db`tasks, task.db`taskSerial, task.db`clock
    modifies task.db`embeddings, monitor`totalCost, monitor`exited
    ensures task.Synced() && task.id == old(task.id)
    ensures RunEnded(embed, task.params, task.db.texts, task.db.decisions, old(monitor.totalCost), monitor.maxCost,
                     task.id.value, old(task.db.embeddings), old(task.metrics), pages, o, task.db.embeddings,
                     task.metrics, monitor.totalCost)
    ensures o.Exited? <==> monitor.exited
    ensures o.Exited? ==> r.None? && task.status == old(task.status)
    ensures !o.Exited? ==> r == Some(if o.Returned? then Pass else Fail(o.error))
    ensures !o.Exited? ==> task.status == Some(if o.Returned? then Succeeded else Failed)
  {
    o, pages := Run(task, monitor, embed);
    if o.Exited? {
      return None, o, pages;
    }
    var finished := task.Conclude(o);
    r := Some(finished);
  }

  /** `start` for the one-batch embedder; `None` when the ledger ended the process. */
  method Start(task: Task, monitor: EmbeddingUsageMonitor, embed: EmbedOne, params: Value, given: Option<int>)
      returns (r: Option<Outcome>, o: RunOutcome, ghost pages: nat)
    requires task.db.Valid() && !monitor.exited
    modifies task`params, task`version, task`status, task`createdAt, task`updatedAt, task`id, task`metrics
    modifies task.db`tasks, task.db`taskSerial, task.db`clock, task.db`embeddings, monitor`totalCost, monitor`exited
    ensures task.version == Some(ChosenVersion(old(task.db.tasks), task.taskType, task.implementation, task.name, given))
    ensures FindTask(old(task.db.tasks), task.Key()).Some? ==>
      && r == Some(Fail(Error(DuplicateMessage(task.Key()))))
      && task.db.tasks == old(task.db.tasks) && task.db.embeddings == old(task.db.embeddings)
      && monitor.totalCost == old(monitor.totalCost) && !monitor.exited
    ensures FindTask(old(task.db.tasks), task.Key()).None? ==>
      && task.Synced() && task.params == params
      && RunEnded(embed, task.params, task.db.texts, task.db.decisions, old(monitor.totalCost), monitor.maxCost,
                  task.id.value, old(task.db.embeddings), old(task.metrics), pages, o, task.db.embeddings,
                  task.metrics, monitor.totalCost)
      && (o.Exited? <==> monitor.exited)
      && (o.Exited? ==> r.None? && task.status == Some(Running))
      && (!o.Exited? ==> r == Some(if o.Returned? then Pass else Fail(o.error)))
      && (!o.Exited? ==> task.status == Some(if o.Returned? then Succeeded else Failed))
  {
    pages := 0;
    o := Returned;
    ghost var embeddings, metrics := task.db.embeddings, task.metrics;
    var begun := task.Open(params, given);
    assert task.db.embeddings == embeddings && task.metrics == metrics;
    if begun.Fail? {
      return Some(begun), o, pages;
    }
    r, o, pages := RunAndFinish(task, monitor, embed);
  }

  // ---------------------------------------------------------------------------------
  // What a run guarantees

  /** A run that returned gave every text of the task one record or one failure, and
      charged the ledger once per text. */
  lemma {:induction false} EveryTextChargedOnce(embed: EmbedOne, inputs: seq<TextInput>, pages: nat, spent: real,
                                                ceiling: Ceiling)
    requires EmbeddedPages(embed, inputs, pages, spent, ceiling).Going?
    ensures var g := EmbeddedPages(embed, inputs, pages, spent, ceiling);
            && |g.tally.records| + g.tally.failures == Min(BatchSize * pages, |inputs|)
            && g.spent == spent + Min(BatchSize * pages, |inputs|) as real * CohereCallCost
            && forall e :: e in g.tally.records ==> e.position == 1
  {
    if pages > 0 {
      EveryTextChargedOnce(embed, inputs, pages - 1, spent, ceiling);
      var before := EmbeddedPages(embed, inputs, pages - 1, spent, ceiling);
      OneRecordPerText(embed, Page(inputs, BatchSize * (pages - 1), BatchSize), before.spent, ceiling);
    }
  }
}
