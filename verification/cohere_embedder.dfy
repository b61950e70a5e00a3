/**
 * The Cohere embedder: it reads the texts of one text-extractor task in pages of 50,
 * splits each text's string on blank lines, embeds the pieces in one call, and stores
 * the k-th vector of a text with `seq` k + 1.  A text whose call yields nothing counts as
 * a failure.
 */
module CohereEmbedding {
  import opened Base
  import opened Strs
  import opened Js
  import opened Vectors
  import opened Db
  import opened PgParams
  import opened Tasks
  import opened Embedding

  const Implementation := "cohere-embedder"
  /** The pieces of a text are separated by a blank line. */
  const PieceSeparator := "\n\n"

  /** `generateCohereEmbeddings(MODEL, pieces).value`: `Err` when the call throws, `None`
      when the value is falsy, else one vector per returned embedding. */
  type EmbedMany = seq<string> -> Result<Option<seq<Vector>>>

  /** `getEmbeddings` for one text: the string `getTextToEmbed` builds, as written, split on
      blank lines and embedded in one call. */
  function TextEmbeddings(embed: EmbedMany, input: TextInput): Result<Option<seq<Vector>>>
  {
    match TextToEmbed(input.text, input.decisionMetadata)
    case Err(e) => Err(e)
    case Ok(s) => embed(Split(s, PieceSeparator))
  }

  /** What one page produced: the records in order, the texts whose call yielded nothing,
      and the number of records counted one by one. */
  datatype Batch = Batch(embedded: seq<Embedded>, failures: nat, generated: nat)

  /** The records for one text: its k-th vector (from 0) with `seq` k + 1. */
  function Numbered(id: nat, vectors: seq<Vector>): (r: seq<Embedded>)
  {
    if |vectors| == 0 then []
    else Numbered(id, vectors[..|vectors| - 1]) + [Embedded(Num(id), vectors[|vectors| - 1], |vectors|)]
  }

  /** Every vector of a text is stored with the text's id and its 1-based position. */
  lemma {:induction false} NumberedPositions(id: nat, vectors: seq<Vector>)
    ensures |Numbered(id, vectors)| == |vectors|
    ensures forall k :: 0 <= k < |vectors| ==> Numbered(id, vectors)[k] == Embedded(Num(id), vectors[k], k + 1)
  {
    if |vectors| > 0 {
      NumberedPositions(id, vectors[..|vectors| - 1]);
    }
  }

  /** The page loop's spec: the texts one after the other, stopping at the first that
      throws. */
  function EmbedAll(embed: EmbedMany, rows: seq<TextInput>): Result<Batch>
  {
    if |rows| == 0 then Ok(Batch([], 0, 0))
    else
      match EmbedAll(embed, rows[..|rows| - 1])
      case Err(e) => Err(e)
      case Ok(b) =>
        var last := rows[|rows| - 1];
        match TextEmbeddings(embed, last)
        case Err(e) => Err(e)
        case Ok(None) => Ok(Batch(b.embedded, b.failures + 1, b.generated))
        case Ok(Some(vectors)) => Ok(Batch(b.embedded + Numbered(last.id, vectors), b.failures, b.generated + |vectors|))
  }

  lemma {:induction false} EmbedAllStops(embed: EmbedMany, rows: seq<TextInput>, n: nat)
    requires n <= |rows| && EmbedAll(embed, rows[..n]).Err?
    ensures EmbedAll(embed, rows) == EmbedAll(embed, rows[..n])
    decreases |rows|
  {
    if n < |rows| {
      var init := rows[..|rows| - 1];
      assert init[..n] == rows[..n];
      EmbedAllStops(embed, init, n);
    } else {
      assert rows[..n] == rows;
    }
  }

  /** A NULL text (the extractor stores one for a decision without a document or whose PDF
      did not load) makes `getTextToEmbed` throw a TypeError, so the page ends there with
      nothing embedded for it or after it. */
  lemma NullTextThrows(embed: EmbedMany, rows: seq<TextInput>, i: nat)
    requires i < |rows| && rows[i].text.Null? && EmbedAll(embed, rows[..i]).Ok?
    ensures EmbedAll(embed, rows) == Err(Error(TypeErrorMessage))
  {
    NullTextNotEmbedded(embed, rows[i]);
    EmbedAllStopsAt(embed, rows, i);
  }

  lemma {:induction false} EmbedAllStopsAt(embed: EmbedMany, rows: seq<TextInput>, i: nat)
    requires i < |rows| && EmbedAll(embed, rows[..i]).Ok? && TextEmbeddings(embed, rows[i]).Err?
    ensures EmbedAll(embed, rows) == Err(TextEmbeddings(embed, rows[i]).error)
    decreases |rows|
  {
    if i + 1 < |rows| {
      var init := rows[..|rows| - 1];
      assert init[..i] == rows[..i] && init[i] == rows[i];
      EmbedAllStopsAt(embed, init, i);
    } else {
      assert rows[..|rows| - 1] == rows[..i];
    }
  }

  lemma NullTextNotEmbedded(embed: EmbedMany, input: TextInput)
    requires input.text.Null?
    ensures TextEmbeddings(embed, input) == Err(Error(TypeErrorMessage))
  {
    NullTextRefused(input.text, input.decisionMetadata);
  }

  /** The loop over a page's texts, with the `forEach` that numbers a text's vectors. */
  method EmbedPage(embed: EmbedMany, rows: seq<TextInput>) returns (r: Result<Batch>)
    ensures r == EmbedAll(embed, rows)
  {
    var embedded: seq<Embedded> := [];
    var failures: nat := 0;
    var generated: nat := 0;
    var i := 0;
    while i < |rows|
      invariant 0 <= i <= |rows|
      invariant EmbedAll(embed, rows[..i]) == Ok(Batch(embedded, failures, generated))
    {
      assert rows[..i + 1][..i] == rows[..i];
      var vectors := TextEmbeddings(embed, rows[i]);
      if vectors.Err? {
        EmbedAllStops(embed, rows, i + 1);
        return Err(vectors.error);
      }
      if vectors.value.None? {
        failures := failures + 1;
      } else {
        var vs := vectors.value.value;
        ghost var before, counted := embedded, generated;
        var k := 0;
        while k < |vs|
          invariant 0 <= k <= |vs|
          invariant embedded == before + Numbered(rows[i].id, vs[..k]) && generated == counted + k
        {
          assert vs[..k + 1][..k] == vs[..k];
          generated := generated + 1;
          embedded := embedded + [Embedded(Num(rows[i].id), vs[k], k + 1)];
          k := k + 1;
        }
        assert vs[..k] == vs;
      }
      i := i + 1;
    }
    assert rows[..i] == rows;
    r := Ok(Batch(embedded, failures, generated));
  }

  /** `embeddings_generated` is bumped once per record built, so it counts the records. */
  lemma {:induction false} GeneratedCountsRecords(embed: EmbedMany, rows: seq<TextInput>)
    requires EmbedAll(embed, rows).Ok?
    ensures EmbedAll(embed, rows).value.generated == |EmbedAll(embed, rows).value.embedded|
    ensures EmbedAll(embed, rows).value.failures <= |rows|
  {
    if |rows| > 0 {
      GeneratedCountsRecords(embed, rows[..|rows| - 1]);
      var last := rows[|rows| - 1];
      if TextEmbeddings(embed, last).value.Some? {
        NumberedPositions(last.id, TextEmbeddings(embed, last).value.value);
      }
    }
  }

  /** The call for a text returned vectors (not nothing, and did not throw). */
  predicate Yielded(embed: EmbedMany, input: TextInput)
  {
    TextEmbeddings(embed, input).Ok? && TextEmbeddings(embed, input).value.Some?
  }

  /** The vectors returned for a text, when it has any. */
  function VectorsOf(embed: EmbedMany, input: TextInput): seq<Vector>
  {
    match TextEmbeddings(embed, input)
    case Ok(Some(vs)) => vs
    case _ => []
  }

  /** Record `e` is the vector of `input` numbered `e.position` from 1, under its id. */
  predicate RecordOf(embed: EmbedMany, input: TextInput, e: Embedded)
  {
    && Yielded(embed, input) && e.textId == Num(input.id)
    && 1 <= e.position <= |VectorsOf(embed, input)| && VectorsOf(embed, input)[e.position - 1] == e.embedding
  }

  /** Every record of a page is the `seq`-th vector (counting from 1) of a text of the page
      whose call yielded vectors, under that text's id. */
  lemma {:induction false} RecordsComeFromVectors(embed: EmbedMany, rows: seq<TextInput>)
    requires EmbedAll(embed, rows).Ok?
    ensures forall e :: e in EmbedAll(embed, rows).value.embedded ==>
              exists i :: 0 <= i < |rows| && RecordOf(embed, rows[i], e)
  {
    if |rows| > 0 {
      var n := |rows| - 1;
      var init := rows[..n];
      RecordsComeFromVectors(embed, init);
      var b := EmbedAll(embed, init).value;
      var all := EmbedAll(embed, rows).value;
      forall e | e in all.embedded
        ensures exists i :: 0 <= i < |rows| && RecordOf(embed, rows[i], e)
      {
        if e in b.embedded {
          var i :| 0 <= i < |init| && RecordOf(embed, init[i], e);
          assert init[i] == rows[i];
        } else {
          var vs := VectorsOf(embed, rows[n]);
          NumberedPositions(rows[n].id, vs);
          var k :| 0 <= k < |vs| && Numbered(rows[n].id, vs)[k] == e;
          assert RecordOf(embed, rows[n], e);
        }
      }
    }
  }

  /** With the ids of a page distinct, as the table's are, a text whose call yields nothing
      has no record. */
  lemma FalsyTextStoresNothing(embed: EmbedMany, rows: seq<TextInput>, i: nat)
    requires forall a, b :: 0 <= a < b < |rows| ==> rows[a].id != rows[b].id
    requires EmbedAll(embed, rows).Ok? && i < |rows| && TextEmbeddings(embed, rows[i]) == Ok(None)
    ensures forall e :: e in EmbedAll(embed, rows).value.embedded ==> e.textId != Num(rows[i].id)
  {
    RecordsComeFromVectors(embed, rows);
  }

  // ---------------------------------------------------------------------------------
  // The run

  /** What the first pages of a run produced. */
  datatype Tally = Tally(embedded: seq<Embedded>, failures: nat, generated: nat, processed: nat)

  /** The metrics each page reports; `texts_processed` counts records, not texts. */
  function EmbedderMetrics(processed: nat, failures: nat, generated: nat): Value
  {
    Obj(map["texts_processed" := Num(processed), "failures" := Num(failures), "embeddings_generated" := Num(generated)])
  }

  /** The tally after a page at `offset` that produced batch `b`. */
  function NextTally(t: Tally, offset: nat, b: Batch): Tally
  {
    Tally(t.embedded + b.embedded, t.failures + b.failures, t.generated + b.generated, offset + |b.embedded|)
  }

  /** The tally after the first `pages` pages of `inputs`, or the error of the first page
      that throws. */
  function EmbeddedPages(embed: EmbedMany, inputs: seq<TextInput>, pages: nat): Result<Tally>
  {
    if pages == 0 then Ok(Tally([], 0, 0, 0))
    else
      match EmbeddedPages(embed, inputs, pages - 1)
      case Err(e) => Err(e)
      case Ok(t) =>
        match EmbedAll(embed, Page(inputs, BatchSize * (pages - 1), BatchSize))
        case Err(e) => Err(e)
        case Ok(b) => Ok(NextTally(t, BatchSize * (pages - 1), b))
  }

  /** The table and the metrics once the records of tally `t` are stored, after `pages`
      pages. */
  ghost predicate Stored(taskId: nat, start: seq<EmbeddingRow>, startMetrics: Value, pages: nat, t: Tally,
                         now: seq<EmbeddingRow>, metrics: Value)
  {
    && now == start + EmbeddingRows(taskId, t.embedded)
    && (pages == 0 ==> metrics == startMetrics)
    && (pages > 0 ==> metrics == EmbedderMetrics(t.processed, t.failures, t.generated))
  }

  /** How the page loop ended after storing `pages` pages: at an empty page, or at the page
      that threw. */
  ghost predicate PagesEnded(embed: EmbedMany, inputs: seq<TextInput>, taskId: nat, start: seq<EmbeddingRow>,
                             startMetrics: Value, pages: nat, o: RunOutcome, now: seq<EmbeddingRow>, metrics: Value)
  {
    && EmbeddedPages(embed, inputs, pages).Ok?
    && Stored(taskId, start, startMetrics, pages, EmbeddedPages(embed, inputs, pages).value, now, metrics)
    && !o.Exited?
    && (pages > 0 ==> BatchSize * (pages - 1) < |inputs|)
    && (o.Returned? ==> BatchSize * pages >= |inputs|)
    && (o.Threw? ==> BatchSize * pages < |inputs|
                     && EmbedAll(embed, Page(inputs, BatchSize * pages, BatchSize)) == Err(o.error))
  }

  lemma PagesStep(embed: EmbedMany, inputs: seq<TextInput>, pages: nat, t: Tally, b: Batch)
    requires EmbeddedPages(embed, inputs, pages) == Ok(t)
    requires EmbedAll(embed, Page(inputs, BatchSize * pages, BatchSize)) == Ok(b)
    ensures EmbeddedPages(embed, inputs, pages + 1) == Ok(NextTally(t, BatchSize * pages, b))
  {
  }

  lemma StoredStep(taskId: nat, start: seq<EmbeddingRow>, startMetrics: Value, pages: nat, t: Tally,
                   now: seq<EmbeddingRow>, metrics: Value, offset: nat, b: Batch)
    requires Stored(taskId, start, startMetrics, pages, t, now, metrics)
    ensures var u := NextTally(t, offset, b);
            Stored(taskId, start, startMetrics, pages + 1, u, now + EmbeddingRows(taskId, b.embedded),
                   EmbedderMetrics(u.processed, u.failures, u.generated))
  {
    EmbeddingRowsAppend(taskId, t.embedded, b.embedded);
    SeqAssoc(start, EmbeddingRows(taskId, t.embedded), EmbeddingRows(taskId, b.embedded));
  }

  /** One iteration on a non-empty page: embed its texts, then store the records.  On
      success it returns the new failure count and the new record count. */
  method StorePage(task: Task, embed: EmbedMany, rows: seq<TextInput>, offset: nat, failures: nat, generated: nat,
                   ghost pages: nat, ghost t: Tally, ghost start: seq<EmbeddingRow>, ghost startMetrics: Value)
      returns (r: Result<nat>, count: nat, ghost b: Batch)
    requires task.Synced() && failures == t.failures && generated == t.generated
    requires Stored(task.id.value, start, startMetrics, pages, t, task.db.embeddings, task.metrics)
    modifies task`metrics, task`updatedAt, task`id, task.db`tasks, task.db`taskSerial, task.db`clock, task.db`embeddings
    ensures task.Synced() && task.id == old(task.id)
    ensures r.Err? ==> EmbedAll(embed, rows) == Err(r.error)
    ensures r.Err? ==> task.db.embeddings == old(task.db.embeddings) && task.metrics == old(task.metrics)
    ensures r.Ok? ==> EmbedAll(embed, rows) == Ok(b)
    ensures r.Ok? ==> r.value == NextTally(t, offset, b).failures && count == NextTally(t, offset, b).generated
    ensures r.Ok? ==> Stored(task.id.value, start, startMetrics, pages + 1, NextTally(t, offset, b),
                             task.db.embeddings, task.metrics)
  {
    var page := EmbedPage(embed, rows);
    if page.Err? {
      return Err(page.error), generated, Batch([], 0, 0);
    }
    var batch := page.value;
    b := batch;
    SavePage(task, batch, offset, failures, generated, pages, t, start, startMetrics);
    r, count := Ok(failures + batch.failures), generated + batch.generated;
  }

  /** The end of an iteration: store the page's records, then replace the metrics. */
  method SavePage(task: Task, b: Batch, offset: nat, failures: nat, generated: nat,
                  ghost pages: nat, ghost t: Tally, ghost start: seq<EmbeddingRow>, ghost startMetrics: Value)
    requires task.Synced() && failures == t.failures && generated == t.generated
    requires Stored(task.id.value, start, startMetrics, pages, t, task.db.embeddings, task.metrics)
    modifies task`metrics, task`updatedAt, task`id, task.db`tasks, task.db`taskSerial, task.db`clock, task.db`embeddings
    ensures task.Synced() && task.id == old(task.id)
    ensures Stored(task.id.value, start, startMetrics, pages + 1, NextTally(t, offset, b),
                   task.db.embeddings, task.metrics)
  {
    StoredStep(task.id.value, start, startMetrics, pages, t, task.db.embeddings, task.metrics, offset, b);
    SaveEmbeddings(task.db, task.id.value, b.embedded);
    SyncedKept(task);
    task.UpdateMetrics(EmbedderMetrics(offset + |b.embedded|, failures + b.failures, generated + b.generated));
  }

  /** The page loop of `run`, over texts the loop does not write. */
  method RunPages(task: Task, embed: EmbedMany, inputs: seq<TextInput>) returns (o: RunOutcome, ghost pages: nat)
    requires task.Synced()
    modifies task`metrics, task`updatedAt, task`id, task.db`tasks, task.db`taskSerial, task.db`clock, task.db`embeddings
    ensures task.Synced() && task.id == old(task.id)
    ensures PagesEnded(embed, inputs, task.id.value, old(task.db.embeddings), old(task.metrics), pages, o,
                       task.db.embeddings, task.metrics)
  {
    ghost var start, startMetrics := task.db.embeddings, task.metrics;
    var offset: nat := 0;
    var failures: nat := 0;
    var generated: nat := 0;
    pages := 0;
    ghost var t := Tally([], 0, 0, 0);
    assert start + EmbeddingRows(task.id.value, []) == start;
    while true
      invariant task.Synced() && task.id == old(task.id)
      invariant offset == BatchSize * pages
      invariant pages > 0 ==> BatchSize * (pages - 1) < |inputs|
      invariant EmbeddedPages(embed, inputs, pages) == Ok(t) && failures == t.failures && generated == t.generated
      invariant Stored(task.id.value, start, startMetrics, pages, t, task.db.embeddings, task.metrics)
      decreases |inputs| + BatchSize - offset
    {
      var rows := Page(inputs, offset, BatchSize);
      if |rows| == 0 {
        return Returned, pages;
      }
      var stored, count, b := StorePage(task, embed, rows, offset, failures, generated, pages, t, start, startMetrics);
      if stored.Err? {
        return Threw(stored.error), pages;
      }
      PagesStep(embed, inputs, pages, t, b);
      t := NextTally(t, offset, b);
      failures, generated := stored.value, count;
      offset := offset + BatchSize;
      pages := pages + 1;
    }
  }

  /** How a run with `params` over the tables `texts` and `decisions` ended. */
  ghost predicate RunEnded(embed: EmbedMany, params: Value, texts: seq<TextRow>, decisions: seq<DecisionRow>,
                           taskId: nat, start: seq<EmbeddingRow>, startMetrics: Value, pages: nat, o: RunOutcome,
                           now: seq<EmbeddingRow>, metrics: Value)
  {
    if !Truthy(params) then
      o == Threw(Error(ParamsNotSetMessage)) && now == start && metrics == startMetrics
    else if !Truthy(Get(params, "textExtractorTaskId").value) then
      o == Threw(Error(MissingParamsMessage)) && now == start && metrics == startMetrics
    else
      match IntegerParam(Get(params, "textExtractorTaskId").value)
      case Err(e) => o == Threw(e) && now == start && metrics == startMetrics
      case Ok(id) =>
        PagesEnded(embed, TextInputs(texts, decisions, id, 0), taskId, start, startMetrics, pages, o, now, metrics)
  }

  /** `run`: the parameter checks, then the page loop.  The check that the text extractor
      exists tests a pending promise, which is always truthy, so it never refuses. */
  method Run(task: Task, embed: EmbedMany) returns (o: RunOutcome, ghost pages: nat)
    requires task.Synced()
    modifies task`metrics, task`updatedAt, task`id, task.db`tasks, task.db`taskSerial, task.db`clock, task.db`embeddings
    ensures task.Synced() && task.id == old(task.id)
    ensures RunEnded(embed, task.params, task.db.texts, task.db.decisions, task.id.value, old(task.db.embeddings),
                     old(task.metrics), pages, o, task.db.embeddings, task.metrics)
  {
    pages := 0;
    var params := task.params;
    if !Truthy(params) {
      return Threw(Error(ParamsNotSetMessage)), pages;
    }
    var textExtractorTaskId := Get(params, "textExtractorTaskId").value;
    if !Truthy(textExtractorTaskId) {
      return Threw(Error(MissingParamsMessage)), pages;
    }
    var id := IntegerParam(textExtractorTaskId);
    if id.Err? {
      return Threw(id.error), pages;
    }
    var inputs := TextInputs(task.db.texts, task.db.decisions, id.value, 0);
    o, pages := RunPages(task, embed, inputs);
  }

  /** The second half of `start`: run, then record how the run ended. */
  method RunAndFinish(task: Task, embed: EmbedMany) returns (r: Outcome, o: RunOutcome, ghost pages: nat)
    requires task.Synced()
    modifies task`status, task`metrics, task`updatedAt, task`id, task.db`tasks, task.db`taskSerial, task.db`clock
    modifies task.db`embeddings
    ensures task.Synced() && task.id == old(task.id)
    ensures RunEnded(embed, task.params, task.db.texts, task.db.decisions, task.id.value, old(task.db.embeddings),
                     old(task.metrics), pages, o, task.db.embeddings, task.metrics)
    ensures r == (if o.Returned? then Pass else Fail(o.error))
    ensures task.status == Some(if o.Returned? then Succeeded else Failed)
  {
    o, pages := Run(task, embed);
    r := task.Conclude(o);
  }

  /** `start` for the Cohere embedder. */
  method Start(task: Task, embed: EmbedMany, params: Value, given: Option<int>)
      returns (r: Outcome, o: RunOutcome, ghost pages: nat)
    requires task.db.Valid()
    modifies task`params, task`version, task`status, task`createdAt, task`updatedAt, task`id, task`metrics
    modifies task.db`tasks, task.db`taskSerial, task.db`clock, task.db`embeddings
    ensures task.version == Some(ChosenVersion(old(task.db.tasks), task.taskType, task.implementation, task.name, given))
    ensures FindTask(old(task.db.tasks), task.Key()).Some? ==>
      && r == Fail(Error(DuplicateMessage(task.Key())))
      && task.db.tasks == old(task.db.tasks) && task.db.embeddings == old(task.db.embeddings)
    ensures FindTask(old(task.db.tasks), task.Key()).None? ==>
      && task.Synced() && task.params == params
      && RunEnded(embed, task.params, task.db.texts, task.db.decisions, task.id.value, old(task.db.embeddings),
                  old(task.metrics), pages, o, task.db.embeddings, task.metrics)
      && r == (if o.Returned? then Pass else Fail(o.error))
      && task.status == Some(if o.Returned? then Succeeded else Failed)
  {
    pages := 0;
    o := Returned;
    ghost var embeddings, metrics := task.db.embeddings, task.metrics;
    var begun := task.Open(params, given);
    assert task.db.embeddings == embeddings && task.metrics == metrics;
    if begun.Fail? {
      return begun, o, pages;
    }
    r, o, pages := RunAndFinish(task, embed);
  }

  // ---------------------------------------------------------------------------------
  // What a run guarantees

  /** `embeddings_generated` is the number of records the run stored so far, and
      `failures` never exceeds the texts read. */
  lemma {:induction false} GeneratedEqualsStored(embed: EmbedMany, inputs: seq<TextInput>, pages: nat)
    requires EmbeddedPages(embed, inputs, pages).Ok?
    ensures EmbeddedPages(embed, inputs, pages).value.generated == |EmbeddedPages(embed, inputs, pages).value.embedded|
    ensures EmbeddedPages(embed, inputs, pages).value.failures <= Min(BatchSize * pages, |inputs|)
  {
    if pages > 0 {
      GeneratedEqualsStored(embed, inputs, pages - 1);
      GeneratedCountsRecords(embed, Page(inputs, BatchSize * (pages - 1), BatchSize));
    }
  }

  /** Every record a run stores is the `seq`-th vector (from 1) that the call returned for
      one of the task's texts, under that text's id. */
  lemma {:induction false} StoredRecordsFromInputs(embed: EmbedMany, inputs: seq<TextInput>, pages: nat)
    requires EmbeddedPages(embed, inputs, pages).Ok?
    ensures forall e :: e in EmbeddedPages(embed, inputs, pages).value.embedded ==>
              exists j :: 0 <= j < |inputs| && RecordOf(embed, inputs[j], e)
  {
    if pages > 0 {
      StoredRecordsFromInputs(embed, inputs, pages - 1);
      var offset := BatchSize * (pages - 1);
      var rows := Page(inputs, offset, BatchSize);
      RecordsComeFromVectors(embed, rows);
      forall e | e in EmbedAll(embed, rows).value.embedded
        ensures exists j :: 0 <= j < |inputs| && RecordOf(embed, inputs[j], e)
      {
        var i :| 0 <= i < |rows| && RecordOf(embed, rows[i], e);
        assert rows[i] == inputs[offset + i];
      }
    }
  }
}
