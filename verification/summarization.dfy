/**
 * The GPT summarizer: it reads the texts of one text-extractor task in pages of 20, asks
 * the chat model for a JSON summary of each (at most three calls per text), keeps the
 * answers that parse and carry a summary, counts the others as failures, and stores the
 * kept summaries.
 */
module Summarization {
  import opened Base
  import opened Js
  import opened Db
  import opened PgParams
  import opened Tasks

  const Implementation := "gpt-summarizer"
  const BatchSize: nat := 20
  const MaxAttempts: nat := 3
  const ParamsNotSetMessage := "gpt-summarizer params are not set"
  const MissingParamsMessage := "Missing required params: textExtractorTaskId"

  /** The chat model and `JSON.parse`.  `chat(prompt, attempt)` is the outcome of the
      `attempt`-th call (from 0) for a user prompt; the system prompt is the same fixed text
      for every decision, so it is part of the collaborator. */
  datatype Gpt = Gpt(chat: (string, nat) -> Result<Value>, parse: string -> Result<Value>)

  /** The user prompt: the decision's ADA and its text. */
  function UserPrompt(ada: Value, text: Value): string
  {
    "Aκολουθεί το κείμενο της πράξης με ΑΔΑ " + ToString(ada) + ": \n----\n" + ToString(text)
  }

  // ---------------------------------------------------------------------------------
  // Asking, with retries

  /** The value of the first call, from attempt `attempt` on, that does not throw. */
  function Answer(chat: (string, nat) -> Result<Value>, prompt: string, attempt: nat): (r: Option<Value>)
    requires attempt <= MaxAttempts
    ensures r.None? <==> forall i :: attempt <= i < MaxAttempts ==> chat(prompt, i).Err?
    decreases MaxAttempts - attempt
  {
    if attempt == MaxAttempts then None
    else
      match chat(prompt, attempt)
      case Ok(v) => Some(v)
      case Err(_) => Answer(chat, prompt, attempt + 1)
  }

  /** The number of calls made from attempt `attempt` on. */
  function Calls(chat: (string, nat) -> Result<Value>, prompt: string, attempt: nat): (n: nat)
    requires attempt <= MaxAttempts
    decreases MaxAttempts - attempt
  {
    if attempt == MaxAttempts then 0
    else if chat(prompt, attempt).Ok? then 1
    else 1 + Calls(chat, prompt, attempt + 1)
  }

  /** The retry loop calls the model at least once and at most three times; every call but
      the last threw, and the last is the answer when there is one. */
  lemma {:induction false} RetryBounded(chat: (string, nat) -> Result<Value>, prompt: string, attempt: nat)
    requires attempt < MaxAttempts
    ensures 1 <= Calls(chat, prompt, attempt) <= MaxAttempts - attempt
    ensures forall i :: attempt <= i < attempt + Calls(chat, prompt, attempt) - 1 ==> chat(prompt, i).Err?
    ensures Answer(chat, prompt, attempt).Some? ==>
              chat(prompt, attempt + Calls(chat, prompt, attempt) - 1) == Ok(Answer(chat, prompt, attempt).value)
    ensures Calls(chat, prompt, attempt) < MaxAttempts - attempt ==> Answer(chat, prompt, attempt).Some?
    decreases MaxAttempts - attempt
  {
    if chat(prompt, attempt).Err? && attempt + 1 < MaxAttempts {
      RetryBounded(chat, prompt, attempt + 1);
    }
  }

  /** The loop of `getSummary` that asks the model: it stops after the first call that
      does not throw, and after three calls in any case. */
  method Ask(chat: (string, nat) -> Result<Value>, prompt: string) returns (value: Option<Value>, calls: nat)
    ensures value == Answer(chat, prompt, 0) && calls == Calls(chat, prompt, 0)
  {
    calls := 0;
    var attempt: nat := 0;
    while attempt < MaxAttempts
      invariant attempt <= MaxAttempts && calls == attempt
      invariant Answer(chat, prompt, 0) == Answer(chat, prompt, attempt)
      invariant Calls(chat, prompt, 0) == attempt + Calls(chat, prompt, attempt)
    {
      calls := calls + 1;
      var response := chat(prompt, attempt);
      if response.Ok? {
        return Some(response.value), calls;
      }
      attempt := attempt + 1;
    }
    value := None;
  }

  /** `v.summary` of a value that is not `null` or `undefined`. */
  function SummaryField(v: Value): Value
  {
    match Get(v, "summary")
    case Some(s) => s
    case None => Undefined
  }

  /** What `getSummary` makes of an answer: no answer, a falsy one, one that is not JSON, and
      a parsed object without a truthy `summary` all give `null` (`None`); JSON `null`
      throws when its `summary` is read. */
  function Validated(parse: string -> Result<Value>, value: Option<Value>): Result<Option<Value>>
  {
    if value.None? || !Truthy(value.value) then Ok(None)
    else
      match parse(ToString(value.value))
      case Err(_) => Ok(None)
      case Ok(parsed) =>
        if parsed.Undefined? || parsed.Null? then Err(Error(TypeErrorMessage))
        else if !Truthy(SummaryField(parsed)) then Ok(None)
        else Ok(Some(parsed))
  }

  function SummaryOf(gpt: Gpt, ada: Value, text: Value): Result<Option<Value>>
  {
    Validated(gpt.parse, Answer(gpt.chat, UserPrompt(ada, text), 0))
  }

  /** `getSummary`: ask, then validate. */
  method GetSummary(gpt: Gpt, ada: Value, text: Value) returns (r: Result<Option<Value>>, calls: nat)
    ensures r == SummaryOf(gpt, ada, text) && calls == Calls(gpt.chat, UserPrompt(ada, text), 0)
  {
    var value;
    value, calls := Ask(gpt.chat, UserPrompt(ada, text));
    if value.None? || !Truthy(value.value) {
      return Ok(None), calls;
    }
    var parsed := gpt.parse(ToString(value.value));
    if parsed.Err? {
      return Ok(None), calls;
    }
    if parsed.value.Undefined? || parsed.value.Null? {
      return Err(Error(TypeErrorMessage)), calls;
    }
    if !Truthy(SummaryField(parsed.value)) {
      return Ok(None), calls;
    }
    r := Ok(Some(parsed.value));
  }

  /** A kept summary is an object parsed from a truthy answer of the model, and its
      `summary` field is truthy; a summary is dropped exactly when the model never answered,
      answered with a falsy value or with text that does not parse, or the parsed object
      has no truthy `summary`. */
  lemma KeptSummaryValid(gpt: Gpt, ada: Value, text: Value)
    requires SummaryOf(gpt, ada, text).Ok?
    ensures var answer := Answer(gpt.chat, UserPrompt(ada, text), 0);
            var kept := SummaryOf(gpt, ada, text).value;
            && (kept.Some? ==>
                  && answer.Some? && Truthy(answer.value)
                  && gpt.parse(ToString(answer.value)) == Ok(kept.value)
                  && !kept.value.Null? && !kept.value.Undefined?
                  && Truthy(SummaryField(kept.value)))
            && (kept.None? <==>
                  || answer.None? || !Truthy(answer.value)
                  || gpt.parse(ToString(answer.value)).Err?
                  || !Truthy(SummaryField(gpt.parse(ToString(answer.value)).value)))
  {
  }

  // ---------------------------------------------------------------------------------
  // A page of texts

  /** The result of `getSummary` for every text of a page, or the first error. */
  function SummarizeAll(gpt: Gpt, rows: seq<TextInput>): (r: Result<seq<Option<Value>>>)
    ensures r.Ok? ==> |r.value| == |rows|
  {
    if |rows| == 0 then Ok([])
    else
      var init := rows[..|rows| - 1];
      match SummarizeAll(gpt, init)
      case Err(e) => Err(e)
      case Ok(results) =>
        var last := rows[|rows| - 1];
        match SummaryOf(gpt, last.ada, last.text)
        case Err(e) => Err(e)
        case Ok(s) => Ok(results + [s])
  }

  /** The page succeeds exactly when every text's summary does, and then holds each text's
      result at its position. */
  lemma {:induction false} SummarizeAllPointwise(gpt: Gpt, rows: seq<TextInput>)
    ensures SummarizeAll(gpt, rows).Ok? <==> forall i :: 0 <= i < |rows| ==> SummaryOf(gpt, rows[i].ada, rows[i].text).Ok?
    ensures SummarizeAll(gpt, rows).Ok? ==>
              forall i :: 0 <= i < |rows| ==> SummarizeAll(gpt, rows).value[i] == SummaryOf(gpt, rows[i].ada, rows[i].text).value
  {
    if |rows| > 0 {
      var init := rows[..|rows| - 1];
      SummarizeAllPointwise(gpt, init);
      assert forall i :: 0 <= i < |init| ==> init[i] == rows[i];
    }
  }

  lemma {:induction false} SummarizeAllStops(gpt: Gpt, rows: seq<TextInput>, n: nat)
    requires n <= |rows| && SummarizeAll(gpt, rows[..n]).Err?
    ensures SummarizeAll(gpt, rows) == SummarizeAll(gpt, rows[..n])
    decreases |rows|
  {
    if n < |rows| {
      var init := rows[..|rows| - 1];
      assert init[..n] == rows[..n];
      SummarizeAllStops(gpt, init, n);
    } else {
      assert rows[..n] == rows;
    }
  }

  /** The `Promise.all` over the page, one text after the other. */
  method SummarizePage(gpt: Gpt, rows: seq<TextInput>) returns (r: Result<seq<Option<Value>>>)
    ensures r == SummarizeAll(gpt, rows)
  {
    var results: seq<Option<Value>> := [];
    var i := 0;
    while i < |rows|
      invariant 0 <= i <= |rows|
      invariant SummarizeAll(gpt, rows[..i]) == Ok(results)
    {
      assert rows[..i + 1][..i] == rows[..i];
      var s, _ := GetSummary(gpt, rows[i].ada, rows[i].text);
      if s.Err? {
        SummarizeAllStops(gpt, rows, i + 1);
        return Err(s.error);
      }
      results := results + [s.value];
      i := i + 1;
    }
    assert rows[..i] == rows;
    r := Ok(results);
  }

  /** A summary ready to be stored. */
  datatype Summary = Summary(textId: Value, decisionAda: Value, summary: Value, extractedData: Value)

  /** The non-null results, in order. */
  function Kept(results: seq<Option<Value>>): (r: seq<Value>)
    ensures |r| <= |results|
  {
    if |results| == 0 then []
    else Kept(results[..|results| - 1])
         + (if results[|results| - 1].Some? then [results[|results| - 1].value] else [])
  }

  /** The number of null results. */
  function NullCount(results: seq<Option<Value>>): (n: nat)
    ensures n + |Kept(results)| == |results|
  {
    if |results| == 0 then 0
    else NullCount(results[..|results| - 1]) + (if results[|results| - 1].None? then 1 else 0)
  }

  /** Lines 40-47 of `run` as written: the non-null results are filtered first and then
      numbered, so the `i`-th kept summary is labelled with the id and ADA of the `i`-th
      text of the page, whichever text it summarizes. */
  function Labelled(rows: seq<TextInput>, results: seq<Option<Value>>): (r: seq<Summary>)
    requires |results| == |rows|
    ensures |r| == |Kept(results)|
  {
    var kept := Kept(results);
    seq(|kept|, i requires 0 <= i < |kept| => Summary(Num(rows[i].id), rows[i].ada, SummaryField(kept[i]), kept[i]))
  }

  /** With a failure before a kept summary, the summary is stored under the wrong text:
      two texts whose first summary fails store the second's summary under the first's id. */
  lemma MislabelledAfterFailure(summary: Value)
    ensures var rows := [TextInput(1, Str("A"), Str("first"), Null), TextInput(2, Str("B"), Str("second"), Null)];
            var results := [None, Some(summary)];
            var saved := Labelled(rows, results);
            |saved| == 1 && saved[0].extractedData == summary && saved[0].textId == Num(1)
  {
    var results: seq<Option<Value>> := [None, Some(summary)];
    assert results[..1] == [None];
    assert Kept(results[..1]) == [] by {
      assert results[..1][..0] == [];
    }
    assert Kept(results) == [summary];
  }

  /** What lines 40-47 are evidently meant to do: keep each non-null result together with
      the text it summarizes. */
  function LabelledIntended(rows: seq<TextInput>, results: seq<Option<Value>>): (r: seq<Summary>)
    requires |results| == |rows|
    ensures |r| == |Kept(results)|
  {
    if |rows| == 0 then []
    else
      var n := |rows| - 1;
      LabelledIntended(rows[..n], results[..n])
      + (if results[n].Some? then [Summary(Num(rows[n].id), rows[n].ada, SummaryField(results[n].value), results[n].value)] else [])
  }

  /** Each summary the intended labelling keeps is stored under the id and ADA of the text
      it summarizes, with that summary's `summary` field. */
  lemma {:induction false} IntendedLabelsMatch(rows: seq<TextInput>, results: seq<Option<Value>>)
    requires |results| == |rows|
    ensures forall k :: 0 <= k < |LabelledIntended(rows, results)| ==>
              LabelledIntended(rows, results)[k].summary == SummaryField(LabelledIntended(rows, results)[k].extractedData)
    ensures forall k :: 0 <= k < |LabelledIntended(rows, results)| ==>
              exists i :: 0 <= i < |rows| && results[i] == Some(LabelledIntended(rows, results)[k].extractedData)
                          && LabelledIntended(rows, results)[k].textId == Num(rows[i].id)
                          && LabelledIntended(rows, results)[k].decisionAda == rows[i].ada
  {
    if |rows| > 0 {
      var n := |rows| - 1;
      IntendedLabelsMatch(rows[..n], results[..n]);
      var init := LabelledIntended(rows[..n], results[..n]);
      var all := LabelledIntended(rows, results);
      forall k | 0 <= k < |all|
        ensures all[k].summary == SummaryField(all[k].extractedData)
        ensures exists i :: 0 <= i < |rows| && results[i] == Some(all[k].extractedData)
                            && all[k].textId == Num(rows[i].id) && all[k].decisionAda == rows[i].ada
      {
        if k < |init| {
          var i :| 0 <= i < n && results[..n][i] == Some(init[k].extractedData)
                   && init[k].textId == Num(rows[..n][i].id) && init[k].decisionAda == rows[..n][i].ada;
          assert all[k] == init[k];
          assert results[i] == Some(all[k].extractedData) && all[k].textId == Num(rows[i].id);
        } else {
          assert results[n] == Some(all[k].extractedData) && all[k].textId == Num(rows[n].id);
        }
      }
    } else {
      assert LabelledIntended(rows, results) == [];
    }
  }

  /** The two labellings agree on a page without failures. */
  lemma {:induction false} LabelsAgreeWithoutFailures(rows: seq<TextInput>, results: seq<Option<Value>>)
    requires |results| == |rows| && NullCount(results) == 0
    ensures Labelled(rows, results) == LabelledIntended(rows, results)
  {
    KeptAll(results);
    if |rows| > 0 {
      var n := |rows| - 1;
      assert NullCount(results[..n]) == 0;
      LabelsAgreeWithoutFailures(rows[..n], results[..n]);
      KeptAll(results[..n]);
      var a, b := Labelled(rows, results), LabelledIntended(rows, results);
      assert |a| == |b|;
      forall i | 0 <= i < |a| ensures a[i] == b[i] {
        if i < n {
          assert b[i] == LabelledIntended(rows[..n], results[..n])[i] == Labelled(rows[..n], results[..n])[i];
        }
      }
    }
  }

  /** Every kept summary is one of the non-null results. */
  lemma {:induction false} KeptFromResults(results: seq<Option<Value>>)
    ensures forall k :: 0 <= k < |Kept(results)| ==>
              exists i :: 0 <= i < |results| && results[i] == Some(Kept(results)[k])
  {
    if |results| > 0 {
      var n := |results| - 1;
      KeptFromResults(results[..n]);
      var init, all := Kept(results[..n]), Kept(results);
      forall k | 0 <= k < |all|
        ensures exists i :: 0 <= i < |results| && results[i] == Some(all[k])
      {
        if k < |init| {
          var i :| 0 <= i < n && results[..n][i] == Some(init[k]);
          assert all[k] == init[k] && results[i] == Some(all[k]);
        } else {
          assert results[n] == Some(all[k]);
        }
      }
    } else {
      assert Kept(results) == [];
    }
  }

  /** Without failures every result is kept, in place. */
  lemma {:induction false} KeptAll(results: seq<Option<Value>>)
    requires NullCount(results) == 0
    ensures |Kept(results)| == |results|
    ensures forall i :: 0 <= i < |results| ==> results[i] == Some(Kept(results)[i])
  {
    if |results| > 0 {
      var n := |results| - 1;
      KeptAll(results[..n]);
    }
  }

  // ---------------------------------------------------------------------------------
  // Saving

  function SummaryRows(taskId: nat, summaries: seq<Summary>): (r: seq<SummaryRow>)
    ensures |r| == |summaries|
    ensures forall i :: 0 <= i < |summaries| ==>
      r[i] == SummaryRow(taskId, summaries[i].decisionAda, summaries[i].textId, summaries[i].summary, summaries[i].extractedData)
  {
    if |summaries| == 0 then []
    else
      var s := summaries[|summaries| - 1];
      SummaryRows(taskId, summaries[..|summaries| - 1]) + [SummaryRow(taskId, s.decisionAda, s.textId, s.summary, s.extractedData)]
  }

  lemma SummaryRowsAppend(taskId: nat, a: seq<Summary>, b: seq<Summary>)
    ensures SummaryRows(taskId, a + b) == SummaryRows(taskId, a) + SummaryRows(taskId, b)
  {
    assert forall i :: 0 <= i < |a + b| ==>
      SummaryRows(taskId, a + b)[i] == (SummaryRows(taskId, a) + SummaryRows(taskId, b))[i];
  }

  /** `saveSummaries`: one INSERT per summary, in order. */
  method SaveSummaries(db: Database, taskId: nat, summaries: seq<Summary>)
    modifies db`summaries
    ensures db.summaries == old(db.summaries) + SummaryRows(taskId, summaries)
  {
    var i := 0;
    while i < |summaries|
      invariant 0 <= i <= |summaries|
      invariant db.summaries == old(db.summaries) + SummaryRows(taskId, summaries[..i])
    {
      var s := summaries[i];
      db.summaries := db.summaries + [SummaryRow(taskId, s.decisionAda, s.textId, s.summary, s.extractedData)];
      assert summaries[..i + 1][..i] == summaries[..i];
      i := i + 1;
    }
    assert summaries[..i] == summaries;
  }

  // ---------------------------------------------------------------------------------
  // The run

  /** What the first pages of a run produced: the summaries stored, the failures counted,
      and the `texts_processed` of the last page. */
  datatype Tally = Tally(summaries: seq<Summary>, failures: nat, processed: nat)

  function SummaryMetrics(processed: nat, failures: nat): Value
  {
    Obj(map["texts_processed" := Num(processed), "failures" := Num(failures)])
  }

  /** The tally after the first `pages` pages of `inputs`, or the error of the first page
      that throws.  The kept summaries are labelled as the program labels them (`Labelled`):
      after a null result, a summary goes under an earlier text of its page. */
  function Summarized(gpt: Gpt, inputs: seq<TextInput>, pages: nat): Result<Tally>
  {
    if pages == 0 then Ok(Tally([], 0, 0))
    else
      match Summarized(gpt, inputs, pages - 1)
      case Err(e) => Err(e)
      case Ok(t) =>
        var rows := Page(inputs, BatchSize * (pages - 1), BatchSize);
        match SummarizeAll(gpt, rows)
        case Err(e) => Err(e)
        case Ok(results) => Ok(NextTally(t, BatchSize * (pages - 1), rows, results))
  }

  /** The table and the metrics once the summaries of tally `t` are stored, after `pages`
      pages. */
  ghost predicate Stored(taskId: nat, start: seq<SummaryRow>, startMetrics: Value, pages: nat, t: Tally,
                         now: seq<SummaryRow>, metrics: Value)
  {
    && now == start + SummaryRows(taskId, t.summaries)
    && (pages == 0 ==> metrics == startMetrics)
    && (pages > 0 ==> metrics == SummaryMetrics(t.processed, t.failures))
  }

  /** How the page loop ended after storing `pages` pages: at an empty page, or at the page
      that threw. */
  ghost predicate PagesEnded(gpt: Gpt, inputs: seq<TextInput>, taskId: nat, start: seq<SummaryRow>,
                             startMetrics: Value, pages: nat, o: RunOutcome, now: seq<SummaryRow>, metrics: Value)
  {
    && Summarized(gpt, inputs, pages).Ok?
    && Stored(taskId, start, startMetrics, pages, Summarized(gpt, inputs, pages).value, now, metrics)
    && !o.Exited?
    && (pages > 0 ==> BatchSize * (pages - 1) < |inputs|)
    && (o.Returned? ==> BatchSize * pages >= |inputs|)
    && (o.Threw? ==> BatchSize * pages < |inputs|
                     && SummarizeAll(gpt, Page(inputs, BatchSize * pages, BatchSize)) == Err(o.error))
  }

  /** One page further: the tally grows by the page's kept summaries and failures. */
  lemma SummarizedStep(gpt: Gpt, inputs: seq<TextInput>, pages: nat, t: Tally, results: seq<Option<Value>>)
    requires Summarized(gpt, inputs, pages) == Ok(t)
    requires SummarizeAll(gpt, Page(inputs, BatchSize * pages, BatchSize)) == Ok(results)
    ensures Summarized(gpt, inputs, pages + 1) == Ok(NextTally(t, BatchSize * pages, Page(inputs, BatchSize * pages, BatchSize), results))
  {
  }

  /** The tally after a page at `offset` whose summaries came out as `results`. */
  function NextTally(t: Tally, offset: nat, rows: seq<TextInput>, results: seq<Option<Value>>): Tally
    requires |results| == |rows|
  {
    var saved := Labelled(rows, results);
    Tally(t.summaries + saved, t.failures + NullCount(results), offset + |saved|)
  }

  lemma StoredStep(taskId: nat, start: seq<SummaryRow>, startMetrics: Value, pages: nat, t: Tally,
                   now: seq<SummaryRow>, metrics: Value, offset: nat, rows: seq<TextInput>, results: seq<Option<Value>>)
    requires |results| == |rows|
    requires Stored(taskId, start, startMetrics, pages, t, now, metrics)
    ensures var u := NextTally(t, offset, rows, results);
            Stored(taskId, start, startMetrics, pages + 1, u,
                   now + SummaryRows(taskId, Labelled(rows, results)), SummaryMetrics(u.processed, u.failures))
  {
    SummaryRowsAppend(taskId, t.summaries, Labelled(rows, results));
    SeqAssoc(start, SummaryRows(taskId, t.summaries), SummaryRows(taskId, Labelled(rows, results)));
  }

  /** One iteration on a non-empty page: summarize it, then store what it kept. */
  method StorePage(task: Task, gpt: Gpt, rows: seq<TextInput>, offset: nat, failures: nat,
                   ghost pages: nat, ghost t: Tally, ghost start: seq<SummaryRow>, ghost startMetrics: Value)
      returns (r: Result<nat>, ghost results: seq<Option<Value>>)
    requires task.Synced() && failures == t.failures
    requires Stored(task.id.value, start, startMetrics, pages, t, task.db.summaries, task.metrics)
    modifies task`metrics, task`updatedAt, task`id, task.db`tasks, task.db`taskSerial, task.db`clock, task.db`summaries
    ensures task.Synced() && task.id == old(task.id)
    ensures r.Err? ==> SummarizeAll(gpt, rows) == Err(r.error)
    ensures r.Err? ==> task.db.summaries == old(task.db.summaries) && task.metrics == old(task.metrics)
    ensures r.Ok? ==> SummarizeAll(gpt, rows) == Ok(results) && r.value == NextTally(t, offset, rows, results).failures
    ensures r.Ok? ==> Stored(task.id.value, start, startMetrics, pages + 1, NextTally(t, offset, rows, results),
                             task.db.summaries, task.metrics)
  {
    var page := SummarizePage(gpt, rows);
    if page.Err? {
      return Err(page.error), [];
    }
    var values := page.value;
    results := values;
    var total := SavePage(task, rows, values, offset, failures, pages, t, start, startMetrics);
    r := Ok(total);
  }

  /** The end of an iteration: store the page's kept summaries under `Labelled`'s ids and
      ADAs, then replace the metrics with the new counts. */
  method SavePage(task: Task, rows: seq<TextInput>, results: seq<Option<Value>>, offset: nat, failures: nat,
                  ghost pages: nat, ghost t: Tally, ghost start: seq<SummaryRow>, ghost startMetrics: Value)
      returns (total: nat)
    requires |results| == |rows| && task.Synced() && failures == t.failures
    requires Stored(task.id.value, start, startMetrics, pages, t, task.db.summaries, task.metrics)
    modifies task`metrics, task`updatedAt, task`id, task.db`tasks, task.db`taskSerial, task.db`clock, task.db`summaries
    ensures task.Synced() && task.id == old(task.id)
    ensures total == NextTally(t, offset, rows, results).failures
    ensures Stored(task.id.value, start, startMetrics, pages + 1, NextTally(t, offset, rows, results),
                   task.db.summaries, task.metrics)
  {
    var summaries := Labelled(rows, results);
    total := failures + NullCount(results);
    StoredStep(task.id.value, start, startMetrics, pages, t, task.db.summaries, task.metrics, offset, rows, results);
    SaveSummaries(task.db, task.id.value, summaries);
    SyncedKept(task);
    task.UpdateMetrics(SummaryMetrics(offset + |summaries|, total));
  }

  /** The page loop of `run`, over texts the loop does not write. */
  method RunPages(task: Task, gpt: Gpt, inputs: seq<TextInput>) returns (o: RunOutcome, ghost pages: nat)
    requires task.Synced()
    modifies task`metrics, task`updatedAt, task`id, task.db`tasks, task.db`taskSerial, task.db`clock, task.db`summaries
    ensures task.Synced() && task.id == old(task.id)
    ensures PagesEnded(gpt, inputs, task.id.value, old(task.db.summaries), old(task.metrics), pages, o,
                       task.db.summaries, task.metrics)
  {
    ghost var start, startMetrics := task.db.summaries, task.metrics;
    var offset: nat := 0;
    var failures: nat := 0;
    pages := 0;
    ghost var t := Tally([], 0, 0);
    assert start + SummaryRows(task.id.value, []) == start;
    while true
      invariant task.Synced() && task.id == old(task.id)
      invariant offset == BatchSize * pages
      invariant pages > 0 ==> BatchSize * (pages - 1) < |inputs|
      invariant Summarized(gpt, inputs, pages) == Ok(t) && failures == t.failures
      invariant Stored(task.id.value, start, startMetrics, pages, t, task.db.summaries, task.metrics)
      decreases |inputs| + BatchSize - offset
    {
      var rows := Page(inputs, offset, BatchSize);
      if |rows| == 0 {
        return Returned, pages;
      }
      var stored, results := StorePage(task, gpt, rows, offset, failures, pages, t, start, startMetrics);
      if stored.Err? {
        return Threw(stored.error), pages;
      }
      SummarizedStep(gpt, inputs, pages, t, results);
      t := NextTally(t, offset, rows, results);
      failures := stored.value;
      offset := offset + BatchSize;
      pages := pages + 1;
    }
  }

  /** How a run with `params` over the tables `texts` and `decisions` ended. */
  ghost predicate RunEnded(gpt: Gpt, params: Value, texts: seq<TextRow>, decisions: seq<DecisionRow>, taskId: nat,
                           start: seq<SummaryRow>, startMetrics: Value, pages: nat, o: RunOutcome,
                           now: seq<SummaryRow>, metrics: Value)
  {
    if !Truthy(params) then
      o == Threw(Error(ParamsNotSetMessage)) && now == start && metrics == startMetrics
    else if !Truthy(Get(params, "textExtractorTaskId").value) then
      o == Threw(Error(MissingParamsMessage)) && now == start && metrics == startMetrics
    else
      match IntegerParam(Get(params, "textExtractorTaskId").value)
      case Err(e) => o == Threw(e) && now == start && metrics == startMetrics
      case Ok(id) =>
        PagesEnded(gpt, TextInputs(texts, decisions, id, 0), taskId, start, startMetrics, pages, o, now, metrics)
  }

  /** `run`: the parameter checks, then the page loop.  The check that the text extractor
      exists tests a pending promise, which is always truthy, so it never refuses. */
  method Run(task: Task, gpt: Gpt) returns (o: RunOutcome, ghost pages: nat)
    requires task.Synced()
    modifies task`metrics, task`updatedAt, task`id, task.db`tasks, task.db`taskSerial, task.db`clock, task.db`summaries
    ensures task.Synced() && task.id == old(task.id)
    ensures RunEnded(gpt, task.params, task.db.texts, task.db.decisions, task.id.value, old(task.db.summaries),
                     old(task.metrics), pages, o, task.db.summaries, task.metrics)
  {
    pages := 0;
    var params := task.params;
    if !Truthy(params) {
      return Threw(Error(ParamsNotSetMessage)), pages;
    }
    var textExtractorTaskId := Get(params, "textExtractorTaskId").value;
    if !Truthy(textExtractorTaskId) {
      return Threw(Error(MissingParamsMessage)), pages;
    }
    var id := IntegerParam(textExtractorTaskId);
    if id.Err? {
      return Threw(id.error), pages;
    }
    var inputs := TextInputs(task.db.texts, task.db.decisions, id.value, 0);
    o, pages := RunPages(task, gpt, inputs);
  }

  /** The second half of `start`: run, then record how the run ended. */
  method RunAndFinish(task: Task, gpt: Gpt) returns (r: Outcome, o: RunOutcome, ghost pages: nat)
    requires task.Synced()
    modifies task`status, task`metrics, task`updatedAt, task`id, task.db`tasks, task.db`taskSerial, task.db`clock
    modifies task.db`summaries
    ensures task.Synced() && task.id == old(task.id)
    ensures RunEnded(gpt, task.params, task.db.texts, task.db.decisions, task.id.value, old(task.db.summaries),
                     old(task.metrics), pages, o, task.db.summaries, task.metrics)
    ensures r == (if o.Returned? then Pass else Fail(o.error))
    ensures task.status == Some(if o.Returned? then Succeeded else Failed)
  {
    o, pages := Run(task, gpt);
    r := task.Conclude(o);
  }

  /** `start` for the summarizer. */
  method Start(task: Task, gpt: Gpt, params: Value, given: Option<int>)
      returns (r: Outcome, o: RunOutcome, ghost pages: nat)
    requires task.db.Valid()
    modifies task`params, task`version, task`status, task`createdAt, task`updatedAt, task`id, task`metrics
    modifies task.db`tasks, task.db`taskSerial, task.db`clock, task.db`summaries
    ensures task.version == Some(ChosenVersion(old(task.db.tasks), task.taskType, task.implementation, task.name, given))
    ensures FindTask(old(task.db.tasks), task.Key()).Some? ==>
      && r == Fail(Error(DuplicateMessage(task.Key())))
      && task.db.tasks == old(task.db.tasks) && task.db.summaries == old(task.db.summaries)
    ensures FindTask(old(task.db.tasks), task.Key()).None? ==>
      && task.Synced() && task.params == params
      && RunEnded(gpt, task.params, task.db.texts, task.db.decisions, task.id.value, old(task.db.summaries),
                  old(task.metrics), pages, o, task.db.summaries, task.metrics)
      && r == (if o.Returned? then Pass else Fail(o.error))
      && task.status == Some(if o.Returned? then Succeeded else Failed)
  {
    pages := 0;
    o := Returned;
    ghost var summaries, metrics := task.db.summaries, task.metrics;
    var begun := task.Open(params, given);
    assert task.db.summaries == summaries && task.metrics == metrics;
    if begun.Fail? {
      return begun, o, pages;
    }
    r, o, pages := RunAndFinish(task, gpt);
  }

  // ---------------------------------------------------------------------------------
  // What a run guarantees

  /** Every text of the pages read is either stored as a summary or counted as a failure,
      and `texts_processed` is the page's offset plus the summaries it stored. */
  lemma {:induction false} EveryTextAccounted(gpt: Gpt, inputs: seq<TextInput>, pages: nat)
    requires Summarized(gpt, inputs, pages).Ok?
    ensures var t := Summarized(gpt, inputs, pages).value;
            |t.summaries| + t.failures == Min(BatchSize * pages, |inputs|)
    ensures pages > 0 ==>
              var t := Summarized(gpt, inputs, pages).value;
              var before := Summarized(gpt, inputs, pages - 1).value;
              t.processed == BatchSize * (pages - 1) + (|t.summaries| - |before.summaries|)
  {
    if pages > 0 {
      EveryTextAccounted(gpt, inputs, pages - 1);
    }
  }

  /** The tally of a page extends the tally before it. */
  lemma SummarizedExtends(gpt: Gpt, inputs: seq<TextInput>, q: nat)
    requires q > 0 && Summarized(gpt, inputs, q).Ok?
    ensures Summarized(gpt, inputs, q - 1).Ok?
    ensures Summarized(gpt, inputs, q - 1).value.failures <= Summarized(gpt, inputs, q).value.failures
    ensures Prefix(Summarized(gpt, inputs, q - 1).value.summaries, Summarized(gpt, inputs, q).value.summaries)
  {
    var rows := Page(inputs, BatchSize * (q - 1), BatchSize);
    var results := SummarizeAll(gpt, rows).value;
    var before := Summarized(gpt, inputs, q - 1).value.summaries;
    var saved := Labelled(rows, results);
    assert (before + saved)[..|before|] == before;
  }

  predicate Prefix<T(==)>(a: seq<T>, b: seq<T>)
  {
    |a| <= |b| && b[..|a|] == a
  }

  /** The failure count never goes down from one page to the next, and what was stored
      stays stored. */
  lemma {:induction false} FailuresNeverDecrease(gpt: Gpt, inputs: seq<TextInput>, p: nat, q: nat)
    requires p <= q && Summarized(gpt, inputs, q).Ok?
    ensures Summarized(gpt, inputs, p).Ok?
    ensures Summarized(gpt, inputs, p).value.failures <= Summarized(gpt, inputs, q).value.failures
    ensures Prefix(Summarized(gpt, inputs, p).value.summaries, Summarized(gpt, inputs, q).value.summaries)
    decreases q
  {
    if p < q {
      SummarizedExtends(gpt, inputs, q);
      FailuresNeverDecrease(gpt, inputs, p, q - 1);
      var a, b := Summarized(gpt, inputs, p).value.summaries, Summarized(gpt, inputs, q - 1).value.summaries;
      var c := Summarized(gpt, inputs, q).value.summaries;
      assert c[..|a|] == b[..|a|];
    }
  }

  /** A run that returns read every text: each is stored or counted as a failure. */
  lemma RunCoversAllTexts(gpt: Gpt, inputs: seq<TextInput>, taskId: nat, start: seq<SummaryRow>,
                          startMetrics: Value, pages: nat, now: seq<SummaryRow>, metrics: Value)
    requires PagesEnded(gpt, inputs, taskId, start, startMetrics, pages, Returned, now, metrics)
    ensures var t := Summarized(gpt, inputs, pages).value;
            |now| == |start| + |t.summaries| && |t.summaries| + t.failures == |inputs|
  {
    EveryTextAccounted(gpt, inputs, pages);
  }

  /** Every stored row carries this task's id and a truthy summary taken from the object
      stored beside it. */
  lemma StoredRowsValid(gpt: Gpt, inputs: seq<TextInput>, pages: nat, taskId: nat)
    requires Summarized(gpt, inputs, pages).Ok?
    ensures var rows := SummaryRows(taskId, Summarized(gpt, inputs, pages).value.summaries);
            forall i :: 0 <= i < |rows| ==>
              && rows[i].summarizerTaskId == taskId
              && rows[i].extractedData.Obj?
              && rows[i].summary == SummaryField(rows[i].extractedData)
              && Truthy(rows[i].summary)
  {
    SummariesValid(gpt, inputs, pages);
  }

  lemma {:induction false} SummariesValid(gpt: Gpt, inputs: seq<TextInput>, pages: nat)
    requires Summarized(gpt, inputs, pages).Ok?
    ensures var s := Summarized(gpt, inputs, pages).value.summaries;
            forall i :: 0 <= i < |s| ==>
              s[i].extractedData.Obj? && s[i].summary == SummaryField(s[i].extractedData) && Truthy(s[i].summary)
  {
    if pages > 0 {
      SummariesValid(gpt, inputs, pages - 1);
      var rows := Page(inputs, BatchSize * (pages - 1), BatchSize);
      var results := SummarizeAll(gpt, rows).value;
      ResultsValid(gpt, rows, results);
      KeptFromResults(results);
    }
  }

  /** Every result the page keeps is an object with a truthy `summary`. */
  lemma ResultsValid(gpt: Gpt, rows: seq<TextInput>, results: seq<Option<Value>>)
    requires SummarizeAll(gpt, rows) == Ok(results)
    ensures forall i :: 0 <= i < |results| && results[i].Some? ==>
              results[i].value.Obj? && Truthy(SummaryField(results[i].value))
  {
    SummarizeAllPointwise(gpt, rows);
    forall i | 0 <= i < |results| && results[i].Some?
      ensures results[i].value.Obj? && Truthy(SummaryField(results[i].value))
    {
      KeptSummaryValid(gpt, rows[i].ada, rows[i].text);
      assert results[i] == SummaryOf(gpt, rows[i].ada, rows[i].text).value;
      SummaryIsObject(gpt.parse, Answer(gpt.chat, UserPrompt(rows[i].ada, rows[i].text), 0));
    }
  }

  /** A validated summary with a truthy `summary` field is a JSON object: the other values
      `JSON.parse` returns have no such field. */
  lemma SummaryIsObject(parse: string -> Result<Value>, value: Option<Value>)
    requires Validated(parse, value).Ok? && Validated(parse, value).value.Some?
    ensures Validated(parse, value).value.value.Obj?
  {
  }
}
