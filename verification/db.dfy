/**
 * The PostgreSQL tables the pipeline reads and writes, held in memory.  Every table
 * with a `serial` id is a sequence of rows in insertion order; the lineage tables
 * (decisions, texts, summaries, embeddings, semantic points) are only ever appended
 * to, so a row's id is its position plus one.
 */
module Db {
  import opened Base
  import opened Strs
  import opened Js
  import opened Vectors

  /** The `type` column each stage's base class writes for its tasks. */
  const IngestorType := "ingestor"
  const TextExtractorType := "text-extractor"
  const SummarizerType := "summarizer"
  const EmbedderType := "embedder"
  const ReducerType := "dimensionality-reducer"

  datatype TaskStatus = Running | Succeeded | Failed

  /** A task's identity: the conflict target of the upsert. */
  datatype TaskKey = TaskKey(taskType: string, implementation: string, name: string, version: int)

  datatype TaskRow = TaskRow(
    id: nat,
    key: TaskKey,
    status: TaskStatus,
    createdAt: nat,
    updatedAt: nat,
    params: Value,
    metrics: Value)

  /** The optional columns of `Task.count`; `None` matches every row. */
  datatype TaskFilter = TaskFilter(
    taskType: Option<string>,
    implementation: Option<string>,
    name: Option<string>,
    version: Option<int>,
    status: Option<TaskStatus>)

  /** A row of `configurations`: a view over one task of each stage. */
  datatype ConfigurationRow = ConfigurationRow(
    id: nat,
    name: Value,
    ingestorTaskId: nat,
    textExtractorTaskId: nat,
    summarizerTaskId: Option<nat>,
    embedderTaskId: nat,
    dimensionalityReducerTaskId: nat)

  datatype DecisionRow = DecisionRow(ingestorTaskId: nat, ada: Value, documentUrl: Value, metadata: Value)

  /** `text` is `None` for SQL NULL. */
  datatype TextRow = TextRow(
    textExtractorTaskId: nat,
    decisionAda: Value,
    decisionId: Value,
    text: Option<string>,
    metadata: Value)

  datatype SummaryRow = SummaryRow(summarizerTaskId: nat, decisionAda: Value, textId: Value, summary: Value, extractedData: Value)

  datatype EmbeddingRow = EmbeddingRow(embedderTaskId: nat, textId: Value, embeddingSeq: nat, embedding: Vector)

  datatype SemanticPointRow = SemanticPointRow(reducerTaskId: nat, decisionAda: Value, decisionId: Value, x: real, y: real)

  // ---------------------------------------------------------------------------------
  // The tasks table

  predicate Matches(row: TaskRow, f: TaskFilter)
  {
    && (f.taskType.None? || f.taskType.value == row.key.taskType)
    && (f.implementation.None? || f.implementation.value == row.key.implementation)
    && (f.name.None? || f.name.value == row.key.name)
    && (f.version.None? || f.version.value == row.key.version)
    && (f.status.None? || f.status.value == row.status)
  }

  /** `SELECT COUNT(*) FROM tasks WHERE ...` with the filter's present columns. */
  function CountTasks(rows: seq<TaskRow>, f: TaskFilter): (n: nat)
    ensures n <= |rows|
    ensures n > 0 <==> exists i :: 0 <= i < |rows| && Matches(rows[i], f)
  {
    if |rows| == 0 then 0
    else
      var rest := CountTasks(rows[1..], f);
      assert forall i :: 1 <= i < |rows| ==> rows[i] == rows[1..][i - 1];
      (if Matches(rows[0], f) then 1 else 0) + rest
  }

  function KeyFilter(key: TaskKey): TaskFilter
  {
    TaskFilter(Some(key.taskType), Some(key.implementation), Some(key.name), Some(key.version), None)
  }

  /** The position of the row with this identity, if any. */
  function FindTask(rows: seq<TaskRow>, key: TaskKey): (r: Option<nat>)
    ensures r.Some? ==> r.value < |rows| && rows[r.value].key == key
    ensures r.Some? ==> forall j :: r.value < j < |rows| ==> rows[j].key != key
    ensures r.None? <==> forall i :: 0 <= i < |rows| ==> rows[i].key != key
  {
    if |rows| == 0 then None
    else if rows[|rows| - 1].key == key then Some(|rows| - 1)
    else FindTask(rows[..|rows| - 1], key)
  }

  /** Counting with every key column given finds a row exactly when the identity is taken. */
  lemma CountByKey(rows: seq<TaskRow>, key: TaskKey)
    ensures CountTasks(rows, KeyFilter(key)) > 0 <==> FindTask(rows, key).Some?
  {
    if CountTasks(rows, KeyFilter(key)) > 0 {
      var i :| 0 <= i < |rows| && Matches(rows[i], KeyFilter(key));
      assert rows[i].key == key;
    }
  }

  /** `SELECT MAX(version) FROM tasks WHERE type = $1 AND implementation = $2 AND name = $3`. */
  function MaxVersion(rows: seq<TaskRow>, taskType: string, implementation: string, name: string): (r: Option<int>)
    ensures r.None? <==> forall i :: 0 <= i < |rows| ==>
      !(rows[i].key.taskType == taskType && rows[i].key.implementation == implementation && rows[i].key.name == name)
    ensures r.Some? ==> exists i :: 0 <= i < |rows| && rows[i].key == TaskKey(taskType, implementation, name, r.value)
    ensures r.Some? ==> forall i :: 0 <= i < |rows| ==>
      (rows[i].key.taskType == taskType && rows[i].key.implementation == implementation && rows[i].key.name == name
       ==> rows[i].key.version <= r.value)
  {
    if |rows| == 0 then None
    else
      var last := rows[|rows| - 1];
      var rest := MaxVersion(rows[..|rows| - 1], taskType, implementation, name);
      if last.key.taskType == taskType && last.key.implementation == implementation && last.key.name == name then
        if rest.Some? && rest.value > last.key.version then rest
        else Some(last.key.version)
      else rest
  }

  /** `Task.getNextVersion`: 1 for a new (type, implementation, name), else the maximum plus 1. */
  function NextVersion(rows: seq<TaskRow>, taskType: string, implementation: string, name: string): (v: int)
    ensures MaxVersion(rows, taskType, implementation, name).None? ==> v == 1
    ensures MaxVersion(rows, taskType, implementation, name).Some? ==>
      v == MaxVersion(rows, taskType, implementation, name).value + 1
  {
    match MaxVersion(rows, taskType, implementation, name)
    case None => 1
    case Some(m) => m + 1
  }

  /** The next version is never taken, so a task started without a version never clashes. */
  lemma NextVersionIsFree(rows: seq<TaskRow>, taskType: string, implementation: string, name: string)
    ensures FindTask(rows, TaskKey(taskType, implementation, name, NextVersion(rows, taskType, implementation, name))).None?
  {
  }

  /** `SELECT MAX(id) FROM tasks WHERE type = $1`, or `None` for NULL. */
  function MaxTaskId(rows: seq<TaskRow>, taskType: string): (r: Option<nat>)
    ensures r.None? <==> forall i :: 0 <= i < |rows| ==> rows[i].key.taskType != taskType
    ensures r.Some? ==> exists i :: 0 <= i < |rows| && rows[i].key.taskType == taskType && rows[i].id == r.value
    ensures r.Some? ==> forall i :: 0 <= i < |rows| && rows[i].key.taskType == taskType ==> rows[i].id <= r.value
  {
    if |rows| == 0 then None
    else
      var last := rows[|rows| - 1];
      var rest := MaxTaskId(rows[..|rows| - 1], taskType);
      if last.key.taskType == taskType then
        if rest.Some? && rest.value > last.id then rest else Some(last.id)
      else rest
  }

  /** `Task.getLastTaskId`: the largest id among tasks of the type, and 1 when there are none. */
  function LastTaskId(rows: seq<TaskRow>, taskType: string): (id: nat)
    ensures MaxTaskId(rows, taskType).None? ==> id == 1
    ensures MaxTaskId(rows, taskType).Some? ==> id == MaxTaskId(rows, taskType).value
  {
    match MaxTaskId(rows, taskType)
    case None => 1
    case Some(m) => m
  }

  /** The row `Task.save` writes: the INSERT of a new identity takes the serial's value; an
      identity already present keeps its id and created_at, and the rest is overwritten. */
  function Upsert(rows: seq<TaskRow>, serial: nat, key: TaskKey, status: TaskStatus, createdAt: nat,
                  updatedAt: nat, params: Value, metrics: Value): (r: (seq<TaskRow>, nat))
    ensures FindTask(rows, key).None? ==>
      r.0 == rows + [TaskRow(serial, key, status, createdAt, updatedAt, params, metrics)] && r.1 == serial
    ensures FindTask(rows, key).Some? ==>
      var i := FindTask(rows, key).value;
      r.0 == rows[i := rows[i].(status := status, updatedAt := updatedAt, params := params, metrics := metrics)]
      && r.1 == rows[i].id
  {
    match FindTask(rows, key)
    case None => (rows + [TaskRow(serial, key, status, createdAt, updatedAt, params, metrics)], serial)
    case Some(i) => (rows[i := rows[i].(status := status, updatedAt := updatedAt, params := params, metrics := metrics)], rows[i].id)
  }

  /** Identities are unique, and ids are positive, increasing in insertion order and below
      the serial's next value. */
  ghost predicate TasksValid(rows: seq<TaskRow>, serial: nat)
  {
    && (forall i, j :: 0 <= i < j < |rows| ==> rows[i].key != rows[j].key && rows[i].id < rows[j].id)
    && (forall i :: 0 <= i < |rows| ==> 1 <= rows[i].id < serial)
  }

  /** Saving keeps the table valid, whatever the serial does on a conflict. */
  lemma UpsertValid(rows: seq<TaskRow>, serial: nat, key: TaskKey, status: TaskStatus, createdAt: nat,
                    updatedAt: nat, params: Value, metrics: Value)
    requires TasksValid(rows, serial) && serial >= 1
    ensures TasksValid(Upsert(rows, serial, key, status, createdAt, updatedAt, params, metrics).0, serial + 1)
  {
  }

  /** After a save, the identity is found at its old position or at the new last row. */
  lemma FindAfterUpsert(rows: seq<TaskRow>, serial: nat, key: TaskKey, status: TaskStatus, createdAt: nat,
                        updatedAt: nat, params: Value, metrics: Value)
    ensures var after := Upsert(rows, serial, key, status, createdAt, updatedAt, params, metrics);
            FindTask(after.0, key) == Some(if FindTask(rows, key).Some? then FindTask(rows, key).value else |rows|)
            && after.0[FindTask(after.0, key).value].id == after.1
  {
    var after := Upsert(rows, serial, key, status, createdAt, updatedAt, params, metrics);
    if FindTask(rows, key).None? {
      assert after.0[..|after.0| - 1] == rows;
    } else {
      var i := FindTask(rows, key).value;
      FindLast(after.0, key, i);
    }
  }

  /** After a save, the identity's row holds the saved fields, under the returned id, with
      the created_at of the first save. */
  lemma UpsertRow(rows: seq<TaskRow>, serial: nat, key: TaskKey, status: TaskStatus, createdAt: nat,
                  updatedAt: nat, params: Value, metrics: Value)
    ensures var after := Upsert(rows, serial, key, status, createdAt, updatedAt, params, metrics);
            var found := FindTask(rows, key);
            FindTask(after.0, key).Some?
            && after.0[FindTask(after.0, key).value] ==
               TaskRow(after.1, key, status, if found.Some? then rows[found.value].createdAt else createdAt,
                       updatedAt, params, metrics)
  {
    FindAfterUpsert(rows, serial, key, status, createdAt, updatedAt, params, metrics);
  }

  /** The last row with the key is the one found. */
  lemma {:induction false} FindLast(rows: seq<TaskRow>, key: TaskKey, i: nat)
    requires i < |rows| && rows[i].key == key
    requires forall j :: i < j < |rows| ==> rows[j].key != key
    ensures FindTask(rows, key) == Some(i)
  {
    if i != |rows| - 1 {
      FindLast(rows[..|rows| - 1], key, i);
    }
  }

  /** Saving the same identity twice leaves one row, with the id of the first save. */
  lemma UpsertTwice(rows: seq<TaskRow>, serial: nat, key: TaskKey, s1: TaskStatus, s2: TaskStatus,
                    createdAt: nat, u1: nat, u2: nat, p1: Value, p2: Value, m1: Value, m2: Value)
    requires TasksValid(rows, serial) && serial >= 1
    ensures var (once, id1) := Upsert(rows, serial, key, s1, createdAt, u1, p1, m1);
            var (twice, id2) := Upsert(once, serial + 1, key, s2, createdAt, u2, p2, m2);
            && id2 == id1
            && |twice| == |once| == |rows| + (if FindTask(rows, key).None? then 1 else 0)
            && TasksValid(twice, serial + 2)
            && FindTask(twice, key).Some?
            && twice[FindTask(twice, key).value].status == s2
  {
    var (once, id1) := Upsert(rows, serial, key, s1, createdAt, u1, p1, m1);
    UpsertValid(rows, serial, key, s1, createdAt, u1, p1, m1);
    FindAfterUpsert(rows, serial, key, s1, createdAt, u1, p1, m1);
    UpsertValid(once, serial + 1, key, s2, createdAt, u2, p2, m2);
    FindAfterUpsert(once, serial + 1, key, s2, createdAt, u2, p2, m2);
  }

  // ---------------------------------------------------------------------------------
  // The configurations table

  /** Ids are positive, increasing in insertion order and below the serial's next value. */
  ghost predicate ConfigurationsValid(rows: seq<ConfigurationRow>, serial: nat)
  {
    && (forall i, j :: 0 <= i < j < |rows| ==> rows[i].id < rows[j].id)
    && (forall i :: 0 <= i < |rows| ==> 1 <= rows[i].id < serial)
  }

  /** The largest id in a non-empty table. */
  function MaxConfigurationId(rows: seq<ConfigurationRow>): (id: nat)
    requires |rows| > 0
    ensures exists i :: 0 <= i < |rows| && rows[i].id == id
    ensures forall i :: 0 <= i < |rows| ==> rows[i].id <= id
  {
    if |rows| == 1 then rows[0].id
    else
      var rest := MaxConfigurationId(rows[..|rows| - 1]);
      if rest > rows[|rows| - 1].id then rest else rows[|rows| - 1].id
  }

  /** `getLatestConfiguration`: `SELECT id ... ORDER BY id DESC LIMIT 1`, and an error on an
      empty table. */
  function LatestConfiguration(rows: seq<ConfigurationRow>): (r: Result<nat>)
    ensures r.Err? <==> |rows| == 0
    ensures r.Err? ==> r.error == Error("No configuration found")
    ensures r.Ok? ==> exists i :: 0 <= i < |rows| && rows[i].id == r.value
    ensures r.Ok? ==> forall i :: 0 <= i < |rows| ==> rows[i].id <= r.value
  {
    if |rows| == 0 then Err(Error("No configuration found")) else Ok(MaxConfigurationId(rows))
  }

  // ---------------------------------------------------------------------------------
  // Reading the lineage tables

  /** `LIMIT limit OFFSET offset` over rows already in `ORDER BY id` order. */
  function Page<T>(rows: seq<T>, offset: nat, limit: nat): (r: seq<T>)
    ensures |r| == if offset >= |rows| then 0 else if offset + limit <= |rows| then limit else |rows| - offset
    ensures offset < |rows| ==> r == rows[offset..if offset + limit <= |rows| then offset + limit else |rows|]
  {
    if offset >= |rows| then [] else rows[offset..if offset + limit <= |rows| then offset + limit else |rows|]
  }

  /** A decision the text extractor reads: `SELECT id, metadata FROM decisions`. */
  datatype DecisionInput = DecisionInput(id: nat, metadata: Value)

  /** The decisions of one ingestor task in id order; `rows[k]` has id `base + k + 1`. */
  function DecisionInputs(rows: seq<DecisionRow>, taskId: int, base: nat): (r: seq<DecisionInput>)
    ensures |r| <= |rows|
    ensures forall k :: 0 <= k < |r| ==> base < r[k].id <= base + |rows|
  {
    if |rows| == 0 then []
    else
      (if rows[0].ingestorTaskId == taskId then [DecisionInput(base + 1, rows[0].metadata)] else [])
      + DecisionInputs(rows[1..], taskId, base + 1)
  }

  /** A text the summarizer and the embedders read: the text row joined (LEFT JOIN) with its
      decision, whose columns are NULL when the decision id matches no row. */
  datatype TextInput = TextInput(id: nat, ada: Value, text: Value, decisionMetadata: Value)

  function DecisionById(decisions: seq<DecisionRow>, id: Value): Option<DecisionRow>
  {
    if id.Num? && 1 <= id.n <= |decisions| then Some(decisions[id.n - 1]) else None
  }

  function TextColumn(t: Option<string>): Value
  {
    match t
    case None => Null
    case Some(s) => Str(s)
  }

  /** Text row `row`, whose id is `id`, LEFT JOINed with its decision: the ADA and the
      metadata are NULL when the decision id names no decision. */
  function JoinedText(row: TextRow, decisions: seq<DecisionRow>, id: nat): TextInput
  {
    var d := DecisionById(decisions, row.decisionId);
    TextInput(id, if d.Some? then d.value.ada else Null, TextColumn(row.text), if d.Some? then d.value.metadata else Null)
  }

  /** The texts of one text-extractor task in id order, joined with their decisions;
      `rows[k]` has id `base + k + 1`. */
  function TextInputs(rows: seq<TextRow>, decisions: seq<DecisionRow>, taskId: int, base: nat): (r: seq<TextInput>)
    ensures |r| <= |rows|
    ensures forall k :: 0 <= k < |r| ==> base < r[k].id <= base + |rows|
  {
    if |rows| == 0 then []
    else
      (if rows[0].textExtractorTaskId == taskId then [JoinedText(rows[0], decisions, base + 1)] else [])
      + TextInputs(rows[1..], decisions, taskId, base + 1)
  }

  /** Each of `r` is a row of `rows` (ids from `base + 1`) of the task, joined with its
      decision. */
  predicate RowsJoined(rows: seq<TextRow>, decisions: seq<DecisionRow>, taskId: int, base: nat, r: seq<TextInput>)
  {
    forall k :: 0 <= k < |r| ==>
      && base < r[k].id <= base + |rows|
      && rows[r[k].id - base - 1].textExtractorTaskId == taskId
      && r[k] == JoinedText(rows[r[k].id - base - 1], decisions, r[k].id)
  }

  /** Every row of the task among `rows` (ids from `base + 1`) has its id in `r`. */
  predicate RowsRead(rows: seq<TextRow>, taskId: int, base: nat, r: seq<TextInput>)
  {
    forall j :: 0 <= j < |rows| && rows[j].textExtractorTaskId == taskId ==>
      exists k :: 0 <= k < |r| && r[k].id == base + j + 1
  }

  /** The WHERE clause and the join: each text read is a row of the task, joined with its
      decision. */
  lemma {:induction false} TextInputsJoined(rows: seq<TextRow>, decisions: seq<DecisionRow>, taskId: int, base: nat)
    ensures RowsJoined(rows, decisions, taskId, base, TextInputs(rows, decisions, taskId, base))
  {
    if |rows| > 0 {
      TextInputsJoined(rows[1..], decisions, taskId, base + 1);
      var rest := TextInputs(rows[1..], decisions, taskId, base + 1);
      var head := if rows[0].textExtractorTaskId == taskId then [JoinedText(rows[0], decisions, base + 1)] else [];
      var r := TextInputs(rows, decisions, taskId, base);
      assert r == head + rest;
      forall k | 0 <= k < |r|
        ensures base < r[k].id <= base + |rows|
        ensures rows[r[k].id - base - 1].textExtractorTaskId == taskId
        ensures r[k] == JoinedText(rows[r[k].id - base - 1], decisions, r[k].id)
      {
        if k < |head| {
          assert r[k] == JoinedText(rows[0], decisions, base + 1);
        } else {
          var m := k - |head|;
          assert r[k] == rest[m];
          assert rows[1..][rest[m].id - (base + 1) - 1] == rows[r[k].id - base - 1];
        }
      }
    }
  }

  predicate Ascending(r: seq<TextInput>)
  {
    forall a, b :: 0 <= a < b < |r| ==> r[a].id < r[b].id
  }

  /** ORDER BY id: the texts come out in ascending id order. */
  lemma {:induction false} TextInputsAscend(rows: seq<TextRow>, decisions: seq<DecisionRow>, taskId: int, base: nat)
    ensures Ascending(TextInputs(rows, decisions, taskId, base))
  {
    if |rows| > 0 {
      TextInputsAscend(rows[1..], decisions, taskId, base + 1);
      var rest := TextInputs(rows[1..], decisions, taskId, base + 1);
      var head := if rows[0].textExtractorTaskId == taskId then [JoinedText(rows[0], decisions, base + 1)] else [];
      var r := TextInputs(rows, decisions, taskId, base);
      assert r == head + rest;
      forall a, b | 0 <= a < b < |r| ensures r[a].id < r[b].id {
        if a < |head| {
          assert r[a].id == base + 1 && r[b] == rest[b - |head|];
        } else {
          assert r[a] == rest[a - |head|] && r[b] == rest[b - |head|];
        }
      }
    }
  }

  /** Every row of the task is read. */
  lemma {:induction false} TextInputsComplete(rows: seq<TextRow>, decisions: seq<DecisionRow>, taskId: int, base: nat)
    ensures RowsRead(rows, taskId, base, TextInputs(rows, decisions, taskId, base))
  {
    if |rows| > 0 {
      TextInputsComplete(rows[1..], decisions, taskId, base + 1);
      var rest := TextInputs(rows[1..], decisions, taskId, base + 1);
      var head := if rows[0].textExtractorTaskId == taskId then [JoinedText(rows[0], decisions, base + 1)] else [];
      var r := TextInputs(rows, decisions, taskId, base);
      assert r == head + rest;
      forall j | 0 <= j < |rows| && rows[j].textExtractorTaskId == taskId
        ensures exists k :: 0 <= k < |r| && r[k].id == base + j + 1
      {
        if j == 0 {
          assert r[0].id == base + 1;
        } else {
          assert rows[1..][j - 1] == rows[j];
          var k :| 0 <= k < |rest| && rest[k].id == base + 1 + (j - 1) + 1;
          assert r[|head| + k] == rest[k];
        }
      }
    }
  }

  /** The rows of a text-extractor task, each joined, with ids from `base + 1`. */
  function JoinedTexts(rows: seq<TextRow>, decisions: seq<DecisionRow>, base: nat): (r: seq<TextInput>)
    ensures |r| == |rows|
    ensures forall k :: 0 <= k < |rows| ==> r[k] == JoinedText(rows[k], decisions, base + k + 1)
  {
    if |rows| == 0 then [] else [JoinedText(rows[0], decisions, base + 1)] + JoinedTexts(rows[1..], decisions, base + 1)
  }

  /** Rows appended for a task that had none are read back whole, in order, each joined. */
  lemma {:induction false} TextInputsReadBack(before: seq<TextRow>, rows: seq<TextRow>, decisions: seq<DecisionRow>,
                                              taskId: nat, base: nat)
    requires forall k :: 0 <= k < |before| ==> before[k].textExtractorTaskId != taskId
    requires forall k :: 0 <= k < |rows| ==> rows[k].textExtractorTaskId == taskId
    ensures TextInputs(before + rows, decisions, taskId, base) == JoinedTexts(rows, decisions, base + |before|)
    decreases |before| + |rows|
  {
    if |before| > 0 {
      assert (before + rows)[1..] == before[1..] + rows;
      TextInputsReadBack(before[1..], rows, decisions, taskId, base + 1);
    } else if |rows| > 0 {
      assert before + rows == rows;
      TextInputsReadBack([], rows[1..], decisions, taskId, base + 1);
      assert [] + rows[1..] == rows[1..];
    } else {
      assert before + rows == [];
    }
  }

  // ---------------------------------------------------------------------------------
  // The database

  class Database {
    var tasks: seq<TaskRow>
    /** The next value of `tasks.id`'s sequence. */
    var taskSerial: nat
    var configurations: seq<ConfigurationRow>
    var configurationSerial: nat
    var decisions: seq<DecisionRow>
    var texts: seq<TextRow>
    var summaries: seq<SummaryRow>
    var embeddings: seq<EmbeddingRow>
    var semanticPoints: seq<SemanticPointRow>
    /** The rows `saveAll` stores for organizations, units and signers. */
    var organizations: seq<Value>
    var units: seq<Value>
    var signers: seq<Value>
    /** Stands in for `new Date()`: each reading is a new tick. */
    var clock: nat

    ghost predicate Valid()
      reads this
    {
      && taskSerial >= 1 && TasksValid(tasks, taskSerial)
      && configurationSerial >= 1 && ConfigurationsValid(configurations, configurationSerial)
    }

    constructor()
      ensures Valid()
      ensures tasks == [] && configurations == [] && decisions == [] && texts == []
      ensures summaries == [] && embeddings == [] && semanticPoints == []
      ensures organizations == [] && units == [] && signers == []
    {
      tasks := [];
      taskSerial := 1;
      configurations := [];
      configurationSerial := 1;
      decisions := [];
      texts := [];
      summaries := [];
      embeddings := [];
      semanticPoints := [];
      organizations := [];
      units := [];
      signers := [];
      clock := 0;
    }

    /** `new Date()`. */
    method Now() returns (t: nat)
      modifies this`clock
      ensures t == old(clock) && clock == old(clock) + 1
    {
      t := clock;
      clock := clock + 1;
    }

    /** `createViewConfiguration`: one INSERT, whose new id is returned. */
    method CreateViewConfiguration(name: Value, ingestorTaskId: nat, textExtractorTaskId: nat,
                                   summarizerTaskId: Option<nat>, embedderTaskId: nat,
                                   dimensionalityReducerTaskId: nat) returns (id: nat)
      requires Valid()
      modifies this`configurations, this`configurationSerial
      ensures Valid()
      ensures id == old(configurationSerial)
      ensures configurations == old(configurations) + [ConfigurationRow(id, name, ingestorTaskId,
        textExtractorTaskId, summarizerTaskId, embedderTaskId, dimensionalityReducerTaskId)]
      ensures configurationSerial == old(configurationSerial) + 1
    {
      id := configurationSerial;
      configurations := configurations + [ConfigurationRow(id, name, ingestorTaskId, textExtractorTaskId,
        summarizerTaskId, embedderTaskId, dimensionalityReducerTaskId)];
      configurationSerial := configurationSerial + 1;
    }
  }

  /** The configuration just created is the latest one. */
  lemma CreatedIsLatest(rows: seq<ConfigurationRow>, serial: nat, row: ConfigurationRow)
    requires ConfigurationsValid(rows, serial) && row.id == serial
    ensures LatestConfiguration(rows + [row]) == Ok(serial)
  {
    var all := rows + [row];
    var r := LatestConfiguration(all);
    assert all[|all| - 1].id == serial;
  }
}
