/**
 * The request handling of the API server that sits on the task and configuration tables:
 * resolving a task by type and name, creating a view configuration from five resolved
 * tasks, and the argument defaults and checks of `/search` and `/semantic-points`.
 * Routing, caching and throttling are not modelled; a handler is a function from its
 * inputs (and the tables) to the response it sends.
 */
module ApiServer {
  import opened Base
  import opened Strs
  import opened Js
  import opened Db
  import opened PgParams

  /** The status and JSON body a handler sends. */
  datatype Response = Response(status: nat, body: Value)

  function ErrorBody(message: string): Value
  {
    Obj(map["error" := Str(message)])
  }

  // ---------------------------------------------------------------------------------
  // getTaskId

  /** A query parameter compared with a text column: the text node-postgres sends for it.
      SQL NULL equals nothing, and an object's JSON text is taken to match no name. */
  function TextParam(v: Value): (r: Option<string>)
    ensures v.Str? ==> r == Some(v.s)
    ensures v.Null? || v.Undefined? || v.Obj? ==> r.None?
  {
    match ParamOf(v)
    case Text(t) => Some(t)
    case _ => None
  }

  predicate Named(row: TaskRow, taskType: string, name: string)
  {
    row.key.taskType == taskType && row.key.name == name
  }

  /** `WHERE type = $1 AND name = $2 ORDER BY version DESC`, first row: the index of a row of
      the highest version (the first in table order among equal versions). */
  function Highest(rows: seq<TaskRow>, taskType: string, name: string): (r: Option<nat>)
    ensures r.None? <==> forall i :: 0 <= i < |rows| ==> !Named(rows[i], taskType, name)
    ensures r.Some? ==> r.value < |rows| && Named(rows[r.value], taskType, name)
  {
    if |rows| == 0 then None
    else
      var rest := Highest(rows[..|rows| - 1], taskType, name);
      var last := rows[|rows| - 1];
      if Named(last, taskType, name) && (rest.None? || rows[rest.value].key.version < last.key.version)
      then Some(|rows| - 1)
      else rest
  }

  /** No row of that type and name has a higher version than the one `Highest` picks. */
  lemma {:induction false} HighestIsLatest(rows: seq<TaskRow>, taskType: string, name: string)
    requires Highest(rows, taskType, name).Some?
    ensures forall i :: 0 <= i < |rows| && Named(rows[i], taskType, name) ==>
              rows[i].key.version <= rows[Highest(rows, taskType, name).value].key.version
  {
    var init := rows[..|rows| - 1];
    var rest := Highest(init, taskType, name);
    if rest.Some? {
      HighestIsLatest(init, taskType, name);
      assert forall i :: 0 <= i < |init| ==> init[i] == rows[i];
    }
  }

  /** `WHERE type = $1 AND name = $2 AND version = $3`, first row. */
  function Exact(rows: seq<TaskRow>, taskType: string, name: string, version: int): (r: Option<nat>)
    ensures r.None? <==> forall i :: 0 <= i < |rows| ==> !(Named(rows[i], taskType, name) && rows[i].key.version == version)
    ensures r.Some? ==> r.value < |rows| && Named(rows[r.value], taskType, name) && rows[r.value].key.version == version
  {
    if |rows| == 0 then None
    else
      var rest := Exact(rows[..|rows| - 1], taskType, name, version);
      var last := rows[|rows| - 1];
      if rest.None? && Named(last, taskType, name) && last.key.version == version then Some(|rows| - 1) else rest
  }

  function NotFoundMessage(taskType: string, taskName: Value, taskVersion: Value): string
  {
    "Task not found: " + taskType + " " + ToString(taskName) + " " + ToString(taskVersion)
  }

  /** `getTaskId`: with a falsy version the task of that type and name with the highest
      version, otherwise the one with exactly that version (which PostgreSQL must be able to
      read as an integer).  The implementation is not part of the lookup. */
  function GetTaskId(rows: seq<TaskRow>, taskType: string, taskName: Value, taskVersion: Value): (r: Result<nat>)
    ensures r.Ok? ==> exists i :: 0 <= i < |rows| && rows[i].id == r.value && rows[i].key.taskType == taskType
                                 && TextParam(taskName) == Some(rows[i].key.name)
    ensures r.Ok? && Truthy(taskVersion) ==>
              exists i :: 0 <= i < |rows| && rows[i].id == r.value && Ok(rows[i].key.version) == IntegerParam(taskVersion)
  {
    var notFound := Err(Error(NotFoundMessage(taskType, taskName, taskVersion)));
    if !Truthy(taskVersion) then
      match TextParam(taskName)
      case None => notFound
      case Some(name) =>
        match Highest(rows, taskType, name)
        case None => notFound
        case Some(i) => Ok(rows[i].id)
    else
      match IntegerParam(taskVersion)
      case Err(e) => Err(e)
      case Ok(version) =>
        match TextParam(taskName)
        case None => notFound
        case Some(name) =>
          match Exact(rows, taskType, name, version)
          case None => notFound
          case Some(i) => Ok(rows[i].id)
  }

  /** Without a version, the id found is that of a task of the highest version among those
      of that type and name. */
  lemma LatestVersionFound(rows: seq<TaskRow>, taskType: string, name: string, taskVersion: Value)
    requires !Truthy(taskVersion) && GetTaskId(rows, taskType, Str(name), taskVersion).Ok?
    ensures exists i :: && 0 <= i < |rows| && rows[i].id == GetTaskId(rows, taskType, Str(name), taskVersion).value
                        && Named(rows[i], taskType, name)
                        && forall j :: 0 <= j < |rows| && Named(rows[j], taskType, name) ==>
                             rows[j].key.version <= rows[i].key.version
  {
    HighestIsLatest(rows, taskType, name);
    var i := Highest(rows, taskType, name).value;
    assert rows[i].id == GetTaskId(rows, taskType, Str(name), taskVersion).value;
  }

  /** The lookup fails with "Task not found" exactly when no row matches. */
  lemma NotFoundIffNoMatch(rows: seq<TaskRow>, taskType: string, name: string, taskVersion: Value)
    requires !Truthy(taskVersion) || IntegerParam(taskVersion).Ok?
    ensures var r := GetTaskId(rows, taskType, Str(name), taskVersion);
            r.Err? <==>
              forall i :: 0 <= i < |rows| ==>
                !(Named(rows[i], taskType, name) && (Truthy(taskVersion) ==> Ok(rows[i].key.version) == IntegerParam(taskVersion)))
    ensures GetTaskId(rows, taskType, Str(name), taskVersion).Err? ==>
              GetTaskId(rows, taskType, Str(name), taskVersion).error.message
                == NotFoundMessage(taskType, Str(name), taskVersion)
  {
    var notFound := Err(Error(NotFoundMessage(taskType, Str(name), taskVersion)));
    assert TextParam(Str(name)) == Some(name);
    if Truthy(taskVersion) {
      var e := Exact(rows, taskType, name, IntegerParam(taskVersion).value);
      assert GetTaskId(rows, taskType, Str(name), taskVersion) == if e.None? then notFound else Ok(rows[e.value].id);
    } else {
      var h := Highest(rows, taskType, name);
      assert GetTaskId(rows, taskType, Str(name), taskVersion) == if h.None? then notFound else Ok(rows[h.value].id);
    }
  }

  /** A name given as an array is sent as an array literal, so it finds only a task whose
      name is written in braces. */
  lemma ArrayNameBraced(rows: seq<TaskRow>, taskType: string, items: seq<Value>, taskVersion: Value)
    requires GetTaskId(rows, taskType, Arr(items), taskVersion).Ok?
    ensures exists i :: 0 <= i < |rows| && rows[i].id == GetTaskId(rows, taskType, Arr(items), taskVersion).value
                        && |rows[i].key.name| >= 2 && rows[i].key.name[0] == '{'
                        && rows[i].key.name[|rows[i].key.name| - 1] == '}'
  {
    var r := GetTaskId(rows, taskType, Arr(items), taskVersion);
    var i :| 0 <= i < |rows| && rows[i].id == r.value && rows[i].key.taskType == taskType
             && TextParam(Arr(items)) == Some(rows[i].key.name);
    ArrayTextBraced(items, rows[i].key.name);
  }

  lemma ArrayTextBraced(items: seq<Value>, t: string)
    requires TextParam(Arr(items)) == Some(t)
    ensures |t| >= 2 && t[0] == '{' && t[|t| - 1] == '}'
  {
    assert ParamOf(Arr(items)) == Text(t);
  }

  /** `["x"]` as a name does not find the task named `x`: the lookup fails unless some task
      of that type is named `{"x"}`. */
  lemma ListedNameNotFound(rows: seq<TaskRow>, taskType: string, name: string, taskVersion: Value)
    requires forall i :: 0 <= i < |rows| ==> !Named(rows[i], taskType, "{" + Quoted(name) + "}")
    ensures GetTaskId(rows, taskType, Arr([Str(name)]), taskVersion).Err?
  {
    SingletonArrayText(name);
  }

  // ---------------------------------------------------------------------------------
  // POST /configuration

  /** The ids of the five tasks a configuration views. */
  datatype Resolved = Resolved(ingestor: nat, textExtractor: nat, summarizer: nat, embedder: nat, reducer: nat)

  /** A field of the parsed JSON body, which is an object or an array. */
  function Field(body: Value, key: string): Value
    requires body.Obj? || body.Arr?
  {
    Get(body, key).value
  }

  const MissingFieldsMessage := "Missing required fields"

  /** The checks and the five lookups of the handler, in order; the first failure is the
      message of the 400 response. */
  function Resolve(tasks: seq<TaskRow>, body: Value): (r: Result<Resolved>)
    requires body.Obj? || body.Arr?
  {
    if !Truthy(Field(body, "ingestorName")) || !Truthy(Field(body, "textExtractorName"))
       || !Truthy(Field(body, "embedderName")) || !Truthy(Field(body, "dimensionalityReducerName"))
    then Err(Error(MissingFieldsMessage))
    else
      var ingestor := GetTaskId(tasks, IngestorType, Field(body, "ingestorName"), Field(body, "ingestorVersion"));
      if ingestor.Err? then Err(ingestor.error) else
      var textExtractor := GetTaskId(tasks, TextExtractorType, Field(body, "textExtractorName"),
                                     Field(body, "textExtractorVersion"));
      if textExtractor.Err? then Err(textExtractor.error) else
      var summarizer := GetTaskId(tasks, SummarizerType, Field(body, "summarizerName"), Field(body, "summarizerVersion"));
      if summarizer.Err? then Err(summarizer.error) else
      var embedder := GetTaskId(tasks, EmbedderType, Field(body, "embedderName"), Field(body, "embedderVersion"));
      if embedder.Err? then Err(embedder.error) else
      var reducer := GetTaskId(tasks, ReducerType, Field(body, "dimensionalityReducerName"),
                               Field(body, "dimensionalityReducerVersion"));
      if reducer.Err? then Err(reducer.error) else
      Ok(Resolved(ingestor.value, textExtractor.value, summarizer.value, embedder.value, reducer.value))
  }

  /** A falsy name among the four required ones is refused before any lookup. */
  lemma MissingFieldRefused(tasks: seq<TaskRow>, body: Value, key: string)
    requires body.Obj? || body.Arr?
    requires key in {"ingestorName", "textExtractorName", "embedderName", "dimensionalityReducerName"}
    requires !Truthy(Field(body, key))
    ensures Resolve(tasks, body) == Err(Error(MissingFieldsMessage))
  {
  }

  /** The summarizer is not among the checked fields, yet its lookup with an absent name
      finds nothing, so a configuration without a summarizer is refused too. */
  lemma SummarizerRequired(tasks: seq<TaskRow>, body: Value)
    requires body.Obj? || body.Arr?
    requires Field(body, "summarizerName").Undefined?
    ensures Resolve(tasks, body).Err?
  {
  }

  /** Each resolved id is the id of a task of the right type with the requested name. */
  lemma ResolvedTasksMatch(tasks: seq<TaskRow>, body: Value)
    requires body.Obj? || body.Arr?
    requires Resolve(tasks, body).Ok?
    ensures var ids := Resolve(tasks, body).value;
            && (exists i :: 0 <= i < |tasks| && tasks[i].id == ids.ingestor && tasks[i].key.taskType == IngestorType
                            && TextParam(Field(body, "ingestorName")) == Some(tasks[i].key.name))
            && (exists i :: 0 <= i < |tasks| && tasks[i].id == ids.textExtractor
                            && tasks[i].key.taskType == TextExtractorType
                            && TextParam(Field(body, "textExtractorName")) == Some(tasks[i].key.name))
            && (exists i :: 0 <= i < |tasks| && tasks[i].id == ids.summarizer && tasks[i].key.taskType == SummarizerType
                            && TextParam(Field(body, "summarizerName")) == Some(tasks[i].key.name))
            && (exists i :: 0 <= i < |tasks| && tasks[i].id == ids.embedder && tasks[i].key.taskType == EmbedderType
                            && TextParam(Field(body, "embedderName")) == Some(tasks[i].key.name))
            && (exists i :: 0 <= i < |tasks| && tasks[i].id == ids.reducer && tasks[i].key.taskType == ReducerType
                            && TextParam(Field(body, "dimensionalityReducerName")) == Some(tasks[i].key.name))
  {
  }

  /** `POST /configuration`: 400 and nothing created on a failed check or lookup; otherwise
      one configuration row from the five ids, whose id is sent back and becomes the latest. */
  method PostConfiguration(db: Database, body: Value) returns (response: Response)
    requires db.Valid() && (body.Obj? || body.Arr?)
    modifies db`configurations, db`configurationSerial
    ensures db.Valid()
    ensures Resolve(db.tasks, body).Err? ==>
              && response == Response(400, ErrorBody(Resolve(db.tasks, body).error.message))
              && db.configurations == old(db.configurations)
    ensures Resolve(db.tasks, body).Ok? ==>
              var ids := Resolve(db.tasks, body).value;
              && response == Response(200, Obj(map["id" := Num(old(db.configurationSerial))]))
              && db.configurations == old(db.configurations) + [ConfigurationRow(old(db.configurationSerial),
                   Field(body, "name"), ids.ingestor, ids.textExtractor, Some(ids.summarizer), ids.embedder, ids.reducer)]
              && LatestConfiguration(db.configurations) == Ok(old(db.configurationSerial))
  {
    var resolved := Resolve(db.tasks, body);
    if resolved.Err? {
      return Response(400, ErrorBody(resolved.error.message));
    }
    var ids := resolved.value;
    ghost var rows := db.configurations;
    var id := db.CreateViewConfiguration(Field(body, "name"), ids.ingestor, ids.textExtractor, Some(ids.summarizer),
                                         ids.embedder, ids.reducer);
    CreatedIsLatest(rows, id, db.configurations[|db.configurations| - 1]);
    response := Response(200, Obj(map["id" := Num(id)]));
  }

  // ---------------------------------------------------------------------------------
  // /search and /semantic-points

  const DefaultResultCount := 25
  const DefaultPointCount := 500

  /** `GET /search`: `n` defaults to 25 when it does not parse; a query that is missing or
      not a single string is refused; a failing search is a 500.  `search(q, n)` stands for
      the semantic search this server delegates to. */
  function Search(search: (string, int) -> Result<Value>, q: Value, n: Value): (r: Response)
    ensures r.status == 400 <==> !q.Str?
    ensures q.Undefined? ==> r == Response(400, Str("Missing query"))
    ensures !q.Undefined? && !q.Str? ==> r == Response(400, Str("Query must be a string"))
    ensures q.Str? && search(q.s, IntOrDefault(n, DefaultResultCount)).Err? ==>
              r == Response(500, ErrorBody("Failed to generate query"))
    ensures q.Str? && search(q.s, IntOrDefault(n, DefaultResultCount)).Ok? ==>
              r == Response(200, search(q.s, IntOrDefault(n, DefaultResultCount)).value)
  {
    var count := IntOrDefault(n, DefaultResultCount);
    if q.Undefined? then Response(400, Str("Missing query"))
    else if !q.Str? then Response(400, Str("Query must be a string"))
    else
      match search(q.s, count)
      case Err(_) => Response(500, ErrorBody("Failed to generate query"))
      case Ok(results) => Response(200, results)
  }

  /** A missing `n` searches for 25 results, and a numeric `n` for that many. */
  lemma SearchCount(search: (string, int) -> Result<Value>, q: string, k: int)
    ensures Search(search, Str(q), Undefined) == Search(search, Str(q), Num(DefaultResultCount))
    ensures Search(search, Str(q), Num(k)) == match search(q, k)
                                             case Err(_) => Response(500, ErrorBody("Failed to generate query"))
                                             case Ok(results) => Response(200, results)
  {
    IntOrDefaultMissing(DefaultResultCount);
    ParseIntRoundTrip(DefaultResultCount);
    ParseIntRoundTrip(k);
  }

  /** `GET /semantic-points` up to its query: the latest configuration (an error on an empty
      table) and the number of points, 500 when `n` does not parse. */
  function SemanticPointsQuery(configurations: seq<ConfigurationRow>, n: Value): (r: Result<(nat, int)>)
    ensures r.Err? <==> |configurations| == 0
    ensures r.Ok? ==> Ok(r.value.0) == LatestConfiguration(configurations)
    ensures r.Ok? && ParseInt(ToString(n)).None? ==> r.value.1 == DefaultPointCount
    ensures r.Ok? && ParseInt(ToString(n)).Some? ==> r.value.1 == ParseInt(ToString(n)).value
  {
    match LatestConfiguration(configurations)
    case Err(e) => Err(e)
    case Ok(id) => Ok((id, IntOrDefault(n, DefaultPointCount)))
  }

  /** A missing `n` asks for 500 points, a numeric `n` for that many, and ` 7` for 7. */
  lemma SemanticPointsCount(configurations: seq<ConfigurationRow>, k: int)
    requires |configurations| > 0
    ensures SemanticPointsQuery(configurations, Undefined).value.1 == DefaultPointCount
    ensures SemanticPointsQuery(configurations, Num(k)).value.1 == k
    ensures SemanticPointsQuery(configurations, Str(" " + IntToString(k))).value.1 == k
  {
    IntOrDefaultMissing(DefaultPointCount);
    NumericCount(k);
    PaddedCount(k);
  }

  lemma NumericCount(k: int)
    ensures IntOrDefault(Num(k), DefaultPointCount) == k
  {
    assert ToString(Num(k)) == IntToString(k);
    ParseIntRoundTrip(k);
  }

  lemma PaddedCount(k: int)
    ensures IntOrDefault(Str(" " + IntToString(k)), DefaultPointCount) == k
  {
    var d := IntToString(k);
    assert ToString(Str(" " + d)) == " " + d;
    assert AllSpace(" ") by { assert " "[0] == ' '; }
    ParseIntSkipsSpace(" ", d);
    ParseIntRoundTrip(k);
    assert ParseInt(" " + d) == Some(k);
  }
}
