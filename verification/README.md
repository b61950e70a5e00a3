# Diavgeia-ai: a Dafny model of the ingestion pipeline and its search API

Diavgeia-ai turns the decisions that Greek public bodies publish on Diavgeia
(diavgeia.gov.gr) into searchable embeddings. The work is done by a chain of **tasks**.
Each task is a row in a PostgreSQL `tasks` table, identified by
`type/implementation/name#version`:

- the **ingestor** pages through the Diavgeia open-data search and stores decisions,
  organizations, units and signers;
- the **text extractor** stores a text and a metadata object per decision. It is meant to
  load each decision's PDF, but it looks for the URL in the decision's metadata, where the
  ingestor never puts it, so every ingested decision is stored with a NULL text (see
  "## Findings");
- the **GPT summarizer** asks a language model for a JSON summary of each text, retrying
  up to three times;
- two **Cohere embedders** store one or more vectors per text;
  - the one-batch embedder charges a cost ledger that ends the process past a ceiling;
- the **dimensionality reducer** stores one 2-D point per embedding.

A **view configuration** ties one task of each kind together. The **API server** creates
configurations, looks tasks up by name and version, and serves searches. Two older
**search servers** answer natural-language queries from a Chroma collection. The
command-line **ingest** entry point checks its dates and builds the Diavgeia query.

How the model is laid out:

- `Db.Database` is one class that holds every table as a sequence of rows.
  - It keeps the serial counters PostgreSQL would assign.
  - It keeps a clock tick that stands for `new Date()`.
- `Tasks.Task` mirrors the task base class: its fields, `start`, `save` and
  `updateMetrics`.
- Each stage module has:
  - `Run`, the stage's `run`, as a loop over pages with its invariants;
  - `RunAndFinish`, which adds the status bookkeeping of `start`'s `finally`;
  - `Start`, which is `Begin` followed by `RunAndFinish`.
- Every run is proved against a page-by-page specification function, and lemmas state
  what a finished run has stored.
- The text extractor, the summarizer and the embedders run as written, including the three
  defects listed under "## Findings". The corrected definitions sit beside them as
  references.
- Collaborators are function-typed parameters:
  - the Diavgeia API, the PDF loader, the language model and the Cohere endpoints;
  - `Date.parse`, `parseFloat` and `JSON.parse`.
- JavaScript values (`any`, JSON columns, request bodies) are `Js.Value`.
- A thrown exception is an `Err`/`Fail`/`Threw` value.
- `process.exit` is the `Exited` outcome.

## Model

| member | source | states |
|---|---|---|
| Db.CountTasks | api/src/tasks/task.ts:102-114 | the count of rows with the task's identity is at most the table size, and positive exactly when such a row exists |
| Db.FindTask | api/src/tasks/task.ts:102-114 | finds a row with the given identity, the last one, and finds none exactly when no row has it |
| Db.CountByKey | api/src/tasks/task.ts:102-114 | `count > 0` agrees with the row lookup used by `save`'s upsert |
| Db.MaxVersion | api/src/tasks/task.ts:121-133 | `MAX(version)` over rows of the same type, implementation and name: none exactly when there are no such rows, otherwise a version some row holds and no row exceeds |
| Db.NextVersion | api/src/tasks/task.ts:121-133 | the next version is 1 for a new name, otherwise the maximum plus one |
| Db.NextVersionIsFree | api/src/tasks/task.ts:121-133 | no existing row already has the version `getNextVersion` picks |
| Db.MaxTaskId | api/src/tasks/task.ts:146-158 | the largest id among the rows of the task type, none when the type has no row |
| Db.LastTaskId | api/src/tasks/task.ts:146-158 | `getLastTaskId`: the largest id of the type when it has a row, otherwise 1 |
| Db.Upsert | api/src/tasks/task.ts:135-144 | `INSERT ... ON CONFLICT (type, implementation, name, version) DO UPDATE`: a new identity appends a row with the next serial and returns that serial; an existing identity overwrites status, updatedAt, params and metrics, keeps the row's id and createdAt, and returns that id |
| Db.UpsertValid | api/src/tasks/task.ts:135-144 | an upsert keeps the table invariant: identities unique, ids positive, increasing and below the serial |
| Db.FindAfterUpsert | api/src/tasks/task.ts:135-144 | after an upsert, looking the identity up finds the row with the returned id |
| Db.UpsertRow | api/src/tasks/task.ts:135-144 | the upserted row holds the new status, timestamps, params and metrics and the returned id, and keeps the original createdAt on conflict |
| Db.FindLast | api/src/tasks/task.ts:102-114 | when row i holds the identity and no later row does, the lookup finds row i |
| Db.UpsertTwice | api/src/tasks/task.ts:135-144 | saving the same task twice returns the same id both times, adds at most one row, keeps the invariant and leaves the second status |
| Db.MaxConfigurationId | api/src/db.ts:35-41 | the largest configuration id, held by some row |
| Db.LatestConfiguration | api/src/db.ts:35-41 | "No configuration found" exactly when the table is empty, otherwise the largest id |
| Db.Page | api/src/tasks/textExtractors/simpleTextExtractor.ts:37 | `LIMIT limit OFFSET offset` over rows in id order: the slice starting at the offset, shortened at the end of the table |
| PgParams.ParamOf | api/src/tasks/textExtractors/simpleTextExtractor.ts:37 | the value node-postgres sends for a query parameter: SQL NULL exactly for null and undefined, a string as itself, a number in decimal, an array as a braced array literal |
| PgParams.ArrayLiteral | api/src/server.ts:115-117 | an array parameter is sent as a text that starts with `{` and ends with `}` |
| PgParams.Quoted | api/src/server.ts:115-117 | an array element is sent between double quotes |
| PgParams.EscapedRoundTrip | api/src/server.ts:115-117 | the backslash escaping of an array element is undone by reading it back, so no two elements are sent alike |
| PgParams.SingletonArrayText | api/src/server.ts:115-117 | `["x"]` is sent as `{"x"}` |
| PgParams.Int4Input | api/src/tasks/textExtractors/simpleTextExtractor.ts:37 | an integer parameter read by PostgreSQL lies in the 32-bit range; otherwise the error is the "invalid input syntax" or the "out of range" message naming the text |
| PgParams.IntegerParam | api/src/tasks/textExtractors/simpleTextExtractor.ts:37 | a parameter compared with an integer column is read in the 32-bit range, and an object is refused |
| PgParams.Int4Padded | api/src/tasks/textExtractors/simpleTextExtractor.ts:37 | a decimal integer with white space around it reads as its value when it fits in 32 bits, and as "out of range" otherwise |
| PgParams.NumberParam | api/src/tasks/textExtractors/simpleTextExtractor.ts:37 | a JSON number reads as itself when it fits in 32 bits, and as "out of range" otherwise |
| PgParams.PaddedStringParam | api/src/server.ts:116-117 | a string version such as `" 3 "` reads as 3, and one past 32 bits is "out of range" |
| PgParams.IdParamRoundTrip | api/src/tasks/task.ts:135-144 | an id written in decimal reads back as the same id while it fits in 32 bits |
| PgParams.ArrayParamRefused | api/src/server.ts:116-117 | an array is never read as an integer |
| Db.DecisionInputs | api/src/tasks/textExtractors/simpleTextExtractor.ts:37 | the decisions of one ingestor task, in id order, each with an id inside the table's id range |
| Db.TextInputs | api/src/tasks/summarizers/gptSummarizer.ts:34 | the texts of one extractor task in id order, with ids inside the table's range (the filter and the join are stated by the three lemmas below) |
| Db.TextInputsJoined | api/src/tasks/summarizers/gptSummarizer.ts:34 | each text read is a row of the extractor task, LEFT JOINed with its decision: ada and metadata from the decision, NULL when there is none |
| Db.TextInputsAscend | api/src/tasks/summarizers/gptSummarizer.ts:34 | ORDER BY id: the ids of the texts read strictly ascend |
| Db.TextInputsComplete | api/src/tasks/summarizers/gptSummarizer.ts:34 | every row of the extractor task is read |
| Db.JoinedTexts | api/src/tasks/summarizers/gptSummarizer.ts:34 | each row joined with its decision, with consecutive ids |
| Db.TextInputsReadBack | api/src/tasks/summarizers/gptSummarizer.ts:34 | rows appended for a task that had none are read back whole and in order, each joined |
| Db.Database.constructor | api/src/db.ts:4-14 | a fresh database that satisfies the invariant, with every table empty |
| Db.Database.Now | api/src/tasks/task.ts:66-71 | `new Date()`: returns the clock and advances it, changing nothing else |
| Db.Database.CreateViewConfiguration | api/src/db.ts:16-33 | appends exactly one configuration row with the next serial as id, returns that id and advances the serial |
| Db.CreatedIsLatest | api/src/db.ts:16-41 | the configuration just created is the one `getLatestConfiguration` returns |
| Tasks.ChosenVersion | api/src/tasks/task.ts:51-57 | a given non-zero version is used; a missing or zero version becomes the next free version |
| Tasks.Task.constructor | api/src/tasks/task.ts:34-47 | a task with its database, type, implementation and name, and nothing else set |
| Tasks.Task.Save | api/src/tasks/task.ts:135-144 | `save`: the table becomes the upsert of the task's row, the id is the upsert's id, the serial advances, and the task is then in sync with its row |
| Tasks.Task.Resave | api/src/tasks/task.ts:135-144 | saving a task that already has a row overwrites only that row's status, updatedAt, params and metrics and keeps its id |
| Tasks.Task.UpdateMetrics | api/src/tasks/task.ts:91-96 | replaces the metrics whole, stamps updatedAt with the clock and saves, changing only the task's own row |
| Tasks.Task.Begin | api/src/tasks/task.ts:49-73 | chooses the version; an identity already in the table fails with the "already exists" message and changes nothing; otherwise the task is Running with createdAt and updatedAt from two clock ticks and one row appended with the next serial as id |
| Tasks.Task.Register | api/src/tasks/task.ts:66-71 | status Running, createdAt and updatedAt set, the row appended with a fresh id |
| Tasks.Task.Open | api/src/tasks/task.ts:49-73 | the duplicate check followed by registration, with the duplicate error when the identity is taken |
| Tasks.Task.Finish | api/src/tasks/task.ts:76-88 | after `run`, the status is Succeeded when it returned and Failed when it threw; the row is saved and the outcome is passed on |
| Tasks.Task.Conclude | api/src/tasks/task.ts:76-88 | `start`'s result: success when `run` returned, the thrown error otherwise, with the matching final status |
| Tasks.SyncedKept | api/src/tasks/task.ts:135-144 | a task stays in sync with its row while neither the task nor the tasks table changes |
| Tasks.IntToStringPlain | api/src/tasks/task.ts:98-100 | a version written in decimal contains neither "/" nor "#" |
| Tasks.IdentifierParts | api/src/tasks/task.ts:98-100 | splitting `type/implementation/name#version` on "/" and then "#" gives back the four parts when the parts contain neither separator |
| Tasks.IdentifierInjective | api/src/tasks/task.ts:98-100 | two tasks with separator-free parts have the same identifier only if they have the same identity |
| ApiServer.Highest | api/src/server.ts:114-118 | the row `ORDER BY version DESC LIMIT 1` returns: none exactly when no row of the type has the name, otherwise such a row |
| ApiServer.HighestIsLatest | api/src/server.ts:114-118 | that row's version is at least that of every row of the type with the name |
| ApiServer.Exact | api/src/server.ts:120-122 | the row with the type, name and version: none exactly when no row matches all three |
| ApiServer.TextParam | api/src/server.ts:115-117 | a string name is compared as itself; a null, undefined or object name matches no row |
| ApiServer.GetTaskId | api/src/server.ts:112-125 | a found id belongs to a row of the requested type whose name is the text the name parameter is sent as, and whose version is what PostgreSQL reads the version parameter as when one is given |
| ApiServer.ArrayNameBraced | api/src/server.ts:112-125 | an array given as a name only finds a task whose name is written in braces |
| ApiServer.ListedNameNotFound | api/src/server.ts:112-125 | `["x"]` as a name does not find the task named `x`: the lookup fails unless a task is named `{"x"}` |
| ApiServer.LatestVersionFound | api/src/server.ts:112-125 | without a version, the id found is that of the highest version of the name |
| ApiServer.NotFoundIffNoMatch | api/src/server.ts:112-125 | the lookup fails exactly when no row matches, with the "not found" message naming the task |
| ApiServer.MissingFieldRefused | api/src/server.ts:135-138 | a falsy ingestor, extractor, embedder or reducer name is refused with "Missing required fields" |
| ApiServer.SummarizerRequired | api/src/server.ts:140-149 | a missing summarizer name makes the configuration request fail |
| ApiServer.ResolvedTasksMatch | api/src/server.ts:140-149 | every id a configuration gets is that of a task of the right type whose name is the one in the request |
| ApiServer.PostConfiguration | api/src/server.ts:127-163 | a request with a missing field or unknown task gets a 400 with the message and creates nothing; otherwise a 200 with the new id, exactly one row is appended, and it becomes the latest configuration |
| ApiServer.Search | api/src/server.ts:44-70 | `/search`: 400 for a missing or non-string query, 500 when the search fails, otherwise 200 with its results; `n` defaults to 25 |
| ApiServer.SearchCount | api/src/server.ts:46-49 | an absent `n` searches for 25 results, and a numeric `n` is passed through |
| ApiServer.SemanticPointsQuery | api/src/server.ts:101-110 | fails exactly when there is no configuration, otherwise uses the latest configuration's id, with the `parseInt` value of `n` as the point count, and 500 points when `n` does not parse |
| ApiServer.SemanticPointsCount | api/src/server.ts:103-106 | a missing `n` asks for 500 points, and a number or a space-led decimal `n` for that many |
| ChromaSearch.QueryError | src/server.ts:72-80 | a query parameter passes exactly when it is a string; a missing one gets "Missing query" and any other value "Query must be a string" |
| ChromaSearch.WithoutDecisionType | src/server.ts:96-97 | the filter the collection sees has no `decisionType` and keeps every other entry unchanged |
| ChromaSearch.DecisionTypeRestored | src/server.ts:105 | deleting and re-adding `decisionType` gives back the original filter, or adds only an `undefined` entry when there was none |
| LegacyServer.IndexOf | src/server.ts:37-44 | `indexOf`: the first position holding the id, and -1 exactly when no entry has it |
| LegacyServer.EmbeddingOf | src/server.ts:37-44 | the embedding of the first entry with the id, and the empty vector when the collection did not return it |
| LegacyServer.GetEmbeddings | src/server.ts:32-48 | one embedding per requested id, in the order requested |
| LegacyServer.ShapeResults | src/server.ts:117-126 | one result per hit, in order, with the id, distance, metadata, document and the subject read from the metadata |
| LegacyServer.Respond | src/server.ts:107-140 | a "No datapoints found" detail gives an empty result list with metadata; any other error or detail gives 500 "Failed to query"; otherwise every hit is returned with metadata (count, text, restored filter, cost, embedding) |
| LegacyServer.Search | src/server.ts:62-141 | the `/search` handler: the 400s for the query, 500 when generation fails, otherwise the answer `Respond` gives for the query made with the generated text, the count and the filter without `decisionType` |
| RootServer.KeepNonEmpty | server.ts:81-87 | keeps only objects with at least one key, each taken from the input |
| RootServer.WhereClauseShape | server.ts:81-87 | the `$and` filter is the generated filter (only when it has a key left) followed by the has-document and extraction-succeeded filters |
| RootServer.ShapeResults | server.ts:105-114 | one result per hit, in order, with the subject read from its metadata |
| RootServer.Respond | server.ts:94-125 | an error or detail gives 500; no hits gives `{results: []}` without metadata; otherwise every hit with the query's metadata |
| RootServer.Search | server.ts:44-127 | the demo `/search` handler: the 400s for the query, 500 when generation fails, otherwise `Respond` on the query restricted to extracted documents |
| Ingestion.Pick | api/src/tasks/ingestors/diavgeiaIngestor.ts:183-236 | the destructured object has exactly the listed keys, each with the source's value |
| Ingestion.ExtractData | api/src/tasks/ingestors/diavgeiaIngestor.ts:183-236 | fails exactly when the decision or its `extraFieldValues` is null or undefined; otherwise keeps the ada, organization, signers and units, and the document URL, defaulting to the Diavgeia document address when the URL is falsy |
| Ingestion.KeysDisjoint | api/src/tasks/ingestors/diavgeiaIngestor.ts:183-236 | no `extraFieldValues` field shares a name with a decision field |
| Ingestion.MetadataFields | api/src/tasks/ingestors/diavgeiaIngestor.ts:228-235 | the stored metadata holds exactly the eleven decision fields and the four extra fields, each with the value the decision gave it |
| Ingestion.MapAll | api/src/tasks/ingestors/diavgeiaIngestor.ts:70-75 | mapping `extractData` over a page succeeds exactly when every item succeeds, and then gives one result per item in order |
| Ingestion.MapAllFirstFailure | api/src/tasks/ingestors/diavgeiaIngestor.ts:70-75 | a failed mapping reports the error of the first failing item |
| Ingestion.CheckParams | api/src/tasks/ingestors/diavgeiaIngestor.ts:26-31 | "params are not set" for falsy params, and "Missing required params" unless startDate, endDate and decisionTypes are all truthy |
| Ingestion.IngestQuery | api/src/tasks/ingestors/diavgeiaIngestor.ts:36-42 | the query splits `decisionTypes` on "," and wraps both dates as `DT(<date>T00:00:00)` bounds |
| Ingestion.PageLimit | api/src/tasks/ingestors/diavgeiaIngestor.ts:59-67 | a page keeps at most 50 decisions, and with `only` set at most what is left of it after the earlier pages |
| Ingestion.OnlyCap | api/src/tasks/ingestors/diavgeiaIngestor.ts:60-61 | a falsy `only` sets no cap; a non-zero number caps at itself; other truthy values are coerced as `>` and `-` coerce them |
| Ingestion.OnlyNumericString | api/src/tasks/ingestors/diavgeiaIngestor.ts:60-61 | a numeric string, with or without surrounding whitespace, caps the run like the number it spells; a blank non-empty string caps it at 0 |
| Ingestion.KeptPage | api/src/tasks/ingestors/diavgeiaIngestor.ts:70-75 | a page's kept decisions never exceed its limit, and a page with no room left keeps nothing |
| Ingestion.NoDecisionsEmpty | api/src/tasks/ingestors/diavgeiaIngestor.ts:70-75 | a page yields no decision exactly when the response has none |
| Ingestion.FinitePages | api/src/tasks/ingestors/diavgeiaIngestor.ts:54-110 | an API whose search runs out of decisions runs out on every query, so the page loop ends |
| Ingestion.AddAll | api/src/tasks/ingestors/diavgeiaIngestor.ts:95-97 | adding ids to a set of ids: the result holds exactly the old and new ids, keeps the old order and adds no duplicate |
| Ingestion.Difference | api/src/tasks/ingestors/diavgeiaIngestor.ts:51 | `difference`: the ids of the first list that are not in the second, without duplicates |
| Ingestion.AddAllDisjoint | api/src/tasks/ingestors/diavgeiaIngestor.ts:95-97 | adding distinct ids none of which is already present appends them in order |
| Ingestion.BatchIdsAppend | api/src/tasks/ingestors/diavgeiaIngestor.ts:78-82 | the ids a batch mentions are those of its first part followed by those of its second |
| Ingestion.NewOf | api/src/tasks/ingestors/diavgeiaIngestor.ts:84-86 | the new ids of a page are exactly those it mentions that were not seen before, without duplicates |
| Ingestion.FetchEntities | api/src/tasks/ingestors/diavgeiaIngestor.ts:115-169 | fetching entity records succeeds exactly when every fetch does, and then gives one record per id in order |
| Ingestion.FetchedAllAppend | api/src/tasks/ingestors/diavgeiaIngestor.ts:115-169 | records fetched for two id lists, put together, are the records of the joined list |
| Ingestion.FetchNew | api/src/tasks/ingestors/diavgeiaIngestor.ts:88-90 | fetching a page's new organizations, units and signers succeeds exactly when all three kinds do, and yields a record per new id of each kind |
| Ingestion.DecisionRows | api/src/tasks/ingestors/ingestor.ts:9-21 | one stored row per decision, in order, with the task id, ada, document URL and metadata |
| Ingestion.DecisionRowsAppend | api/src/tasks/ingestors/ingestor.ts:9-21 | saving two batches stores the rows of the joined batch |
| Ingestion.SaveDecisions | api/src/tasks/ingestors/ingestor.ts:9-21 | `saveDecisions` appends exactly the rows of the decisions, leaving the other tables unchanged |
| Ingestion.SaveAll | api/src/tasks/ingestors/diavgeiaIngestor.ts:92 | a page's decisions and the fetched organizations, units and signers are each appended to their table |
| Ingestion.PlanPage | api/src/tasks/ingestors/diavgeiaIngestor.ts:54-110 | a page that is saved has a non-empty kept list within its limit, its new ids, and entity fetches that succeeded |
| Ingestion.PlanPageCases | api/src/tasks/ingestors/diavgeiaIngestor.ts:54-110 | each page either fails with the page's or a fetch's error, ends the loop when it keeps nothing, or is saved with its new ids |
| Ingestion.SavePage | api/src/tasks/ingestors/diavgeiaIngestor.ts:92-107 | saving a page appends its decision rows and entity records and replaces the metrics, keeping the task in sync |
| Ingestion.AppendEntities | api/src/tasks/ingestors/diavgeiaIngestor.ts:88-97 | each entity table grows by one fetched record per newly seen id |
| Ingestion.ProgressStep | api/src/tasks/ingestors/diavgeiaIngestor.ts:54-110 | saving one more planned page keeps the loop invariant: decision rows of all pages, entity records of all seen ids, metrics of the last page |
| Ingestion.SavedStep | api/src/tasks/ingestors/diavgeiaIngestor.ts:54-110 | the saved-pages history extends by the planned page and the seen ids grow by its new ids |
| Ingestion.DecisionsStep | api/src/tasks/ingestors/ingestor.ts:9-21 | the decisions table after one more page holds the rows of all pages so far, in order |
| Ingestion.RunPages | api/src/tasks/ingestors/diavgeiaIngestor.ts:54-110 | the page loop: when it ends, every saved page followed the plan, and it returns at the first page with no decisions or throws the first page's or fetch's error |
| Ingestion.StorePage | api/src/tasks/ingestors/diavgeiaIngestor.ts:88-107 | storing a planned page keeps the loop invariant and returns the grown set of seen ids |
| Ingestion.SeenStep | api/src/tasks/ingestors/diavgeiaIngestor.ts:95-97 | remembering a page's new ids gives the ids seen after that page |
| Ingestion.Run | api/src/tasks/ingestors/diavgeiaIngestor.ts:24-113 | missing params throw with nothing stored; a failing total count throws with nothing stored; otherwise the page loop's result, with every stored row explained by the saved pages |
| Ingestion.RunAndFinish | api/src/tasks/task.ts:76-88 | the ingestor's run followed by the final status: Succeeded when it returned, Failed with its error when it threw |
| Ingestion.Start | api/src/tasks/task.ts:49-89 | an ingestor task either fails as a duplicate with no table changed, or registers, runs and finishes as `Run` and `RunAndFinish` state |
| Ingestion.RunSavesPages | api/src/tasks/ingestors/diavgeiaIngestor.ts:54-110 | after a run, the decisions table is the old one followed by the rows of every saved page |
| Ingestion.OnlyRespected | api/src/tasks/ingestors/diavgeiaIngestor.ts:59-67 | with `only` set, a run stores at most `max(0, only)` decisions |
| Ingestion.SumLimitsCapped | api/src/tasks/ingestors/diavgeiaIngestor.ts:59-67 | the page limits of the first pages add up to at most `only` and at most 50 per page |
| Ingestion.SavedWithinLimits | api/src/tasks/ingestors/diavgeiaIngestor.ts:59-67 | the decisions of the saved pages never exceed the sum of their limits |
| Ingestion.SeenIsMentioned | api/src/tasks/ingestors/diavgeiaIngestor.ts:78-97 | the remembered ids of each kind are exactly those the saved decisions mention, without duplicates, so each entity is fetched once |
| Ingestion.DecisionsReadBack | api/src/tasks/textExtractors/simpleTextExtractor.ts:37 | the decisions an ingestor run stored are read back by the text extractor in order, with their ids and metadata |
| Ingestion.SavedInputs | api/src/tasks/textExtractors/simpleTextExtractor.ts:37 | one extractor input per stored decision, with consecutive ids and its metadata |
| TextExtraction.PageTexts | api/src/tasks/textExtractors/simpleTextExtractor.ts:86-94 | reading the pages succeeds exactly when every page does, giving each page's joined items in order; a failure is one page's error |
| TextExtraction.PageTextsStops | api/src/tasks/textExtractors/simpleTextExtractor.ts:86-94 | the pages after a failing one are not read |
| TextExtraction.ReadPages | api/src/tasks/textExtractors/simpleTextExtractor.ts:86-94 | the page loop yields what `PageTexts` specifies |
| TextExtraction.Prefixed | api/src/tasks/textExtractors/simpleTextExtractor.ts:106-115 | prefixing keys keeps every entry under its prefixed name and adds nothing else |
| TextExtraction.InfoKeyApart | api/src/tasks/textExtractors/simpleTextExtractor.ts:106-115 | a `pdfInfo_` key is never the page count, the failure flag or a `pdfMetadata_` key |
| TextExtraction.MetadataKeyApart | api/src/tasks/textExtractors/simpleTextExtractor.ts:106-115 | a `pdfMetadata_` key is never the page count or the failure flag |
| TextExtraction.FixedFieldsKept | api/src/tasks/textExtractors/simpleTextExtractor.ts:106-115 | the stored metadata holds the page count and the failure flag as computed |
| TextExtraction.XmpFieldsKept | api/src/tasks/textExtractors/simpleTextExtractor.ts:106-115 | every XMP entry is stored under its `pdfMetadata_` name |
| TextExtraction.InfoFieldsKept | api/src/tasks/textExtractors/simpleTextExtractor.ts:106-115 | every document-info entry is stored under its `pdfInfo_` name |
| TextExtraction.NoOtherFields | api/src/tasks/textExtractors/simpleTextExtractor.ts:106-115 | the stored metadata has no key besides those four kinds |
| TextExtraction.ExtractionAt | api/src/tasks/textExtractors/simpleTextExtractor.ts:66-118 | with a falsy URL there is no document; with a truthy one the PDF is loaded, a PDF that will not load is flagged, and one that loads gives a text unless reading it throws |
| Lineage.IngestedHasNoDocument | api/src/tasks/textExtractors/simpleTextExtractor.ts:65-69 | for every decision the ingestor stores, the extractor finds no `documentUrl` in its metadata and reports `{hasDocument: false}` with no text |
| Lineage.IngestedTextStopsEmbedder | api/src/tasks/textExtractors/simpleTextExtractor.ts:37-53 | an ingested decision's text is stored as NULL, read back as NULL by the embedders, and an embedder page that reaches it throws a TypeError |
| Lineage.IntendedLoadsIngested | api/src/tasks/ingestors/diavgeiaIngestor.ts:206-208 | reading the URL from the `document_url` column, every ingested decision has its PDF loaded: it lacks a text exactly when the PDF will not load, and is never reported as having no document |
| TextExtraction.ExtractTextAndMetadata | api/src/tasks/textExtractors/simpleTextExtractor.ts:63-118 | the method yields what the extraction function specifies |
| TextExtraction.JoinBlank | api/src/tasks/textExtractors/simpleTextExtractor.ts:96-104 | pages joined with newlines are blank exactly when the pages themselves are |
| TextExtraction.FailureFlagsBlankText | api/src/tasks/textExtractors/simpleTextExtractor.ts:84-104 | for a loaded document, the failure flag is set exactly when the text is blank; a blank text is stored as "" and any other is the pages joined by newlines; the page count is recorded |
| TextExtraction.NoTextExplained | api/src/tasks/textExtractors/simpleTextExtractor.ts:66-82 | a text-less result is either `{hasDocument: false}` for a missing URL or `{textExtractionFailure: true}` for a PDF that did not load |
| TextExtraction.ExtractionThrows | api/src/tasks/textExtractors/simpleTextExtractor.ts:63-118 | extraction throws only for null or undefined metadata, a failing page or failing PDF metadata |
| TextExtraction.DocumentsNameDecisions | api/src/tasks/textExtractors/simpleTextExtractor.ts:44-51 | every extracted text carries the id of the decision it came from |
| TextExtraction.Extracted | api/src/tasks/textExtractors/simpleTextExtractor.ts:44-51 | a page's extraction succeeds exactly when each decision's does, giving one text per decision in order |
| TextExtraction.ExtractedFirstFailure | api/src/tasks/textExtractors/simpleTextExtractor.ts:44-51 | a failed page reports the error of its first failing decision |
| TextExtraction.ExtractedAppend | api/src/tasks/textExtractors/simpleTextExtractor.ts:44-51 | extracting two batches one after the other is extracting the joined batch |
| TextExtraction.ExtractPage | api/src/tasks/textExtractors/simpleTextExtractor.ts:44-51 | the inner loop yields what `Extracted` specifies |
| TextExtraction.ExtractedStops | api/src/tasks/textExtractors/simpleTextExtractor.ts:44-51 | the loop stops at the first failing decision |
| TextExtraction.WithoutNul | api/src/tasks/textExtractors/textExtractor.ts:19 | a stored text has no NUL character, a null text stays null, and a text without NUL is stored as is |
| TextExtraction.TextRows | api/src/tasks/textExtractors/textExtractor.ts:11-24 | one stored row per text, in order, with the task id, decision id, NUL-free text and metadata |
| TextExtraction.TextRowsAppend | api/src/tasks/textExtractors/textExtractor.ts:11-24 | saving two batches stores the rows of the joined batch |
| TextExtraction.TextsReadBack | api/src/tasks/summarizers/gptSummarizer.ts:34 | the texts an extractor run saved are what the summarizer and the embedders read: one input per text, in order, with the NUL-free text (NULL when absent) and its decision's ada and metadata |
| TextExtraction.SaveTexts | api/src/tasks/textExtractors/textExtractor.ts:11-24 | `saveTexts` appends exactly the rows of the texts |
| TextExtraction.StoredStep | api/src/tasks/textExtractors/simpleTextExtractor.ts:36-57 | storing one page keeps the loop invariant: the texts of every decision read so far, and `documents_processed` equal to that count |
| TextExtraction.PageCount | api/src/tasks/textExtractors/simpleTextExtractor.ts:37 | a page holds the next 50 decisions, or the rest |
| TextExtraction.ExtractedPageStep | api/src/tasks/textExtractors/simpleTextExtractor.ts:36-57 | the texts of the decisions read so far extend by those of the page |
| TextExtraction.StorePage | api/src/tasks/textExtractors/simpleTextExtractor.ts:44-56 | a failing page stores nothing and reports its error; otherwise the page's texts are saved and the metrics updated, keeping the invariant |
| TextExtraction.RunPages | api/src/tasks/textExtractors/simpleTextExtractor.ts:36-57 | the page loop ends after the last decision or throws at the first failing page, with the invariant describing what was stored |
| TextExtraction.Run | api/src/tasks/textExtractors/simpleTextExtractor.ts:23-61 | missing params throw with nothing stored; otherwise the page loop over the ingestor task's decisions |
| TextExtraction.RunAndFinish | api/src/tasks/task.ts:76-88 | the extractor's run followed by the final status |
| TextExtraction.Start | api/src/tasks/task.ts:49-89 | a duplicate fails with no table changed; otherwise the task registers, runs and finishes |
| TextExtraction.OneTextPerDecision | api/src/tasks/textExtractors/simpleTextExtractor.ts:36-57 | a run that returns stores exactly one text row per decision, in order, each with the task id and its decision's id, and reports every decision as processed |
| TextExtraction.ThrowsOnWholePages | api/src/tasks/textExtractors/simpleTextExtractor.ts:36-57 | a run that throws has stored whole pages only, and the error comes from a decision of the next page |
| TextExtraction.FailureInPage | api/src/tasks/textExtractors/simpleTextExtractor.ts:44-51 | a failing page contains a decision whose extraction fails with that error |
| TextExtraction.StoredTextsNulFree | api/src/tasks/textExtractors/textExtractor.ts:19 | no stored text contains a NUL character |
| Summarization.Answer | api/src/tasks/summarizers/gptSummarizer.ts:65-75 | the retry loop gets no answer exactly when every remaining attempt fails |
| Summarization.RetryBounded | api/src/tasks/summarizers/gptSummarizer.ts:65-75 | between one and three calls are made, all but the last fail, the answer is that of the last call, and fewer than three calls means an answer came |
| Summarization.Ask | api/src/tasks/summarizers/gptSummarizer.ts:65-75 | the loop yields the answer and the call count that `Answer` and the call count specify |
| Summarization.GetSummary | api/src/tasks/summarizers/gptSummarizer.ts:60-97 | `getSummary` yields the specified summary after the specified number of calls |
| Summarization.KeptSummaryValid | api/src/tasks/summarizers/gptSummarizer.ts:77-93 | the summary is null exactly when there was no answer, a falsy answer, a parse error or a falsy `summary` field; a kept summary is the parsed answer, with a truthy `summary` |
| Summarization.SummarizeAll | api/src/tasks/summarizers/gptSummarizer.ts:39 | summarizing a page gives one result per text |
| Summarization.SummarizeAllPointwise | api/src/tasks/summarizers/gptSummarizer.ts:39 | a page succeeds exactly when each text's summary does, and each result is that text's summary |
| Summarization.SummarizeAllStops | api/src/tasks/summarizers/gptSummarizer.ts:39 | a failure ends the page at the first failing text |
| Summarization.SummarizePage | api/src/tasks/summarizers/gptSummarizer.ts:39 | the loop yields what `SummarizeAll` specifies |
| Summarization.Kept | api/src/tasks/summarizers/gptSummarizer.ts:40 | the non-null summaries are at most the results |
| Summarization.NullCount | api/src/tasks/summarizers/gptSummarizer.ts:49 | null and non-null results together are all the results |
| Summarization.Labelled | api/src/tasks/summarizers/gptSummarizer.ts:40-47 | the labelling as written: one saved summary per non-null result, labelled by its position among the non-null results |
| Summarization.MislabelledAfterFailure | api/src/tasks/summarizers/gptSummarizer.ts:40-47 | with two texts whose first summary is null, the second text's summary is saved under the first text's id and ada |
| Summarization.LabelledIntended | api/src/tasks/summarizers/gptSummarizer.ts:40-47 | the corrected labelling: one saved summary per non-null result, labelled by the text it came from |
| Summarization.IntendedLabelsMatch | api/src/tasks/summarizers/gptSummarizer.ts:40-47 | every saved summary carries the id and ada of the text whose result it is, and its `summary` field |
| Summarization.LabelsAgreeWithoutFailures | api/src/tasks/summarizers/gptSummarizer.ts:40-47 | when no summary is null, the labelling as written and the corrected one agree |
| Summarization.KeptAll | api/src/tasks/summarizers/gptSummarizer.ts:40 | without null results every result is kept, in order |
| Summarization.KeptFromResults | api/src/tasks/summarizers/gptSummarizer.ts:40-41 | every kept summary is one of the page's non-null results |
| Summarization.SummaryRows | api/src/tasks/summarizers/summarizer.ts:9-22 | one stored row per summary, in order, with the task id, ada, text id, summary and extracted data |
| Summarization.SummaryRowsAppend | api/src/tasks/summarizers/summarizer.ts:9-22 | saving two batches stores the rows of the joined batch |
| Summarization.SaveSummaries | api/src/tasks/summarizers/summarizer.ts:9-22 | `saveSummaries` appends exactly the rows of the summaries |
| Summarization.SummarizedStep | api/src/tasks/summarizers/gptSummarizer.ts:33-55 | the tally after one more page extends the tally before it by that page's results |
| Summarization.StoredStep | api/src/tasks/summarizers/gptSummarizer.ts:49-54 | storing one page keeps the loop invariant: the rows of the tally's summaries, and its processed and failure counts as metrics |
| Summarization.StorePage | api/src/tasks/summarizers/gptSummarizer.ts:39-54 | a failing page stores nothing and reports its error; otherwise the page's summaries are saved under the program's positional labels (`Labelled`) and the metrics updated, keeping the invariant |
| Summarization.SavePage | api/src/tasks/summarizers/gptSummarizer.ts:49-54 | saving a summarized page stores its kept summaries labelled by position among the kept ones, as written, adds its null count to the failures and updates the metrics |
| Summarization.RunPages | api/src/tasks/summarizers/gptSummarizer.ts:33-55 | the page loop ends after the last text or throws at the first failing page; what it stored is every page's positionally labelled summaries |
| Summarization.Run | api/src/tasks/summarizers/gptSummarizer.ts:20-58 | missing params throw with nothing stored; otherwise the page loop over the extractor task's texts, storing summaries labelled as written |
| Summarization.RunAndFinish | api/src/tasks/task.ts:76-88 | the summarizer's run, with its labelling as written, followed by the final status |
| Summarization.Start | api/src/tasks/task.ts:49-89 | a duplicate fails with no table changed; otherwise the task registers, runs (labelling as written) and finishes |
| Summarization.EveryTextAccounted | api/src/tasks/summarizers/gptSummarizer.ts:49-54 | summaries plus failures equal the texts read so far, and `texts_processed` is the last page's offset plus the summaries it saved |
| Summarization.SummarizedExtends | api/src/tasks/summarizers/gptSummarizer.ts:33-55 | one more page never loses a summary and never lowers the failure count |
| Summarization.FailuresNeverDecrease | api/src/tasks/summarizers/gptSummarizer.ts:49 | across any number of pages, the summaries only grow and the failure count never decreases |
| Summarization.RunCoversAllTexts | api/src/tasks/summarizers/gptSummarizer.ts:33-55 | a run that returns has accounted for every text as a stored summary or a failure |
| Summarization.StoredRowsValid | api/src/tasks/summarizers/summarizer.ts:9-22 | every stored row carries the task id, an object as extracted data and its truthy `summary` field |
| Summarization.SummariesValid | api/src/tasks/summarizers/gptSummarizer.ts:83-93 | every saved summary is an object whose `summary` field is truthy and is the one stored |
| Summarization.ResultsValid | api/src/tasks/summarizers/gptSummarizer.ts:83-93 | every non-null result of a page is an object with a truthy `summary` |
| Summarization.SummaryIsObject | api/src/tasks/summarizers/gptSummarizer.ts:83-93 | a kept summary is a JSON object |
| Embedding.EmbeddingRows | api/src/tasks/embedders/embedder.ts:11-23 | one stored row per embedding, in order, with the task id, text id, vector and position |
| Embedding.EmbeddingRowsAppend | api/src/tasks/embedders/embedder.ts:11-23 | saving two batches stores the rows of the joined batch |
| Embedding.SaveEmbeddings | api/src/tasks/embedders/embedder.ts:11-23 | `saveEmbeddings` appends exactly the rows of the embeddings |
| Embedding.TextToEmbed | api/src/tasks/embedders/cohereEmbedder.ts:79-87 | `getTextToEmbed` as written: throws exactly when the metadata or the text is null or undefined |
| Embedding.TextToEmbedIgnoresText | api/src/tasks/embedders/cohereEmbedder.ts:79-87 | as written, every string text embeds as `subject: undefined`, so two different texts with one subject get the same input |
| Embedding.NullTextRefused | api/src/tasks/embedders/cohereEmbedder.ts:79-87 | as written, a NULL (or undefined) text throws a TypeError when `text.text` is read |
| Embedding.TextToEmbedIntended | api/src/tasks/embedders/cohereEmbedder.ts:79-87 | the corrected `getTextToEmbed` is `${subject}: ${text}`; it throws exactly for null or undefined metadata, and a NULL text is written as `null` |
| Embedding.IntendedKeepsText | api/src/tasks/embedders/cohereEmbedder.ts:79-87 | the corrected input is the subject, then ": ", then the text itself |
| Embedding.IntendedTellsTextsApart | api/src/tasks/embedders/cohereEmbedder.ts:79-87 | with the corrected input, two texts with one subject get the same input only when they are equal |
| Embedding.VersionsDiffer | api/src/tasks/embedders/cohereEmbedder.ts:79-87 | the written and corrected inputs differ for every string text other than "undefined" |
| CohereEmbedding.NumberedPositions | api/src/tasks/embedders/cohereEmbedder.ts:49-56 | the vectors of one text are stored under its id with positions 1, 2, 3, ... |
| CohereEmbedding.EmbedAllStops | api/src/tasks/embedders/cohereEmbedder.ts:40-57 | a failing call ends the page at that text |
| CohereEmbedding.NullTextThrows | api/src/tasks/embedders/cohereEmbedder.ts:40-41 | a NULL text makes the page throw a TypeError, with no record for it or the texts after it |
| CohereEmbedding.EmbedPage | api/src/tasks/embedders/cohereEmbedder.ts:40-57 | the inner loop yields what the page specification gives, with each text embedded through `getTextToEmbed` as written |
| CohereEmbedding.GeneratedCountsRecords | api/src/tasks/embedders/cohereEmbedder.ts:43-56 | `embeddingCount` equals the number of records, and failures are at most the texts |
| CohereEmbedding.RecordsComeFromVectors | api/src/tasks/embedders/cohereEmbedder.ts:49-56 | every record is a vector returned for one of the page's texts, with that text's id |
| CohereEmbedding.FalsyTextStoresNothing | api/src/tasks/embedders/cohereEmbedder.ts:43-47 | a text whose embeddings are falsy gets no record |
| CohereEmbedding.PagesStep | api/src/tasks/embedders/cohereEmbedder.ts:32-67 | the tally after one more page extends the tally before it by that page's batch |
| CohereEmbedding.StoredStep | api/src/tasks/embedders/cohereEmbedder.ts:59-62 | storing one page keeps the loop invariant: the rows of all records, and the processed, failure and generated counts as metrics |
| CohereEmbedding.StorePage | api/src/tasks/embedders/cohereEmbedder.ts:40-62 | a failing call or a NULL text stores nothing and reports its error; otherwise the page's records are saved and the metrics updated |
| CohereEmbedding.SavePage | api/src/tasks/embedders/cohereEmbedder.ts:59-62 | saving an embedded page keeps the loop invariant |
| CohereEmbedding.RunPages | api/src/tasks/embedders/cohereEmbedder.ts:32-67 | the page loop ends after the last text or throws at the first failing call or NULL text, with the invariant describing what was stored |
| CohereEmbedding.Run | api/src/tasks/embedders/cohereEmbedder.ts:18-70 | missing params throw with nothing stored; otherwise the page loop over the extractor task's texts, using `getTextToEmbed` as written |
| CohereEmbedding.RunAndFinish | api/src/tasks/task.ts:76-88 | the embedder's run followed by the final status; a run that meets a NULL text ends Failed |
| CohereEmbedding.Start | api/src/tasks/task.ts:49-89 | a duplicate fails with no table changed; otherwise the task registers, runs (with the text to embed as written) and finishes |
| CohereEmbedding.GeneratedEqualsStored | api/src/tasks/embedders/cohereEmbedder.ts:61-62 | `embeddings_generated` equals the records stored, and failures never exceed the texts read |
| CohereEmbedding.StoredRecordsFromInputs | api/src/tasks/embedders/cohereEmbedder.ts:49-59 | every stored record is a vector returned for one of the input texts |
| CohereOneBatchEmbedding.TextStep | api/src/tasks/embedders/cohereOneBatchEmbedder.ts:40-55 | a NULL text throws before any charge or call; a text with an input is charged 0.001 before its call, and the process exits exactly when that charge passes the ceiling |
| CohereOneBatchEmbedding.NullTextChargesNothing | api/src/tasks/embedders/cohereOneBatchEmbedder.ts:68-81 | a NULL text ends the run with a TypeError and leaves the ledger as it was |
| CohereOneBatchEmbedding.EmbedAll | api/src/tasks/embedders/cohereOneBatchEmbedder.ts:40-56 | a page that halts never returns normally |
| CohereOneBatchEmbedding.EmbedAllStops | api/src/tasks/embedders/cohereOneBatchEmbedder.ts:40-56 | once a page halts, later texts are not processed |
| CohereOneBatchEmbedding.EmbedPage | api/src/tasks/embedders/cohereOneBatchEmbedder.ts:40-56 | the inner loop, embedding the string `getTextToEmbed` writes, yields the specified page; the ledger's total is the page's spending, and the ledger has exited exactly when the page ended by exiting |
| CohereOneBatchEmbedding.OneRecordPerText | api/src/tasks/embedders/cohereOneBatchEmbedder.ts:45-55 | a completed page has one record or one failure per text, charged 0.001 per text without passing the ceiling, and every record has position 1 and a text id of the page |
| CohereOneBatchEmbedding.ExitsOnlyPastCeiling | api/src/UsageMonitor.ts:26-34 | the process exits only when the total is strictly above the ceiling |
| CohereOneBatchEmbedding.PagesStep | api/src/tasks/embedders/cohereOneBatchEmbedder.ts:34-63 | one more completed page extends the run's tally |
| CohereOneBatchEmbedding.StoredStep | api/src/tasks/embedders/cohereOneBatchEmbedder.ts:58-61 | storing one page keeps the loop invariant: the rows of all records, and the processed and failure counts as metrics |
| CohereOneBatchEmbedding.EndsHere | api/src/tasks/embedders/cohereOneBatchEmbedder.ts:34-63 | the loop ends at an empty page or at a page that halts, and the end state is what the run specification says |
| CohereOneBatchEmbedding.StorePage | api/src/tasks/embedders/cohereOneBatchEmbedder.ts:40-61 | a page either halts (a failing call, a NULL text or an exit), leaving the specified end state with the ledger exited exactly on an exit, or is saved with the invariant kept |
| CohereOneBatchEmbedding.SavePage | api/src/tasks/embedders/cohereOneBatchEmbedder.ts:58-61 | saving an embedded page keeps the loop invariant |
| CohereOneBatchEmbedding.RunPages | api/src/tasks/embedders/cohereOneBatchEmbedder.ts:34-63 | the page loop ends at the last text, a failing call, a NULL text or an exit, and the ledger has exited exactly when the run ended by exiting |
| CohereOneBatchEmbedding.Run | api/src/tasks/embedders/cohereOneBatchEmbedder.ts:21-66 | missing params throw with nothing stored; otherwise the page loop over the extractor task's texts, with the text to embed as written, charging the ledger |
| CohereOneBatchEmbedding.RunAndFinish | api/src/tasks/task.ts:76-88 | a run ended by the process exiting records no final status; any other run, including one that meets a NULL text, gets the final status |
| CohereOneBatchEmbedding.Start | api/src/tasks/task.ts:49-89 | a duplicate fails with nothing charged or changed; otherwise the task registers and runs with the text to embed as written, and it is left Running when the process exits |
| CohereOneBatchEmbedding.EveryTextChargedOnce | api/src/tasks/embedders/cohereOneBatchEmbedder.ts:40-61 | while the run goes on, records plus failures equal the texts read, each read text costs exactly 0.001, and every record has position 1 |
| ApiDecision.DocumentUrlFor | api/src/decision.ts:135-139 | the URL is always truthy: the given one when truthy, otherwise the Diavgeia document address of the ada |
| ApiDecision.DefaultUrlsApart | api/src/decision.ts:135-139 | decisions with different adas and no URL get different default URLs |
| ApiDecision.NoDocumentSkipped | api/src/decision.ts:48-53 | a decision without a document gets `hasDocument: false` and an empty text |
| ApiDecision.UnloadableFlagged | api/src/decision.ts:58-66 | a PDF that does not load gives an empty text flagged as a failed extraction, with `hasDocument: true` |
| ApiDecision.JoinKeepsInk | api/src/decision.ts:77-85 | joining pages that are not all blank never gives a blank text |
| ApiDecision.UnprefixedKeyKept | api/src/decision.ts:87-96 | adding the PDF's metadata never overwrites a decision field |
| ApiDecision.StoredTextFlagged | api/src/decision.ts:77-96 | the failure flag is set exactly when the stored text is empty, an empty text is exactly a blank one, and any other text is the pages joined by " \|\| " |
| ApiDecision.FailureIffEmptyText | api/src/decision.ts:68-96 | for a loaded PDF, the failure flag is set exactly when the text is empty, and otherwise the text is the pages joined |
| ApiDecision.DecisionKeyUnprefixed | api/src/decision.ts:87-96 | decision fields never collide with the prefixed PDF keys or with the two flags |
| ApiDecision.Decision.GenerateEmbedding | api/src/decision.ts:99-110 | one Cohere call on the whole embedding text; 0.001 is charged before it and 0.001 again by `generateCohereEmbedding`, so a call that reaches Cohere costs 0.002 while the value reports 0.001; a missing text throws after the first charge |
| ApiDecision.DecisionFieldsKept | api/src/decision.ts:43-97 | loading a document keeps every decision field of the metadata |
| ApiDecision.ConstructedUrl | api/src/decision.ts:48-66 | a decision counts as having no document exactly when its URL is the text "null", and a failed load implies the PDF itself loaded |
| ApiDecision.Content | api/src/decision.ts:186-196 | the content part is never blank, and is the text itself when the text is not blank |
| ApiDecision.EmbeddingInputShape | api/src/decision.ts:186-196 | the embedding input is "Subject:", the subject, "Content:" and the content, separated by blank lines |
| ApiDecision.EmbeddingInputsApart | api/src/decision.ts:186-196 | two inputs with one subject are equal exactly when their contents are |
| ApiDecision.Decision.constructor | api/src/decision.ts:34-40 | the metadata as extracted, the URL with its default, and no text loaded |
| ApiDecision.Decision.LoadDocument | api/src/decision.ts:43-97 | `loadDocument` updates the metadata and the text as the load specification says |
| ApiDecision.Decision.Metadata | api/src/decision.ts:161-163 | the metadata with `documentUrl` added, and an error exactly when the URL is undefined |
| ApiDecision.Decision.DocumentUrl | api/src/decision.ts:165-170 | the URL, and "Document URL not loaded" exactly when it is undefined |
| ApiDecision.Decision.Ada | api/src/decision.ts:172-177 | the ada, and "ADA not loaded" exactly when it is missing |
| ApiDecision.Decision.DocumentText | api/src/decision.ts:179-184 | the loaded text, and "Document text not loaded" exactly when none is loaded |
| ApiDecision.Decision.EmbeddingText | api/src/decision.ts:186-196 | the subject-and-content input once a text is loaded, an error before |
| ApiDecision.NewDecision | api/src/decision.ts:34-40 | construction fails with the extraction's or the missing-ada error, or gives a fresh decision with the extracted metadata, the defaulted URL and no text |
| LegacyDecision.NoUrlNoLoad | src/decision.ts:41-43 | loading without a URL fails with "Document URL not set" and changes nothing |
| LegacyDecision.NoDocumentSkipped | src/decision.ts:45-49 | a decision without a document gets an empty text |
| LegacyDecision.LoadedText | src/decision.ts:53-63 | a successful load stores the pages joined by " ", and a PDF that does not load fails with its error, changing nothing |
| LegacyDecision.EmbeddingInputsApart | src/decision.ts:161-169 | two inputs with one subject are equal only when their texts are |
| LegacyDecision.ChunksConcat | src/decision.ts:82-85 | the chunks put together give back the whole encoding |
| LegacyDecision.ChunksCount | src/decision.ts:82-85 | there are `ceil(n / 2000)` chunks |
| LegacyDecision.ChunkAt | src/decision.ts:82-85 | chunk i is the encoding from position 2000·i to the next 2000 or the end |
| LegacyDecision.ChunkSizes | src/decision.ts:82-85 | every chunk holds between 1 and 2000 tokens |
| LegacyDecision.ChunkTokens | src/decision.ts:82-85 | the chunking loop yields the specified chunks |
| LegacyDecision.Decision.constructor | src/decision.ts:31-37 | the metadata and URL as extracted, and no text loaded |
| LegacyDecision.Decision.LoadDocument | src/decision.ts:40-74 | `loadDocument` updates the metadata and the text as the load specification says |
| LegacyDecision.Decision.Metadata | src/decision.ts:150-152 | the getter returns the decision's metadata |
| LegacyDecision.Decision.DocumentText | src/decision.ts:154-159 | the loaded text, and "Document text not loaded" exactly when none is loaded |
| LegacyDecision.Decision.EmbeddingText | src/decision.ts:161-169 | the subject-and-text input once a text is loaded, an error before |
| LegacyDecision.Decision.GenerateEmbedding | src/decision.ts:76-104 | the chunks are embedded and their tokens charged to the ledger (the process exits past the ceiling); an unknown model, unequal sizes or no embedding is an error; otherwise the result is the column sums of the chunk embeddings |
| LegacyDecision.NewDecision | src/decision.ts:31-37 | construction fails with the extraction's or the missing-ada error, or gives a fresh decision with the extracted metadata and URL and no text |
| DecisionRecord.Fields | api/src/decision.ts:112-159 | destructuring gives exactly the listed keys, each with the object's value |
| DecisionRecord.Extract | api/src/decision.ts:112-159 | `_extractData` throws a TypeError exactly when the decision or its `extraFieldValues` is null or undefined |
| DecisionRecord.ExtractedFields | src/decision.ts:106-148 | the metadata holds exactly the eleven decision fields and the four extra fields, with their values, and the URL is the one given |
| DecisionRecord.Admit | api/src/decision.ts:34-40 | construction succeeds exactly when extraction succeeds with a truthy ada, and otherwise fails with "Decision ADA not set" |
| DiavgeiaQueries.Quoted | api/src/utils.ts:20-22 | each decision type id, in order, wrapped in double quotes |
| DiavgeiaQueries.UidsRoundTrip | api/src/utils.ts:20-22 | the decision type ids can be read back from the encoded query when no id or date contains a double quote |
| DiavgeiaQueries.EncodeAvoids | api/src/utils.ts:20-22 | a character absent from the ids, the dates and the fixed text is absent from the query |
| DiavgeiaQueries.BaseAvoidsAmpersand | api/src/utils.ts:24-26 | the search address contains no "&" |
| DiavgeiaQueries.UrlAsJoin | api/src/utils.ts:24-26 | the search URL is the query, `page=` and `size=` joined by "&" |
| DiavgeiaQueries.NumberParamAvoids | api/src/utils.ts:24-26 | a number parameter adds no "&" |
| DiavgeiaQueries.SearchUrlFields | api/src/utils.ts:24-26 | splitting the URL on "&" gives the query, then exactly the page and the size in decimal, when no id or date contains "&" |
| DiavgeiaQueries.DigitsOnly | api/src/utils.ts:24-26 | a number is written with digits and at most a minus sign |
| IngestCli.Check | src/ingest.ts:31-40 | the dates pass exactly when both are YYYY-MM-DD, and the start date is reported first |
| IngestCli.Padded | src/ingest.ts:31-40 | a zero-padded number has the requested width and only digits |
| IngestCli.PaddedValue | src/ingest.ts:31-40 | a padded number reads back as itself |
| IngestCli.DateRoundTrip | src/ingest.ts:31-40 | every year, month and day written as YYYY-MM-DD passes the check and reads back |
| IngestCli.AcceptedIsDate | src/ingest.ts:31-40 | every accepted text is the YYYY-MM-DD writing of its own parts |
| IngestCli.DigitsPadded | src/ingest.ts:31-40 | a digit string is the padded writing of its value |
| IngestCli.ArgsQueryTypes | src/ingest.ts:43-55 | the comma-separated decision types are carried unchanged into the Diavgeia query |
| Logging.FormatStart | src/logger.ts:10-17 | every line starts with the bracketed level |
| Logging.LevelRecoverable | src/logger.ts:10-17 | the level can be read back from the line |
| Logging.ContentEndsLine | src/logger.ts:10-17 | every line ends with one space followed by the content |
| Logging.EmptyContextWritten | src/logger.ts:12-14 | an empty context still adds its brackets, three characters |
| Logging.Logger.constructor | src/logger.ts:6-8 | a logger with its context and nothing written |
| Logging.Logger.Log | src/logger.ts:10-17 | appends exactly one formatted line |
| Logging.Logger.Debug | src/logger.ts:19-21 | appends one debug line |
| Logging.Logger.Info | src/logger.ts:23-25 | appends one info line |
| Logging.Logger.Warn | src/logger.ts:27-29 | appends one warning line |
| Logging.Logger.Error | src/logger.ts:31-33 | appends one error line |
| QueryGeneration.ConvertIssueDateFilter | api/src/generateQuery.ts:48-57 | an undefined filter stays undefined, and the conversion throws exactly for a null filter |
| QueryGeneration.ConvertedRange | api/src/generateQuery.ts:48-57 | the converted filter accepts a date exactly when both bounds parse and the date is after the start and within a day after the end |
| QueryGeneration.EndDayIncluded | api/src/generateQuery.ts:48-57 | every moment of the end day is accepted |
| QueryGeneration.PostProcess | api/src/generateQuery.ts:65-82 | an empty answer is the "empty response" error; otherwise the text is the answer's `text` field and the filter keeps no `text` key |
| QueryGeneration.IssueDateRewritten | api/src/generateQuery.ts:65-82 | an `issueDate` entry is replaced by the converted `$and` range, and every other key passes through |
| QueryGeneration.OtherKeysPassThrough | api/src/generateQuery.ts:65-82 | without an `issueDate`, the filter is the answer without its `text` |
| QueryGeneration.NullAnswerThrows | api/src/generateQuery.ts:65-82 | an answer that parses to null throws a TypeError |
| Ledger.InitialCeiling | api/src/UsageMonitor.ts:45 | the ceiling is 10 when `MAX_COST_USD` is unset or empty, and otherwise its `parseFloat`, NaN included |
| Ledger.NotANumberNeverExceeded | api/src/UsageMonitor.ts:30 | no total exceeds a NaN ceiling |
| Ledger.EmbeddingUsageMonitor.constructor | api/src/UsageMonitor.ts:13-17 | the ceiling and prices given, a zero total, not exited |
| Ledger.EmbeddingUsageMonitor.AddCost | api/src/UsageMonitor.ts:26-34 | the total grows by the cost, and the process exits exactly when the total is strictly above the ceiling |
| Ledger.EmbeddingUsageMonitor.AddTokens | api/src/UsageMonitor.ts:19-24 | an unknown model throws "Unknown model" and charges nothing; a known one charges tokens times its price |
| Ledger.PipelineTableOnlyAda | src/embeddingUsageMonitor.ts:8-11 | the pipeline's price table knows only ada, at 0.0004 dollars per thousand tokens |
| Ledger.GenerateCohereEmbedding | api/src/utils.ts:73-95 | every call is charged 0.001, even one that fails; a failure passes its error on, otherwise the first embedding is returned with its cost |
| Vectors.AllOfLength | api/src/utils.ts:28-31 | all vectors have the given length |
| Vectors.EqualSizes | api/src/utils.ts:28-31 | `equalSizes` holds for no vectors, and otherwise exactly when every vector has the first one's length |
| Vectors.CombineEmbeddings | api/src/utils.ts:33-44 | unequal sizes throw "Embeddings must have the same size", no vectors at all throws a TypeError, and otherwise the result has the common length and holds the column sums |
| Vectors.ColumnSumSplit | api/src/utils.ts:33-44 | a column sum over a joined list is the sum of the two parts' column sums |
| Vectors.ColumnSumSingle | api/src/utils.ts:33-44 | combining one vector gives the vector itself |
| Reduction.PointRows | api/src/tasks/dimensionalityReducers/dimensionalityReducer.ts:9-22 | one stored row per point, in order, with the task id, the decision's ada and id, and both coordinates |
| Reduction.RowPoints | api/src/tasks/dimensionalityReducers/dimensionalityReducer.ts:9-22 | reading rows back gives one point per row |
| Reduction.PointsRoundTrip | api/src/tasks/dimensionalityReducers/dimensionalityReducer.ts:9-22 | the points read back from stored rows are the points saved, and every row carries the task id |
| Reduction.PointRowsAppend | api/src/tasks/dimensionalityReducers/dimensionalityReducer.ts:9-22 | saving two batches stores the rows of the joined batch |
| Reduction.SaveSemanticPoints | api/src/tasks/dimensionalityReducers/dimensionalityReducer.ts:9-22 | `saveSemanticPoints` appends exactly the rows of the points |
| Reduction.SavesCompose | api/src/tasks/dimensionalityReducers/dimensionalityReducer.ts:9-22 | two saves store what one save of the joined batch would |
| Strs.SplitFrom | src/ingest.ts:46 | splitting from a partial piece always gives at least one piece |
| Strs.Split | src/ingest.ts:46 | `split` always gives at least one piece |
| Strs.JoinSplitFrom | src/ingest.ts:46 | joining the pieces with the separator gives back the partial piece followed by the text |
| Strs.JoinSplit | src/ingest.ts:46 | `split` followed by `join` with the same separator is the identity |
| Strs.SplitSkipsPiece | src/ingest.ts:46 | a stretch without the separator character is carried whole into the current piece |
| Strs.SplitJoin | src/ingest.ts:46 | `join` followed by `split` on one character gives back the pieces when none contains that character |
| Strs.SplitFromAvoids | src/ingest.ts:46 | a character absent from the text is absent from every piece |
| Strs.SplitAvoids | src/ingest.ts:46 | a character absent from the text is absent from every piece of `split` |
| Strs.IsWhitespace | api/src/utils.ts:97-99 | `isWhitespace`: the empty text or only whitespace characters |
| Strs.WhitespaceAppend | api/src/utils.ts:97-99 | two texts joined are blank exactly when both are |
| Strs.RemoveChar | api/src/tasks/textExtractors/textExtractor.ts:19 | `replaceAll` with "": no occurrence of the character is left, and every other character occurs as often as before |
| Strs.RemoveCharAppend | api/src/tasks/textExtractors/textExtractor.ts:19 | removing from joined texts is joining the removals |
| Strs.RemoveCharAbsent | api/src/tasks/textExtractors/textExtractor.ts:19 | a text without the character is unchanged |
| Strs.DigitValue | api/src/tasks/task.ts:99 | a digit character's value is between 0 and 9 |
| Strs.NatToString | api/src/tasks/task.ts:99 | a number written in decimal is a non-empty run of digits without a leading zero |
| Strs.DigitRoundTrip | api/src/tasks/task.ts:99 | a digit written and read back is itself |
| Strs.NatToStringRoundTrip | api/src/tasks/task.ts:99 | a number written in decimal reads back as itself |
| Strs.NatToStringInjective | api/src/tasks/task.ts:99 | different numbers are written differently |
| Js.Get | api/src/tasks/ingestors/diavgeiaIngestor.ts:183-236 | property access throws exactly on null and undefined; an object gives the entry or undefined; `length` of a string or array is a number |
| Js.TrimStart | api/src/server.ts:103-106 | the text `parseInt` reads after leading whitespace: a suffix of the input, with only whitespace dropped, starting with no whitespace |
| Js.TrimEnd | api/src/tasks/ingestors/diavgeiaIngestor.ts:60-61 | the whitespace `Number` drops at the end: a prefix of the input, only whitespace dropped, ending with no whitespace |
| Js.WholeRun | api/src/tasks/ingestors/diavgeiaIngestor.ts:60-61 | a value exactly when the text is a non-empty run of digits of the radix |
| Js.StringToNumber | api/src/tasks/ingestors/diavgeiaIngestor.ts:60-61 | `Number(s)` on integer texts; a blank text is 0 |
| Js.ToNumber | api/src/tasks/ingestors/diavgeiaIngestor.ts:60-61 | numbers as they are, `true` as 1 and `false` as 0, `undefined` and `NaN` as NaN |
| Js.ToNumberRoundTrip | api/src/tasks/ingestors/diavgeiaIngestor.ts:60-61 | the decimal text of an integer, with whitespace around it, converts back to the integer |
| Js.HexDigitValue | api/src/server.ts:103-106 | a hexadecimal digit's value is below 16, and anything else gives -1 |
| Js.RadixDigit | api/src/server.ts:103-106 | a digit in the radix has its value; decimal digits are exactly 0 to 9 |
| Js.DigitRun | api/src/server.ts:103-106 | `parseInt` reads the longest run of digits at the start: every character of the run is a digit and the next one is not |
| Js.IntOrDefault | api/src/server.ts:46-49 | `let n = parseInt(v); if (isNaN(n)) n = d`: the parsed integer when there is one, otherwise the default |
| Js.RadixValueDecimal | api/src/server.ts:103-106 | a decimal run's value is its digits' value |
| Js.DigitRunAllDigits | api/src/server.ts:103-106 | a text of digits is read whole |
| Js.ParseUnsignedDecimal | api/src/server.ts:103-106 | a number written in decimal parses back as itself |
| Js.ParseIntRoundTrip | api/src/server.ts:103-106 | `parseInt` of a written integer, negative ones included, is that integer |
| Js.ParseIntSkipsSpace | api/src/server.ts:103-106 | leading whitespace does not change what `parseInt` reads |
| Js.TrimStartSkipsSpace | api/src/server.ts:103-106 | leading whitespace is dropped whole |
| Js.IntOrDefaultMissing | api/src/server.ts:46-49 | a missing parameter takes the default |

## Left out

- PostgreSQL itself is not modelled: its transactions, isolation levels and pool.
  - Each query is an atomic update of the in-memory tables.
  - `ORDER BY RANDOM()` sampling and pgvector distances are not modelled.
- Concurrency is not modelled: `Promise.all`, `PromisePool`, the rate limiters and `sleep`.
  - Concurrent calls are taken in order, one at a time.
  - The summarizer's `Promise.all` rejects at the first failure, which is modelled as the first failing text in order.
- Numbers are integers, and costs and prices are reals. Floating-point rounding is not modelled.
- `Date.parse`, `parseFloat`, `JSON.parse`, the PDF loader, the Diavgeia API, the language model and the Cohere endpoints are parameters.
- `new Date()` is a clock tick, and the elapsed times the servers report are left out.
- Logging is modelled only by the logger's own lines. The calls to it elsewhere are left out, since they change no state the model keeps.
- These parts of the servers are not part of this model:
  - the `/embed` and `/status` routes;
  - the `/embeddings` route of both search servers (src/server.ts:143-163, server.ts:131-151): its `split(",")` of the `ids` parameter, which throws on a missing one, and its two checks after the split, which can never fail;
  - the root server's own `getEmbeddings` (server.ts:32-37), which returns the collection's embeddings in the collection's order without aligning them to the requested ids; `LegacyServer.GetEmbeddings` models only the aligning helper of src/server.ts;
  - the socket chat (`api/src/chat.ts`);
  - the Express, cache and throttling plumbing.
- The command-line front ends (`api/src/cli.ts`, `src/cli.ts`, `src/chromaCli.ts`) are not modelled beyond the checks and the query `src/ingest.ts` builds. Neither are the implementation registries, `src/embedDiavgeia.ts` or the UMAP reduction.
- Ingestion.SaveAll: the body of `saveAll` is not part of this model, so it is specified abstractly. Decisions are stored as `saveDecisions` stores them, and each fetched entity record is appended to its table.
- The `rowCount !== 1` branch of `createViewConfiguration` is not modelled. A single-row `INSERT ... RETURNING` always reports one row, so the branch cannot be taken.
- Unhandled promise rejections and `encodeURI` errors are not modelled.
- Keys inherited from `Object.prototype` are not modelled. JSON's dropping of `undefined` entries is stated in a lemma rather than modelled.
- `Ingestion.Run` requires that the Diavgeia search runs out of decisions. Without that, the page loop of the source need not terminate.
- ApiDecision.Decision.GenerateEmbedding: only the Cohere provider is modelled, since the provider is a constant set to Cohere.
- The id and version columns are taken to be PostgreSQL `integer` (32-bit) columns; the schema is not part of this model.
- PgParams.IntegerParam: PostgreSQL 16's underscores and `0x`/`0o`/`0b` integer literals are not modelled, and an object's error message shows `{...}` in place of its JSON text.
- ApiServer.GetTaskId: an object given as a name is sent as its JSON text; the model lets it match no task, which differs only for a task whose name is that JSON text.
- PgParams.ParamOf: dates, buffers and objects with a `toPostgres` method have no counterpart in `Js.Value`. An object's JSON text, alone or inside an array, is not spelled out, since `Value` does not keep key order; such a parameter is read as no integer and as no task name.
- The un-awaited `getTaskById` check at the head of each stage's `run` (for example api/src/tasks/summarizers/gptSummarizer.ts:28) tests a pending promise, which is always truthy. It never refuses a task, so it is not modelled.
- The corrected URL lookup, the corrected summary labelling and the corrected text to embed (see "## Findings") are reference definitions only. The stage runs use the URL lookup, the labelling and the text to embed as written.
- Numbers are integers. A string `only` that spells a fraction or an exponent, or is `Infinity`, a `0o` or a `0b` literal, is read as `NaN` and sets no cap; an array or object `only` is read as `NaN` as well.
- The REPEATABLE READ transaction the text extractor opens ends at its first `saveTexts` COMMIT. The model assumes no other writer changes the ingestor task's decisions while the extractor runs.
- CohereOneBatchEmbedding.Run: the per-text calls are modelled one after another, so a charge that passes the ceiling stops the page at that text.
- `generateCohereEmbeddings` (imported at api/src/tasks/embedders/cohereEmbedder.ts:3 and called at line 75) and `generateChatGPTResponse` (imported at api/src/tasks/summarizers/gptSummarizer.ts:3 and called at line 68) are not defined in api/src/utils.ts, which the two files import them from. They are abstract collaborators here, so any charge they make to `UsageMonitor` is not modelled: the Cohere embedder and the summarizer carry no ledger, although the sibling `generateCohereEmbedding` charges one.
- `Ledger.GenerateCohereEmbedding` returns `Costed`; the Cohere response's other fields are not modelled.

## Findings

| source | as written | input that shows it | evidently intended | confidence | as-written member | corrected member |
|---|---|---|---|---|---|---|
| api/src/tasks/summarizers/gptSummarizer.ts:40-47 | the summaries are filtered for null before they are labelled, and the label comes from `inputTexts.rows[index]`, the position among the kept summaries | a page of two texts whose first summary is null: the second text's summary is saved with the first text's id and ada | each summary is saved with the id and ada of the text it summarizes | high, not executed | Summarization.MislabelledAfterFailure | Summarization.IntendedLabelsMatch |
| api/src/tasks/textExtractors/simpleTextExtractor.ts:65 | the extractor selects `id, metadata` (line 37) and takes the URL from `metadata.documentUrl`; the ingestor stores the URL in the `document_url` column and never in the metadata (api/src/tasks/ingestors/diavgeiaIngestor.ts:183-236) | any decision the ingestor stored: it is saved with a NULL text and `{hasDocument: false}`, and an embedder page that reaches it throws | the URL is read from `document_url`, so the PDF of every ingested decision is loaded | high, not executed | Lineage.IngestedTextStopsEmbedder | Lineage.IntendedLoadsIngested |
| api/src/tasks/embedders/cohereEmbedder.ts:79-87 | `getTextToEmbed` reads `text.text`, but the text passed in is the `text` column. For a string the field is undefined, and for a NULL text the read throws a TypeError. The same code is at api/src/tasks/embedders/cohereOneBatchEmbedder.ts:73-81 | any text row: the input embedded is `<subject>: undefined`, whatever the text says | the input is `${subject}: ${text}`, so a NULL text would be written `null` rather than throwing | high, not executed | Embedding.TextToEmbedIgnoresText | Embedding.IntendedTellsTextsApart |
