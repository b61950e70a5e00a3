/**
 * The demo's search server (`server.ts`): `/search` queries the Chroma collection with the
 * generated filter narrowed to decisions whose text was extracted.
 */
module RootServer {
  import opened Base
  import opened Js
  import opened Vectors
  import opened DecisionRecord
  import opened ChromaSearch

  /** `{"hasDocument": {"$eq": "true"}}` and `{"textExtractionFailure": {"$eq": "false"}}`. */
  const HasDocumentFilter: Value := Obj(map["hasDocument" := Obj(map["$eq" := Str("true")])])
  const ExtractedFilter: Value := Obj(map["textExtractionFailure" := Obj(map["$eq" := Str("false")])])

  /** `Object.keys(x).length > 0`, for the objects the filter sees. */
  predicate HasKeys(v: Value)
  {
    v.Obj? && |v.fields| > 0
  }

  /** `.filter((x) => Object.keys(x).length > 0)`. */
  function KeepNonEmpty(xs: seq<Value>): (r: seq<Value>)
    ensures |r| <= |xs|
    ensures forall i :: 0 <= i < |r| ==> HasKeys(r[i]) && r[i] in xs
  {
    if |xs| == 0 then []
    else (if HasKeys(xs[0]) then [xs[0]] else []) + KeepNonEmpty(xs[1..])
  }

  /** The `where` the collection is queried with. */
  function WhereClause(whereObj: map<string, Value>): Value
  {
    Obj(map["$and" := Arr(KeepNonEmpty([Obj(whereObj), HasDocumentFilter, ExtractedFilter]))])
  }

  /** The conjunction always holds the two document filters, last and in this order, and
      holds the generated filter first exactly when it has a key left. */
  lemma WhereClauseShape(whereObj: map<string, Value>)
    ensures WhereClause(whereObj) ==
              Obj(map["$and" := Arr((if |whereObj| > 0 then [Obj(whereObj)] else []) + [HasDocumentFilter, ExtractedFilter])])
  {
    var xs := [Obj(whereObj), HasDocumentFilter, ExtractedFilter];
    assert xs[1..][1..][1..] == [];
    assert KeepNonEmpty(xs[1..][1..]) == [ExtractedFilter];
    assert KeepNonEmpty(xs[1..]) == [HasDocumentFilter, ExtractedFilter];
  }

  datatype SearchResult = SearchResult(id: string, distance: real, subject: Value, metadata: map<string, Value>)

  /** The results loop: one result per hit, in order, the subject read from the hit's
      metadata. */
  method ShapeResults(hits: seq<Hit>) returns (results: seq<SearchResult>)
    ensures |results| == |hits|
    ensures forall i :: 0 <= i < |hits| ==>
              results[i] == SearchResult(hits[i].id, hits[i].distance, Subject(hits[i].metadata), hits[i].metadata)
  {
    results := [];
    var i := 0;
    while i < |hits|
      invariant 0 <= i <= |hits|
      invariant |results| == i
      invariant forall j :: 0 <= j < i ==>
                  results[j] == SearchResult(hits[j].id, hits[j].distance, Subject(hits[j].metadata), hits[j].metadata)
    {
      var h := hits[i];
      results := results + [SearchResult(h.id, h.distance, Subject(h.metadata), h.metadata)];
      i := i + 1;
    }
  }

  /** `response.error || response.detail`. */
  predicate Failed(a: QueryAnswer)
  {
    a.error || (a.detail.Some? && a.detail.value != "")
  }

  /** What the handler answers once the collection has answered `a` to the generated
      query `g` embedded as `e`. */
  predicate Answers(r: Answer<SearchResult>, g: Generated, e: Vector, a: QueryAnswer)
  {
    && (Failed(a) ==> r == ServerError(QueryFailedMessage))
    && (!Failed(a) && |a.hits| == 0 ==> r == Found(None, []))
    && (!Failed(a) && |a.hits| > 0 ==>
          && r.Found? && Reports(r.queryMetadata, |a.hits|, g, e) && |r.results| == |a.hits|
          && forall i :: 0 <= i < |a.hits| ==>
               r.results[i] == SearchResult(a.hits[i].id, a.hits[i].distance, Subject(a.hits[i].metadata), a.hits[i].metadata))
  }

  /** The handler after the query: a 500 for an error or a detail, `{results: []}` for no
      hit, else the results and the query's metadata. */
  method Respond(g: Generated, e: Vector, a: QueryAnswer) returns (r: Answer<SearchResult>)
    ensures Answers(r, g, e, a)
  {
    var cost := 0.0 + g.cost + QueryEmbeddingCost;
    var whereObj := Restored(g.where, WithoutDecisionType(g.where));
    if Failed(a) {
      return ServerError(QueryFailedMessage);
    }
    if |a.hits| == 0 {
      return Found(None, []);
    }
    var results := ShapeResults(a.hits);
    r := Found(Some(QueryMetadata(|results|, g.text, whereObj, cost, e)), results);
  }

  /** The `/search` handler, with the same collaborators as the pipeline's server; the
      collection is asked for documents only, through `WhereClause`. */
  method Search(q: Value, n: Value, generate: string -> Result<Generated>, embedQuery: string -> Vector,
                query: (Vector, int, Value) -> QueryAnswer) returns (r: Answer<SearchResult>)
    ensures QueryError(q).Some? ==> r == BadRequest(QueryError(q).value)
    ensures q.Str? && generate(q.s).Err? ==> r == ServerError(GenerateFailedMessage)
    ensures q.Str? && generate(q.s).Ok? ==>
              var g := generate(q.s).value;
              var e := embedQuery(g.text);
              Answers(r, g, e, query(e, IntOrDefault(n, DefaultResultCount), WhereClause(WithoutDecisionType(g.where))))
  {
    var count := IntOrDefault(n, DefaultResultCount);
    var problem := QueryError(q);
    if problem.Some? {
      return BadRequest(problem.value);
    }
    var generated := generate(q.s);
    if generated.Err? {
      return ServerError(GenerateFailedMessage);
    }
    var g := generated.value;
    var embedding := embedQuery(g.text);
    var answer := query(embedding, count, WhereClause(WithoutDecisionType(g.where)));
    r := Respond(g, embedding, answer);
  }
}
