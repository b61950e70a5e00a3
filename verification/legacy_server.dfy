/**
 * The pipeline's search server (`src/server.ts`): `/search` answers a natural-language
 * query from the Chroma collection, and `getEmbeddings` lines the stored embeddings up
 * with the ids a client asked for.
 */
module LegacyServer {
  import opened Base
  import opened Strs
  import opened Js
  import opened Vectors
  import opened DecisionRecord
  import opened ChromaSearch

  const NoDatapointsMessage := "No datapoints found for the supplied filter"

  // ---------------------------------------------------------------------------------
  // Embeddings by id

  /** An entry of `decisions.get(ids)`: the id and its embedding (`response.ids[k]` and
      `response.embeddings[k]`). */
  datatype Stored = Stored(id: string, embedding: Vector)

  /** `response.ids.indexOf(id)`: the first position holding the id, or -1. */
  function IndexOf(found: seq<Stored>, id: string): (i: int)
    ensures -1 <= i < |found|
    ensures i == -1 <==> forall j :: 0 <= j < |found| ==> found[j].id != id
    ensures i >= 0 ==> found[i].id == id && forall j :: 0 <= j < i ==> found[j].id != id
  {
    if |found| == 0 then -1
    else if found[0].id == id then 0
    else
      var k := IndexOf(found[1..], id);
      if k == -1 then -1 else k + 1
  }

  /** The embedding returned for a requested id: that of the first entry with the id, or the
      empty vector when the collection did not return it. */
  function EmbeddingOf(found: seq<Stored>, id: string): (v: Vector)
    ensures (forall j :: 0 <= j < |found| ==> found[j].id != id) ==> v == []
    ensures forall j :: 0 <= j < |found| && found[j].id == id && (forall k :: 0 <= k < j ==> found[k].id != id) ==>
              v == found[j].embedding
  {
    var i := IndexOf(found, id);
    if i == -1 then [] else found[i].embedding
  }

  /** `getEmbeddings`: one entry per requested id, in the order requested. */
  method GetEmbeddings(ids: seq<string>, found: seq<Stored>) returns (res: seq<Vector>)
    ensures |res| == |ids|
    ensures forall i :: 0 <= i < |ids| ==> res[i] == EmbeddingOf(found, ids[i])
  {
    res := [];
    var i := 0;
    while i < |ids|
      invariant 0 <= i <= |ids|
      invariant |res| == i
      invariant forall j :: 0 <= j < i ==> res[j] == EmbeddingOf(found, ids[j])
    {
      var ind := IndexOf(found, ids[i]);
      if ind == -1 {
        res := res + [[]];
      } else {
        res := res + [found[ind].embedding];
      }
      i := i + 1;
    }
  }

  // ---------------------------------------------------------------------------------
  // /search

  datatype SearchResult = SearchResult(id: string, distance: real, subject: Value,
                                       metadata: map<string, Value>, document: Value)

  /** The results loop: one result per hit, in order, the subject read from the hit's
      metadata. */
  method ShapeResults(hits: seq<Hit>) returns (results: seq<SearchResult>)
    ensures |results| == |hits|
    ensures forall i :: 0 <= i < |hits| ==>
              results[i] == SearchResult(hits[i].id, hits[i].distance, Subject(hits[i].metadata),
                                         hits[i].metadata, hits[i].document)
  {
    results := [];
    var i := 0;
    while i < |hits|
      invariant 0 <= i <= |hits|
      invariant |results| == i
      invariant forall j :: 0 <= j < i ==>
                  results[j] == SearchResult(hits[j].id, hits[j].distance, Subject(hits[j].metadata),
                                             hits[j].metadata, hits[j].document)
    {
      var h := hits[i];
      results := results + [SearchResult(h.id, h.distance, Subject(h.metadata), h.metadata, h.document)];
      i := i + 1;
    }
  }

  /** `response.error || response.detail`. */
  predicate Failed(a: QueryAnswer)
  {
    a.error || (a.detail.Some? && a.detail.value != "")
  }

  /** A detail saying that no entry passed the filter. */
  predicate NothingMatched(a: QueryAnswer)
  {
    a.detail.Some? && a.detail.value != "" && Contains(a.detail.value, NoDatapointsMessage)
  }

  /** What the handler answers once the collection has answered `a` to the generated
      query `g` embedded as `e`. */
  predicate Answers(r: Answer<SearchResult>, g: Generated, e: Vector, a: QueryAnswer)
  {
    && (Failed(a) && !NothingMatched(a) ==> r == ServerError(QueryFailedMessage))
    && (Failed(a) && NothingMatched(a) ==> r.Found? && Reports(r.queryMetadata, 0, g, e) && r.results == [])
    && (!Failed(a) ==>
          && r.Found? && Reports(r.queryMetadata, |a.hits|, g, e) && |r.results| == |a.hits|
          && forall i :: 0 <= i < |a.hits| ==>
               r.results[i] == SearchResult(a.hits[i].id, a.hits[i].distance, Subject(a.hits[i].metadata),
                                            a.hits[i].metadata, a.hits[i].document))
  }

  /** The handler after the query: a detail saying that nothing matched is an empty answer,
      any other error or detail a 500, else the results and the query's metadata. */
  method Respond(g: Generated, e: Vector, a: QueryAnswer) returns (r: Answer<SearchResult>)
    ensures Answers(r, g, e, a)
  {
    var cost := 0.0 + g.cost + QueryEmbeddingCost;
    var whereObj := Restored(g.where, WithoutDecisionType(g.where));
    var hits := a.hits;
    if Failed(a) {
      if NothingMatched(a) {
        hits := [];
      } else {
        return ServerError(QueryFailedMessage);
      }
    }
    var results := ShapeResults(hits);
    r := Found(Some(QueryMetadata(|results|, g.text, whereObj, cost, e)), results);
  }

  /** The `/search` handler.  `generate` is `generateChromaQuery`, `embedQuery` the Cohere
      embedding of the text, `query` the collection's `query(embedding, n, where)`. */
  method Search(q: Value, n: Value, generate: string -> Result<Generated>, embedQuery: string -> Vector,
                query: (Vector, int, map<string, Value>) -> QueryAnswer) returns (r: Answer<SearchResult>)
    ensures QueryError(q).Some? ==> r == BadRequest(QueryError(q).value)
    ensures q.Str? && generate(q.s).Err? ==> r == ServerError(GenerateFailedMessage)
    ensures q.Str? && generate(q.s).Ok? ==>
              var g := generate(q.s).value;
              var e := embedQuery(g.text);
              Answers(r, g, e, query(e, IntOrDefault(n, DefaultResultCount), WithoutDecisionType(g.where)))
  {
    var count := IntOrDefault(n, DefaultResultCount);
    var problem := QueryError(q);
    if problem.Some? {
      return BadRequest(problem.value);
    }
    var generated := generate(q.s);
    if generated.Err? {
      return ServerError(GenerateFailedMessage);
    }
    var g := generated.value;
    var embedding := embedQuery(g.text);
    var answer := query(embedding, count, WithoutDecisionType(g.where));
    r := Respond(g, embedding, answer);
  }
}
