/**
 * What the two search servers over the Chroma collection share (`src/server.ts`, used by
 * the command-line pipeline, and the demo's `server.ts`): the validation of `q` and `n`,
 * the query the language model generates, the removal of `decisionType` from the filter
 * while the collection is queried, and the collection's answer.
 */
module ChromaSearch {
  import opened Base
  import opened Js
  import opened Vectors

  const DefaultResultCount := 25
  const MissingQueryMessage := "Missing query"
  const QueryNotStringMessage := "Query must be a string"
  const GenerateFailedMessage := "Failed to generate query"
  const QueryFailedMessage := "Failed to query"
  /** What `getQueryEmbedding` reports for one Cohere call. */
  const QueryEmbeddingCost: real := 1.0 / 1000.0

  /** `generateChromaQuery`'s value and cost: the text to embed and the metadata filter. */
  datatype Generated = Generated(text: string, where: map<string, Value>, cost: real)

  /** Entry i of the collection's answer: `ids[0][i]`, `distances[0][i]`,
      `metadatas[0][i]` and `documents[0][i]`. */
  datatype Hit = Hit(id: string, distance: real, metadata: map<string, Value>, document: Value)

  /** `decisions.query(...)`: the `error` and `detail` fields (an absent detail is `None`)
      and the hits. */
  datatype QueryAnswer = QueryAnswer(error: bool, detail: Option<string>, hits: seq<Hit>)

  /** `queryMetadata` of a successful search; the elapsed time is not modelled. */
  datatype QueryMetadata = QueryMetadata(resultCount: nat, semanticQuery: string,
                                         whereQuery: map<string, Value>, cost: real, queryEmbedding: Vector)

  /** The metadata a successful search reports for `count` results of the generated query
      `g` embedded as `e`: the filter with its decision type put back, and the generation's
      cost plus that of embedding the query. */
  predicate Reports(m: Option<QueryMetadata>, count: nat, g: Generated, e: Vector)
  {
    && m.Some? && m.value.resultCount == count && m.value.semanticQuery == g.text
    && m.value.whereQuery == Restored(g.where, WithoutDecisionType(g.where))
    && m.value.cost == g.cost + QueryEmbeddingCost && m.value.queryEmbedding == e
  }

  /** What a search answers: a 400 or a 500 with its message, or the results (the demo
      server answers `{results: []}` without metadata when nothing matched). */
  datatype Answer<R> =
    | BadRequest(message: string)
    | ServerError(message: string)
    | Found(queryMetadata: Option<QueryMetadata>, results: seq<R>)

  /** The 400 a query parameter gets, if any: a missing one first, then one that is not a
      string (a repeated parameter arrives as an array). */
  function QueryError(q: Value): (r: Option<string>)
    ensures r.None? <==> q.Str?
    ensures q.Undefined? ==> r == Some(MissingQueryMessage)
    ensures !q.Undefined? && !q.Str? ==> r == Some(QueryNotStringMessage)
  {
    if q.Undefined? then Some(MissingQueryMessage)
    else if !q.Str? then Some(QueryNotStringMessage)
    else None
  }

  const DecisionTypeKey := "decisionType"

  /** The filter the collection sees: `delete whereObj.decisionType`. */
  function WithoutDecisionType(where: map<string, Value>): (r: map<string, Value>)
    ensures DecisionTypeKey !in r
    ensures forall k :: k in where && k != DecisionTypeKey ==> k in r && r[k] == where[k]
    ensures r.Keys == where.Keys - {DecisionTypeKey}
  {
    where - {DecisionTypeKey}
  }

  /** `whereObj.decisionType = whereDecisionType` after the query: the value read before
      the deletion, `undefined` when there was none. */
  function Restored(where: map<string, Value>, removed: map<string, Value>): map<string, Value>
  {
    removed[DecisionTypeKey := if DecisionTypeKey in where then where[DecisionTypeKey] else Undefined]
  }

  /** Deleting and re-adding gives back the filter when it had a decision type, and adds
      only an `undefined` entry, which JSON leaves out, when it had none. */
  lemma DecisionTypeRestored(where: map<string, Value>)
    ensures DecisionTypeKey in where ==> Restored(where, WithoutDecisionType(where)) == where
    ensures DecisionTypeKey !in where ==>
              Restored(where, WithoutDecisionType(where)) == where[DecisionTypeKey := Undefined]
  {
  }
}
