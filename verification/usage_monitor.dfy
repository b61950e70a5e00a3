/**
 * The cost ledger shared by every call to a paid model: a running total in US dollars
 * that terminates the process once it is strictly above the ceiling.  The service
 * (`api/src/UsageMonitor.ts`) prices three models; the command-line pipeline
 * (`src/embeddingUsageMonitor.ts`) has the same class with a table of one model.
 */
module Ledger {
  import opened Base
  import opened Vectors

  /** Dollars per token, as each price table lists them. */
  const ServicePrices: map<string, real> := map[
    "text-embedding-ada-002" := 0.0004 / 1000.0,
    "multilingual-22-12" := 0.0002 / 1000.0,
    "text-davinci-003" := 0.06 / 1000.0]
  const PipelinePrices: map<string, real> := map["text-embedding-ada-002" := 0.0004 / 1000.0]

  /** The ceiling: `parseFloat` of a non-numeric setting is `NaN`, which no total exceeds. */
  datatype Ceiling = Limit(usd: real) | NotANumber

  predicate Exceeds(total: real, ceiling: Ceiling)
  {
    ceiling.Limit? && total > ceiling.usd
  }

  const DefaultCeilingUsd: real := 10.0

  /** The singleton's ceiling: `MAX_COST_USD` parsed when set and non-empty, else 10.
      `parseFloat` is a parameter; `None` is `NaN`. */
  function InitialCeiling(setting: Option<string>, parseFloat: string -> Option<real>): (c: Ceiling)
    ensures setting.None? || setting.value == "" ==> c == Limit(DefaultCeilingUsd)
    ensures setting.Some? && setting.value != "" && parseFloat(setting.value).None? ==> c == NotANumber
    ensures setting.Some? && setting.value != "" && parseFloat(setting.value).Some? ==>
              c == Limit(parseFloat(setting.value).value)
  {
    if setting.Some? && setting.value != "" then
      match parseFloat(setting.value)
      case Some(x) => Limit(x)
      case None => NotANumber
    else Limit(DefaultCeilingUsd)
  }

  /** A ceiling that failed to parse never stops the process, whatever is spent. */
  lemma NotANumberNeverExceeded(total: real)
    ensures !Exceeds(total, NotANumber)
  {
  }

  /** `EmbeddingUsageMonitor`.  `exited` stands for `process.exit(1)`: nothing runs after it,
      so every operation requires it to be unset. */
  class EmbeddingUsageMonitor {
    const maxCost: Ceiling
    const prices: map<string, real>
    var totalCost: real
    var exited: bool

    constructor(maxCost: Ceiling, prices: map<string, real>)
      ensures this.maxCost == maxCost && this.prices == prices
      ensures totalCost == 0.0 && !exited
    {
      this.maxCost := maxCost;
      this.prices := prices;
      totalCost := 0.0;
      exited := false;
    }

    /** `addCost`: the total grows by exactly the cost, and the process exits iff the new
        total is strictly above the ceiling. */
    method AddCost(cost: real)
      requires !exited
      modifies this`totalCost, this`exited
      ensures totalCost == old(totalCost) + cost
      ensures exited <==> Exceeds(totalCost, maxCost)
    {
      totalCost := totalCost + cost;
      if Exceeds(totalCost, maxCost) {
        exited := true;
      }
    }

    /** `addTokens`: an unpriced model is refused before anything is added. */
    method AddTokens(model: string, tokens: real) returns (r: Outcome)
      requires !exited
      modifies this`totalCost, this`exited
      ensures model !in prices ==> r == Fail(Error("Unknown model " + model))
      ensures model !in prices ==> totalCost == old(totalCost) && !exited
      ensures model in prices ==> r == Pass && totalCost == old(totalCost) + tokens * prices[model]
      ensures model in prices ==> (exited <==> Exceeds(totalCost, maxCost))
    {
      if model !in prices {
        return Fail(Error("Unknown model " + model));
      }
      AddCost(tokens * prices[model]);
      r := Pass;
    }

    /** The `totalCost` getter. */
    function TotalCost(): real
      reads this
    {
      totalCost
    }

    /** The `maxCost` getter. */
    function MaxCost(): Ceiling
      reads this
    {
      maxCost
    }
  }

  /** The command-line table prices only the ada embedding model. */
  lemma PipelineTableOnlyAda(model: string)
    ensures model in PipelinePrices <==> model == "text-embedding-ada-002"
    ensures model in PipelinePrices ==> PipelinePrices[model] == 0.0004 / 1000.0
  {
  }

  /** The flat charge for one Cohere embedding call. */
  const CohereCallCost: real := 0.001

  /** `ValueWithCost<number[]>`: the first embedding of the response, or `undefined`. */
  datatype Costed = Costed(cost: real, value: Option<Vector>)

  /** `generateCohereEmbedding`: the charge is made in `finally`, so a failed call costs
      the same as a successful one.  `embed(model, text)` stands for the Cohere client. */
  method GenerateCohereEmbedding(monitor: EmbeddingUsageMonitor, embed: (string, string) -> Result<seq<Vector>>,
                                 model: string, text: string) returns (r: Result<Costed>)
    requires !monitor.exited
    modifies monitor`totalCost, monitor`exited
    ensures monitor.totalCost == old(monitor.totalCost) + CohereCallCost
    ensures monitor.exited <==> Exceeds(monitor.totalCost, monitor.maxCost)
    ensures embed(model, text).Err? ==> r == Err(embed(model, text).error)
    ensures embed(model, text).Ok? ==>
              r == Ok(Costed(CohereCallCost, FirstEmbedding(embed(model, text).value)))
  {
    var response := embed(model, text);
    monitor.AddCost(CohereCallCost);
    match response
    case Err(e) =>
      r := Err(e);
    case Ok(embeddings) =>
      r := Ok(Costed(CohereCallCost, FirstEmbedding(embeddings)));
  }

  /** `embeddings[0]`, which is `undefined` for an empty response. */
  function FirstEmbedding(embeddings: seq<Vector>): Option<Vector>
  {
    if |embeddings| > 0 then Some(embeddings[0]) else None
  }
}
