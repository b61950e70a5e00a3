/**
 * What the two `Decision` classes (the service's `api/src/decision.ts` and the command-line
 * pipeline's `src/decision.ts`) read from a decision object of the Diavgeia API when they
 * are constructed: fifteen metadata fields, eleven from the decision itself and four from
 * its `extraFieldValues`, and the document URL.
 */
module DecisionRecord {
  import opened Base
  import opened Js

  const AdaNotSetMessage := "Decision ADA not set"
  const TextNotLoadedMessage := "Document text not loaded"

  /** The fields destructured from the decision itself (the URL is kept apart). */
  const DecisionKeys: set<string> := {
    "protocolNumber", "subject", "issueDate", "organizationId", "signerIds", "unitIds",
    "decisionTypeId", "thematicCategoryIds", "ada", "publishTimestamp", "submissionTimestamp"}

  /** The fields destructured from `extraFieldValues`. */
  const ExtraKeys: set<string> := {"financialYear", "budgetType", "amountWithVAT", "amountWithKae"}

  /** What `_extractData` keeps: the metadata object and the document URL as given. */
  datatype Source = Source(metadata: map<string, Value>, documentUrl: Value)

  /** Destructuring `keys` out of a value that is neither `null` nor `undefined`. */
  function Fields(v: Value, keys: set<string>): (r: map<string, Value>)
    requires !v.Undefined? && !v.Null?
    ensures r.Keys == keys
    ensures forall k :: k in keys ==> Get(v, k) == Some(r[k])
  {
    map k | k in keys :: Get(v, k).value
  }

  /** `_extractData`: destructuring `null`/`undefined`, or an `extraFieldValues` that is
      one of them, is a TypeError. */
  function Extract(obj: Value): (r: Result<Source>)
    ensures r.Err? <==> obj.Undefined? || obj.Null? || Get(obj, "extraFieldValues").value.Undefined?
                                                      || Get(obj, "extraFieldValues").value.Null?
    ensures r.Err? ==> r.error == Error(TypeErrorMessage)
  {
    if obj.Undefined? || obj.Null? then Err(Error(TypeErrorMessage))
    else
      var extra := Get(obj, "extraFieldValues").value;
      if extra.Undefined? || extra.Null? then Err(Error(TypeErrorMessage))
      else Ok(Source(Fields(obj, DecisionKeys) + Fields(extra, ExtraKeys), Get(obj, "documentUrl").value))
  }

  /** The metadata holds exactly the fifteen fields, each with the value the decision (or
      its `extraFieldValues`) gave it, `undefined` when absent; the URL is the one given. */
  lemma ExtractedFields(obj: Value)
    requires Extract(obj).Ok?
    ensures var s := Extract(obj).value;
            var extra := Get(obj, "extraFieldValues").value;
            && s.metadata.Keys == DecisionKeys + ExtraKeys
            && (forall k :: k in DecisionKeys ==> s.metadata[k] == Get(obj, k).value)
            && (forall k :: k in ExtraKeys ==> s.metadata[k] == Get(extra, k).value)
            && Get(obj, "documentUrl") == Some(s.documentUrl)
  {
    assert DecisionKeys !! ExtraKeys;
  }

  /** The constructor: `_extractData`, then "Decision ADA not set" for a falsy `ada`. */
  function Admit(obj: Value): (r: Result<Source>)
    ensures r.Ok? <==> Extract(obj).Ok? && Truthy(Extract(obj).value.metadata["ada"])
    ensures Extract(obj).Ok? && r.Err? ==> r.error == Error(AdaNotSetMessage)
    ensures r.Ok? ==> r == Extract(obj)
  {
    match Extract(obj)
    case Err(e) => Err(e)
    case Ok(s) => if !Truthy(s.metadata["ada"]) then Err(Error(AdaNotSetMessage)) else Ok(s)
  }

  /** `this._metadata.subject`. */
  function Subject(metadata: map<string, Value>): Value
  {
    if "subject" in metadata then metadata["subject"] else Undefined
  }
}
