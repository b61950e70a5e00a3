/**
 * The Diavgeia ingestor: it pages through the open-data search results for a query, keeps
 * at most `only` decisions when that parameter is set, fetches each organization, unit and
 * signer the first time one of its decisions mentions it, and saves the page.  The HTTP
 * API is a collaborator: `search` answers a search URL, `entity` answers the lookup of one
 * organization, unit or signer.
 */
module Ingestion {
  import opened Base
  import opened Strs
  import opened Js
  import opened Db
  import opened Tasks
  import opened DiavgeiaQueries

  const Implementation := "diavgeia-ingestor"
  const DiavgeiaPageSize: nat := 50
  const ParamsNotSetMessage := "Diavgeia ingestor params are not set"
  const MissingParamsMessage := "Missing required params: startDate, endDate, decisionTypes"

  /** The decision the ingestor extracts from one search result. */
  datatype Decision = Decision(
    ada: Value,
    documentUrl: Value,
    metadata: Value,
    organizationDiavgeiaId: Value,
    signerIds: Value,
    unitIds: Value)

  datatype EntityKind = OrganizationEntity | UnitEntity | SignerEntity

  /** The Diavgeia HTTP API.  `search(url)` and `entity(kind, id)` are the response bodies of
      `axios.get` (or its error); from page `pageCount` on, the results have run out. */
  datatype DiavgeiaApi = DiavgeiaApi(
    search: string -> Result<Value>,
    entity: (EntityKind, Value) -> Result<Value>,
    pageCount: nat)


  /** `obj.key` on an object already known to be neither null nor undefined. */
  function Field(obj: Value, key: string): Value
    requires !obj.Undefined? && !obj.Null?
  {
    Get(obj, key).value
  }

  // ---------------------------------------------------------------------------------
  // extractData

  function DefaultDocumentUrl(ada: Value): Value
  {
    Str("https://diavgeia.gov.gr/doc/" + ToString(ada))
  }

  const DecisionKeys := ["protocolNumber", "subject", "issueDate", "organizationId", "signerIds", "unitIds",
                         "decisionTypeId", "thematicCategoryIds", "ada", "publishTimestamp", "submissionTimestamp"]
  const ExtraKeys := ["financialYear", "budgetType", "amountWithVAT", "amountWithKae"]

  /** `{k1: src[k1], ...}` for the given keys. */
  function Pick(src: Value, keys: seq<string>): (m: map<string, Value>)
    requires !src.Undefined? && !src.Null?
    ensures forall k :: k in m <==> k in keys
    ensures forall k :: k in m ==> m[k] == Field(src, k)
  {
    if |keys| == 0 then map[] else Pick(src, keys[..|keys| - 1])[keys[|keys| - 1] := Field(src, keys[|keys| - 1])]
  }

  /** `extractData`: destructuring a null or undefined result, or one whose
      `extraFieldValues` is null or undefined, is a TypeError.  A falsy document URL is
      replaced by the decision's page on the Diavgeia site. */
  function ExtractData(obj: Value): (r: Result<Decision>)
    ensures r.Err? <==> obj.Undefined? || obj.Null? || Field(obj, "extraFieldValues").Undefined?
                        || Field(obj, "extraFieldValues").Null?
    ensures r.Ok? ==>
      && r.value.ada == Field(obj, "ada")
      && (Truthy(Field(obj, "documentUrl")) ==> r.value.documentUrl == Field(obj, "documentUrl"))
      && (!Truthy(Field(obj, "documentUrl")) ==> r.value.documentUrl == DefaultDocumentUrl(Field(obj, "ada")))
      && r.value.organizationDiavgeiaId == Field(obj, "organizationId")
      && r.value.signerIds == Field(obj, "signerIds")
      && r.value.unitIds == Field(obj, "unitIds")
  {
    if obj.Undefined? || obj.Null? then Err(Error(TypeErrorMessage))
    else
      var extra := Field(obj, "extraFieldValues");
      if extra.Undefined? || extra.Null? then Err(Error(TypeErrorMessage))
      else
        var ada := Field(obj, "ada");
        var url := Field(obj, "documentUrl");
        Ok(Decision(ada, if Truthy(url) then url else DefaultDocumentUrl(ada), Obj(Metadata(obj, extra)),
                    Field(obj, "organizationId"), Field(obj, "signerIds"), Field(obj, "unitIds")))
  }

  /** The metadata object: the decision's own fields and the four financial ones. */
  function Metadata(obj: Value, extra: Value): map<string, Value>
    requires !obj.Undefined? && !obj.Null? && !extra.Undefined? && !extra.Null?
  {
    Pick(obj, DecisionKeys) + Pick(extra, ExtraKeys)
  }

  lemma KeysDisjoint(k: string)
    requires k in ExtraKeys
    ensures k !in DecisionKeys
  {
  }

  /** The metadata holds each of the fifteen fields, copied from where the decision keeps it. */
  lemma MetadataFields(obj: Value)
    requires ExtractData(obj).Ok?
    ensures var m := ExtractData(obj).value.metadata;
      && m.Obj?
      && (forall k :: k in m.fields <==> k in DecisionKeys || k in ExtraKeys)
      && (forall k :: k in DecisionKeys ==> m.fields[k] == Field(obj, k))
      && (forall k :: k in ExtraKeys ==> m.fields[k] == Field(Field(obj, "extraFieldValues"), k))
  {
    var extra := Field(obj, "extraFieldValues");
    var m := Metadata(obj, extra);
    forall k | k in DecisionKeys ensures m[k] == Field(obj, k) {
      if k in ExtraKeys { KeysDisjoint(k); }
    }
  }

  /** `items.map(f)` for an `f` that may throw: the first failure is the one thrown. */
  function MapAll<T>(f: Value -> Result<T>, items: seq<Value>): (r: Result<seq<T>>)
    ensures r.Ok? <==> forall i :: 0 <= i < |items| ==> f(items[i]).Ok?
    ensures r.Ok? ==> |r.value| == |items| && forall i :: 0 <= i < |items| ==> Ok(r.value[i]) == f(items[i])
  {
    if |items| == 0 then Ok([])
    else
      match f(items[0])
      case Err(e) => Err(e)
      case Ok(d) =>
        match MapAll(f, items[1..])
        case Err(e) => Err(e)
        case Ok(ds) =>
          assert forall i :: 1 <= i < |items| ==> items[i] == items[1..][i - 1];
          Ok([d] + ds)
  }

  /** The error thrown is that of the first item `f` fails on. */
  lemma {:induction false} MapAllFirstFailure<T>(f: Value -> Result<T>, items: seq<Value>)
    requires MapAll(f, items).Err?
    ensures exists i :: 0 <= i < |items| && f(items[i]) == Err(MapAll(f, items).error)
                        && forall j :: 0 <= j < i ==> f(items[j]).Ok?
  {
    if f(items[0]).Err? {
      assert f(items[0]) == Err(MapAll(f, items).error);
    } else {
      MapAllFirstFailure(f, items[1..]);
      var i :| 0 <= i < |items| - 1 && f(items[1..][i]) == Err(MapAll(f, items[1..]).error)
                && forall j :: 0 <= j < i ==> f(items[1..][j]).Ok?;
      assert items[1..][i] == items[i + 1];
      forall j | 0 <= j < i + 1 ensures f(items[j]).Ok? {
        if j > 0 { assert items[j] == items[1..][j - 1]; }
      }
    }
  }

  /** `items.map(extractData)`. */
  function ExtractAll(items: seq<Value>): Result<seq<Decision>>
  {
    MapAll(ExtractData, items)
  }

  /** `fetchDiavgeiaPage`: the response's `decisions` list, each extracted. */
  function PageDecisions(response: Result<Value>): Result<seq<Decision>>
  {
    match response
    case Err(e) => Err(e)
    case Ok(data) =>
      match Get(data, "decisions")
      case None => Err(Error(TypeErrorMessage))
      case Some(list) => if list.Arr? then ExtractAll(list.items) else Err(Error(TypeErrorMessage))
  }

  /** `getTotalDecisionCount`: `response.data.info.total` of a one-result search. */
  function TotalOf(response: Result<Value>): Result<Value>
  {
    match response
    case Err(e) => Err(e)
    case Ok(data) =>
      match Get(data, "info")
      case None => Err(Error(TypeErrorMessage))
      case Some(info) =>
        match Get(info, "total")
        case None => Err(Error(TypeErrorMessage))
        case Some(total) => Ok(total)
  }

  // ---------------------------------------------------------------------------------
  // Parameters

  /** The check at the start of `run`: params must be set, then each required one truthy. */
  function CheckParams(params: Value): (r: Outcome)
    ensures !Truthy(params) ==> r == Fail(Error(ParamsNotSetMessage))
    ensures Truthy(params) ==>
      (r == Pass <==> Truthy(Field(params, "startDate")) && Truthy(Field(params, "endDate"))
                      && Truthy(Field(params, "decisionTypes")))
    ensures Truthy(params) && r.Fail? ==> r == Fail(Error(MissingParamsMessage))
  {
    if !Truthy(params) then Fail(Error(ParamsNotSetMessage))
    else if !Truthy(Field(params, "startDate")) || !Truthy(Field(params, "endDate"))
            || !Truthy(Field(params, "decisionTypes")) then Fail(Error(MissingParamsMessage))
    else Pass
  }

  /** The query of the run: `decisionTypes.split(",")` (a TypeError for a non-string) and the
      two `DT(...)` bounds. */
  function IngestQuery(params: Value): (r: Result<DiavgeiaQuery>)
    requires Truthy(params)
    ensures r.Ok? <==> Field(params, "decisionTypes").Str?
    ensures r.Ok? ==> r.value == DiavgeiaQuery(Split(Field(params, "decisionTypes").s, ","),
                                   (IssueDateBound(ToString(Field(params, "startDate"))),
                                    IssueDateBound(ToString(Field(params, "endDate")))))
  {
    var types := Field(params, "decisionTypes");
    if !types.Str? then Err(Error(TypeErrorMessage))
    else Ok(DiavgeiaQuery(Split(types.s, ","),
                          (IssueDateBound(ToString(Field(params, "startDate"))),
                           IssueDateBound(ToString(Field(params, "endDate"))))))
  }

  /** `params.only` as the cap uses it: a falsy value sets no cap; a truthy one is coerced
      to a number by `>` and `-` (`true` is 1, a numeric string its value), and one that
      coerces to `NaN` sets no cap either. */
  function OnlyCap(params: Value): (r: Option<int>)
    requires Truthy(params)
    ensures !Truthy(Field(params, "only")) ==> r.None?
    ensures Field(params, "only").Num? && Field(params, "only").n != 0 ==> r == Some(Field(params, "only").n)
  {
    var only := Field(params, "only");
    if !Truthy(only) then None else ToNumber(only)
  }

  /** A numeric string caps the run like the number it spells, even with whitespace around
      it; a blank but non-empty string caps it at 0. */
  lemma OnlyNumericString(params: Value, n: int, before: string, after: string)
    requires Truthy(params) && AllSpace(before) && AllSpace(after)
    ensures Field(params, "only") == Str(before + IntToString(n) + after) ==> OnlyCap(params) == Some(n)
    ensures Field(params, "only") == Str(before) && before != "" ==> OnlyCap(params) == Some(0)
  {
    ToNumberRoundTrip(n, before, after);
  }

  /** The number of decisions page `page` keeps.  Without a cap it is the page size; with one
      it is what is left of the cap, between 0 and the page size. */
  function PageLimit(only: Option<int>, page: nat): (n: nat)
    ensures n <= DiavgeiaPageSize
    ensures only.None? ==> n == DiavgeiaPageSize
    ensures only.Some? ==> n == Min(DiavgeiaPageSize, Max(0, only.value - page * DiavgeiaPageSize))
  {
    if only.Some? && (page + 1) * DiavgeiaPageSize > only.value then
      Max(0, only.value - page * DiavgeiaPageSize)
    else DiavgeiaPageSize
  }

  function PageResponse(api: DiavgeiaApi, q: DiavgeiaQuery, page: nat): Result<Value>
  {
    api.search(SearchUrl(q, page, DiavgeiaPageSize))
  }

  /** The decisions of each page of one search, as `fetchDiavgeiaPage` returns them. */
  type PageSource = nat -> Result<seq<Decision>>

  /** The pages of the search `q`. */
  function Pages(api: DiavgeiaApi, q: DiavgeiaQuery): PageSource
  {
    (page: nat) => PageDecisions(PageResponse(api, q, page))
  }

  /** The decisions page `page` contributes; `Ok([])` ends the run. A page whose limit is 0
      is not even requested. */
  function KeptPage(source: PageSource, only: Option<int>, page: nat): (r: Result<seq<Decision>>)
    ensures r.Ok? ==> |r.value| <= PageLimit(only, page)
    ensures PageLimit(only, page) == 0 ==> r == Ok([])
  {
    var limit := PageLimit(only, page);
    if limit == 0 then Ok([])
    else
      match source(page)
      case Err(e) => Err(e)
      case Ok(ds) => Ok(ds[..Min(limit, |ds|)])
  }

  /** A search response whose `decisions` list is empty. */
  predicate NoDecisions(response: Result<Value>)
  {
    response.Ok? && Get(response.value, "decisions") == Some(Arr([]))
  }

  /** A page yields no decisions exactly when its response lists none. */
  lemma NoDecisionsEmpty(response: Result<Value>)
    ensures PageDecisions(response) == Ok([]) <==> NoDecisions(response)
  {
    if PageDecisions(response) == Ok([]) {
      var list := Get(response.value, "decisions").value;
      assert |ExtractAll(list.items).value| == |list.items| == 0;
      assert list.items == [];
    }
  }

  /** The search results of every query run out at `pageCount`. */
  ghost predicate Finite(api: DiavgeiaApi)
  {
    forall q: DiavgeiaQuery, p: nat {:trigger PageResponse(api, q, p)} ::
      p >= api.pageCount ==> NoDecisions(PageResponse(api, q, p))
  }

  /** The pages run out at `pageCount`. */
  ghost predicate Exhausted(api: DiavgeiaApi, source: PageSource)
  {
    forall p: nat {:trigger source(p)} :: p >= api.pageCount ==> source(p) == Ok([])
  }

  lemma FinitePages(api: DiavgeiaApi, q: DiavgeiaQuery)
    requires Finite(api)
    ensures Exhausted(api, Pages(api, q))
  {
    forall p: nat | p >= api.pageCount ensures Pages(api, q)(p) == Ok([]) {
      NoDecisionsEmpty(PageResponse(api, q, p));
    }
  }

  // ---------------------------------------------------------------------------------
  // Seen ids: a JavaScript `Set` is a sequence without repetitions, in insertion order.

  predicate NoDup(s: seq<Value>)
  {
    forall i, j :: 0 <= i < j < |s| ==> s[i] != s[j]
  }

  /** `xs.forEach(x => s.add(x))`. */
  function AddAll(s: seq<Value>, xs: seq<Value>): (r: seq<Value>)
    ensures NoDup(s) ==> NoDup(r)
    ensures forall x :: x in r <==> x in s || x in xs
    ensures s <= r
    decreases |xs|
  {
    if |xs| == 0 then s
    else AddAll(if xs[0] in s then s else s + [xs[0]], xs[1..])
  }

  /** `difference(a, b)`: the members of `a` not in `b`, in `a`'s order. */
  function Difference(a: seq<Value>, b: seq<Value>): (r: seq<Value>)
    ensures forall x :: x in r <==> x in a && x !in b
    ensures NoDup(a) ==> NoDup(r)
  {
    if |a| == 0 then []
    else
      assert forall x :: x in a[1..] ==> x in a;
      (if a[0] in b then [] else [a[0]]) + Difference(a[1..], b)
  }

  /** Adding members none of which is already there, and none twice, appends them. */
  lemma {:induction false} AddAllDisjoint(s: seq<Value>, xs: seq<Value>)
    requires NoDup(xs) && forall i :: 0 <= i < |xs| ==> xs[i] !in s
    ensures AddAll(s, xs) == s + xs
    decreases |xs|
  {
    if |xs| > 0 {
      AddAllFresh(s, xs);
      DisjointTail(s, xs);
      AddAllDisjoint(s + [xs[0]], xs[1..]);
      AppendFirst(s, xs);
    }
  }

  /** A first member not yet there is appended before the rest is added. */
  lemma AddAllFresh(s: seq<Value>, xs: seq<Value>)
    requires |xs| > 0 && xs[0] !in s
    ensures AddAll(s, xs) == AddAll(s + [xs[0]], xs[1..])
  {
  }

  lemma AppendFirst(s: seq<Value>, xs: seq<Value>)
    requires |xs| > 0
    ensures s + [xs[0]] + xs[1..] == s + xs
  {
    assert xs == [xs[0]] + xs[1..];
  }

  /** The step of `AddAllDisjoint`: what is left to add is still new once the first member
      is added. */
  lemma DisjointTail(s: seq<Value>, xs: seq<Value>)
    requires |xs| > 0 && NoDup(xs) && forall i :: 0 <= i < |xs| ==> xs[i] !in s
    ensures NoDup(xs[1..]) && forall i :: 0 <= i < |xs| - 1 ==> xs[1..][i] !in s + [xs[0]]
  {
    var rest := xs[1..];
    forall i | 0 <= i < |rest| ensures rest[i] !in s + [xs[0]] {
      assert rest[i] == xs[i + 1];
    }
    forall i, j | 0 <= i < j < |rest| ensures rest[i] != rest[j] {
      assert rest[i] == xs[i + 1] && rest[j] == xs[j + 1];
    }
  }

  /** The ids of one decision: its organization, or the elements of its signer or unit list
      (`flat()` keeps a value that is not an array as it is). */
  function IdsOf(kind: EntityKind, d: Decision): seq<Value>
  {
    var v := match kind
      case OrganizationEntity => d.organizationDiavgeiaId
      case UnitEntity => d.unitIds
      case SignerEntity => d.signerIds;
    if kind.OrganizationEntity? then [v] else if v.Arr? then v.items else [v]
  }

  /** The ids a page's decisions mention, in order, with repetitions. */
  function BatchIds(kind: EntityKind, ds: seq<Decision>): seq<Value>
  {
    if |ds| == 0 then [] else IdsOf(kind, ds[0]) + BatchIds(kind, ds[1..])
  }

  lemma {:induction false} BatchIdsAppend(kind: EntityKind, a: seq<Decision>, b: seq<Decision>)
    ensures BatchIds(kind, a + b) == BatchIds(kind, a) + BatchIds(kind, b)
  {
    if |a| == 0 {
      assert a + b == b;
    } else {
      assert (a + b)[1..] == a[1..] + b;
      BatchIdsAppend(kind, a[1..], b);
    }
  }

  datatype Seen = Seen(organizations: seq<Value>, units: seq<Value>, signers: seq<Value>)
  {
    function Of(kind: EntityKind): seq<Value>
    {
      match kind
      case OrganizationEntity => organizations
      case UnitEntity => units
      case SignerEntity => signers
    }
  }

  /** The ids of a page of one kind that have not been seen: `difference(batch, seen)`. */
  function NewOf(seen: Seen, ds: seq<Decision>, kind: EntityKind): (r: seq<Value>)
    ensures forall x :: x in r <==> x in BatchIds(kind, ds) && x !in seen.Of(kind)
    ensures NoDup(r)
  {
    Difference(AddAll([], BatchIds(kind, ds)), seen.Of(kind))
  }

  function NewIds(seen: Seen, ds: seq<Decision>): (r: Seen)
  {
    Seen(NewOf(seen, ds, OrganizationEntity), NewOf(seen, ds, UnitEntity), NewOf(seen, ds, SignerEntity))
  }

  /** `seen.add(id)` for each new id: the new ids are appended. */
  function Grow(seen: Seen, added: Seen): Seen
  {
    Seen(seen.organizations + added.organizations, seen.units + added.units, seen.signers + added.signers)
  }

  // ---------------------------------------------------------------------------------
  // Entities

  /** The record built from one lookup response; a null or undefined body is a TypeError. */
  function EntityRecord(kind: EntityKind, data: Value): Result<Value>
  {
    if data.Undefined? || data.Null? then Err(Error(TypeErrorMessage))
    else
      var common := map["diavgeiaId" := Field(data, "uid"), "rawData" := data];
      match kind
      case OrganizationEntity =>
        Ok(Obj(common + map["name" := Field(data, "label"), "category" := Field(data, "category"),
                            "vatNumber" := Field(data, "vatNumber")]))
      case UnitEntity =>
        Ok(Obj(common + map["name" := Field(data, "label"), "category" := Field(data, "category")]))
      case SignerEntity =>
        Ok(Obj(common + map["firstName" := Field(data, "firstName"), "lastName" := Field(data, "lastName"),
                            "organizationId" := Field(data, "organizationId")]))
  }

  function FetchEntity(api: DiavgeiaApi, kind: EntityKind, id: Value): Result<Value>
  {
    match api.entity(kind, id)
    case Err(e) => Err(e)
    case Ok(data) => EntityRecord(kind, data)
  }

  /** `fetchOrganizations` / `fetchUnits` / `fetchSigners`: one lookup per id, and the
      first failure in id order is the one thrown. */
  function FetchEntities(api: DiavgeiaApi, kind: EntityKind, ids: seq<Value>): (r: Result<seq<Value>>)
    ensures r.Ok? <==> forall i :: 0 <= i < |ids| ==> FetchEntity(api, kind, ids[i]).Ok?
    ensures r.Ok? ==> FetchedAll(api, kind, ids, r.value)
  {
    if |ids| == 0 then Ok([])
    else
      match FetchEntity(api, kind, ids[0])
      case Err(e) => Err(e)
      case Ok(x) =>
        match FetchEntities(api, kind, ids[1..])
        case Err(e) => Err(e)
        case Ok(xs) =>
          assert forall i :: 1 <= i < |ids| ==> ids[i] == ids[1..][i - 1];
          Ok([x] + xs)
  }

  /** `records` are the records fetched for `ids`, one per id, in order. */
  predicate FetchedAll(api: DiavgeiaApi, kind: EntityKind, ids: seq<Value>, records: seq<Value>)
  {
    |records| == |ids| && forall i :: 0 <= i < |ids| ==> FetchEntity(api, kind, ids[i]) == Ok(records[i])
  }

  lemma FetchedAllAppend(api: DiavgeiaApi, kind: EntityKind, a: seq<Value>, ra: seq<Value>, b: seq<Value>, rb: seq<Value>)
    requires FetchedAll(api, kind, a, ra) && FetchedAll(api, kind, b, rb)
    ensures FetchedAll(api, kind, a + b, ra + rb)
  {
    forall i | 0 <= i < |a + b| ensures FetchEntity(api, kind, (a + b)[i]) == Ok((ra + rb)[i]) {
      if i >= |a| {
        assert (a + b)[i] == b[i - |a|] && (ra + rb)[i] == rb[i - |a|];
      }
    }
  }

  /** The three lookups of a page, organizations first, then units, then signers. */
  function FetchNew(api: DiavgeiaApi, added: Seen): (r: Result<Seen>)
    ensures r.Ok? <==> && FetchEntities(api, OrganizationEntity, added.organizations).Ok?
                       && FetchEntities(api, UnitEntity, added.units).Ok?
                       && FetchEntities(api, SignerEntity, added.signers).Ok?
    ensures r.Ok? ==> && FetchedAll(api, OrganizationEntity, added.organizations, r.value.organizations)
                      && FetchedAll(api, UnitEntity, added.units, r.value.units)
                      && FetchedAll(api, SignerEntity, added.signers, r.value.signers)
  {
    match FetchEntities(api, OrganizationEntity, added.organizations)
    case Err(e) => Err(e)
    case Ok(organizations) =>
      match FetchEntities(api, UnitEntity, added.units)
      case Err(e) => Err(e)
      case Ok(units) =>
        match FetchEntities(api, SignerEntity, added.signers)
        case Err(e) => Err(e)
        case Ok(signers) => Ok(Seen(organizations, units, signers))
  }

  // ---------------------------------------------------------------------------------
  // Saving

  /** The rows `saveDecisions` inserts for a list of decisions. */
  function DecisionRows(taskId: nat, ds: seq<Decision>): (r: seq<DecisionRow>)
    ensures |r| == |ds|
    ensures forall i :: 0 <= i < |ds| ==>
      r[i] == DecisionRow(taskId, ds[i].ada, ds[i].documentUrl, ds[i].metadata)
  {
    if |ds| == 0 then []
    else [DecisionRow(taskId, ds[0].ada, ds[0].documentUrl, ds[0].metadata)] + DecisionRows(taskId, ds[1..])
  }

  lemma DecisionRowsAppend(taskId: nat, a: seq<Decision>, b: seq<Decision>)
    ensures DecisionRows(taskId, a + b) == DecisionRows(taskId, a) + DecisionRows(taskId, b)
  {
    assert forall i :: 0 <= i < |a + b| ==>
      DecisionRows(taskId, a + b)[i] == (DecisionRows(taskId, a) + DecisionRows(taskId, b))[i];
  }

  /** `saveDecisions`: one INSERT per decision, in order, tagged with the task's id. */
  method SaveDecisions(db: Database, taskId: nat, decisions: seq<Decision>)
    modifies db`decisions
    ensures db.decisions == old(db.decisions) + DecisionRows(taskId, decisions)
  {
    var i := 0;
    while i < |decisions|
      invariant 0 <= i <= |decisions|
      invariant db.decisions == old(db.decisions) + DecisionRows(taskId, decisions[..i])
    {
      var d := decisions[i];
      db.decisions := db.decisions + [DecisionRow(taskId, d.ada, d.documentUrl, d.metadata)];
      DecisionRowsAppend(taskId, decisions[..i], [d]);
      assert decisions[..i + 1] == decisions[..i] + [d];
      i := i + 1;
    }
    assert decisions[..i] == decisions;
  }

  /** `saveAll`, whose body is not part of this model: it saves the page's decisions as
      `saveDecisions` does and appends the fetched entities. */
  method SaveAll(db: Database, taskId: nat, decisions: seq<Decision>, entities: Seen)
    modifies db`decisions, db`organizations, db`units, db`signers
    ensures db.decisions == old(db.decisions) + DecisionRows(taskId, decisions)
    ensures db.organizations == old(db.organizations) + entities.organizations
    ensures db.units == old(db.units) + entities.units
    ensures db.signers == old(db.signers) + entities.signers
  {
    SaveDecisions(db, taskId, decisions);
    db.organizations := db.organizations + entities.organizations;
    db.units := db.units + entities.units;
    db.signers := db.signers + entities.signers;
  }

  /** The metrics reported after page `page`. */
  function IngestMetrics(page: nat, kept: nat, seen: Seen, total: Value): Value
  {
    Obj(map[
      "decisions_processed" := Num(kept + page * DiavgeiaPageSize),
      "organizations_processed" := Num(|seen.organizations|),
      "units_processed" := Num(|seen.units|),
      "signers_processed" := Num(|seen.signers|),
      "decisions_total" := total])
  }

  // ---------------------------------------------------------------------------------
  // The run

  function Concat(pages: seq<seq<Decision>>): seq<Decision>
  {
    if |pages| == 0 then [] else Concat(pages[..|pages| - 1]) + pages[|pages| - 1]
  }

  /** The ids remembered after the given pages were saved. */
  function SeenAfter(pages: seq<seq<Decision>>): Seen
  {
    if |pages| == 0 then Seen([], [], [])
    else
      var before := SeenAfter(pages[..|pages| - 1]);
      Grow(before, NewIds(before, pages[|pages| - 1]))
  }

  /** How one iteration of the page loop ends. */
  datatype PageStep = PageSaved(kept: seq<Decision>, added: Seen) | NoMoreDecisions | PageFailed(error: Error)

  /** What one iteration of the page loop does before it writes anything: the cap, the
      page, the new ids and their lookups. */
  function PlanPage(api: DiavgeiaApi, source: PageSource, only: Option<int>, page: nat, seen: Seen): (step: PageStep)
    ensures step.PageSaved? ==>
      && KeptPage(source, only, page) == Ok(step.kept) && |step.kept| > 0
      && step.added == NewIds(seen, step.kept) && FetchNew(api, step.added).Ok?
  {
    var limit := PageLimit(only, page);
    if limit == 0 then NoMoreDecisions
    else
      match source(page)
      case Err(e) => PageFailed(e)
      case Ok(ds) =>
        var decisions := ds[..Min(limit, |ds|)];
        if |decisions| == 0 then NoMoreDecisions
        else
          var added := NewIds(seen, decisions);
          match FetchNew(api, added)
          case Err(e) => PageFailed(e)
          case Ok(_) => PageSaved(decisions, added)
  }

  /** The plan of a page, case by case: a page that cannot be read or whose entities cannot
      be looked up fails the run, an empty one ends it, and any other is saved. */
  lemma PlanPageCases(api: DiavgeiaApi, source: PageSource, only: Option<int>, page: nat, seen: Seen)
    ensures var plan := PlanPage(api, source, only, page, seen);
      var kept := KeptPage(source, only, page);
      && (kept.Err? ==> plan == PageFailed(kept.error))
      && (kept == Ok([]) ==> plan == NoMoreDecisions)
      && (kept.Ok? && |kept.value| > 0 ==>
            var added := NewIds(seen, kept.value);
            && (FetchNew(api, added).Err? ==> plan == PageFailed(FetchNew(api, added).error))
            && (FetchNew(api, added).Ok? ==> plan == PageSaved(kept.value, added)))
  {
  }

  /** The second half of an iteration: save the page and its new entities, then report. */
  method SavePage(task: Task, kept: seq<Decision>, records: Seen, metrics: Value)
    requires task.Synced()
    modifies task`metrics, task`updatedAt, task`id, task.db`tasks, task.db`taskSerial, task.db`clock
    modifies task.db`decisions, task.db`organizations, task.db`units, task.db`signers
    ensures task.Synced() && task.id == old(task.id) && task.metrics == metrics
    ensures task.db.decisions == old(task.db.decisions) + DecisionRows(task.id.value, kept)
    ensures task.db.organizations == old(task.db.organizations) + records.organizations
    ensures task.db.units == old(task.db.units) + records.units
    ensures task.db.signers == old(task.db.signers) + records.signers
  {
    SaveAll(task.db, task.id.value, kept, records);
    SyncedKept(task);
    task.UpdateMetrics(metrics);
  }

  /** The pages a run saved, in order: each is what the loop planned for its index, given
      the ids the earlier pages left behind. */
  ghost predicate SavedPages(api: DiavgeiaApi, source: PageSource, only: Option<int>, pages: seq<seq<Decision>>)
  {
    |pages| == 0 ||
      (var before := pages[..|pages| - 1];
       && SavedPages(api, source, only, before)
       && PlanPage(api, source, only, |pages| - 1, SeenAfter(before))
          == PageSaved(pages[|pages| - 1], NewIds(SeenAfter(before), pages[|pages| - 1])))
  }

  /** Parameters the run gets past its checks with. */
  predicate RunnableParams(params: Value)
  {
    CheckParams(params) == Pass && Field(params, "decisionTypes").Str?
  }

  /** The error a run throws for parameters it cannot run with. */
  function ParamsError(params: Value): Error
  {
    if CheckParams(params).Fail? then CheckParams(params).error else Error(TypeErrorMessage)
  }

  function TotalResponse(api: DiavgeiaApi, q: DiavgeiaQuery): Result<Value>
  {
    api.search(SearchUrl(q, 0, 1))
  }

  /** `table` is `before` followed by one fetched record per id of `ids`, in order. */
  ghost predicate EntitiesAppended(api: DiavgeiaApi, kind: EntityKind, before: seq<Value>, table: seq<Value>, ids: seq<Value>)
  {
    |before| <= |table| && table[..|before|] == before && FetchedAll(api, kind, ids, table[|before|..])
  }

  lemma AppendEntities(api: DiavgeiaApi, kind: EntityKind, before: seq<Value>, table: seq<Value>, ids: seq<Value>,
                       added: seq<Value>, records: seq<Value>)
    requires EntitiesAppended(api, kind, before, table, ids)
    requires FetchedAll(api, kind, added, records)
    ensures EntitiesAppended(api, kind, before, table + records, ids + added)
  {
    assert (table + records)[|before|..] == table[|before|..] + records;
    assert (table + records)[..|before|] == table[..|before|];
    FetchedAllAppend(api, kind, ids, table[|before|..], added, records);
  }

  /** The four tables the ingestor writes. */
  datatype Tables = Tables(decisions: seq<DecisionRow>, organizations: seq<Value>, units: seq<Value>, signers: seq<Value>)

  function TablesOf(db: Database): Tables
    reads db`decisions, db`organizations, db`units, db`signers
  {
    Tables(db.decisions, db.organizations, db.units, db.signers)
  }

  /** Where a run stands after saving `pages`, starting from tables `start` and metrics
      `startMetrics`: the decisions of the pages follow the old rows, each entity table
      gained one fetched record per remembered id, and the metrics describe the last page. */
  ghost predicate Progress(api: DiavgeiaApi, source: PageSource, only: Option<int>, total: Value, taskId: nat,
                           start: Tables, startMetrics: Value, pages: seq<seq<Decision>>, now: Tables, metrics: Value)
  {
    var seen := SeenAfter(pages);
    && SavedPages(api, source, only, pages)
    && now.decisions == start.decisions + DecisionRows(taskId, Concat(pages))
    && EntitiesAppended(api, OrganizationEntity, start.organizations, now.organizations, seen.organizations)
    && EntitiesAppended(api, UnitEntity, start.units, now.units, seen.units)
    && EntitiesAppended(api, SignerEntity, start.signers, now.signers, seen.signers)
    && (|pages| == 0 ==> metrics == startMetrics)
    && (|pages| > 0 ==> metrics == IngestMetrics(|pages| - 1, |pages[|pages| - 1]|, seen, total))
  }

  lemma ProgressStep(api: DiavgeiaApi, source: PageSource, only: Option<int>, total: Value, taskId: nat,
                     start: Tables, startMetrics: Value, pages: seq<seq<Decision>>, now: Tables, metrics: Value,
                     kept: seq<Decision>, added: Seen, records: Seen)
    requires Progress(api, source, only, total, taskId, start, startMetrics, pages, now, metrics)
    requires PlanPage(api, source, only, |pages|, SeenAfter(pages)) == PageSaved(kept, added)
    requires FetchNew(api, added) == Ok(records)
    ensures Progress(api, source, only, total, taskId, start, startMetrics, pages + [kept],
                     Tables(now.decisions + DecisionRows(taskId, kept), now.organizations + records.organizations,
                            now.units + records.units, now.signers + records.signers),
                     IngestMetrics(|pages|, |kept|, Grow(SeenAfter(pages), added), total))
  {
    var seen := SeenAfter(pages);
    SavedStep(api, source, only, pages, kept, added);
    DecisionsStep(taskId, start.decisions, now.decisions, pages, kept);
    AppendEntities(api, OrganizationEntity, start.organizations, now.organizations, seen.organizations,
                   added.organizations, records.organizations);
    AppendEntities(api, UnitEntity, start.units, now.units, seen.units, added.units, records.units);
    AppendEntities(api, SignerEntity, start.signers, now.signers, seen.signers, added.signers, records.signers);
  }

  lemma SavedStep(api: DiavgeiaApi, source: PageSource, only: Option<int>, pages: seq<seq<Decision>>,
                  kept: seq<Decision>, added: Seen)
    requires SavedPages(api, source, only, pages)
    requires PlanPage(api, source, only, |pages|, SeenAfter(pages)) == PageSaved(kept, added)
    ensures SavedPages(api, source, only, pages + [kept])
    ensures SeenAfter(pages + [kept]) == Grow(SeenAfter(pages), added)
    ensures (pages + [kept])[|pages|] == kept
  {
    var pages' := pages + [kept];
    assert pages'[..|pages'| - 1] == pages;
  }

  lemma DecisionsStep(taskId: nat, start: seq<DecisionRow>, now: seq<DecisionRow>, pages: seq<seq<Decision>>,
                      kept: seq<Decision>)
    requires now == start + DecisionRows(taskId, Concat(pages))
    ensures now + DecisionRows(taskId, kept) == start + DecisionRows(taskId, Concat(pages + [kept]))
  {
    var pages' := pages + [kept];
    assert pages'[..|pages'| - 1] == pages;
    assert Concat(pages') == Concat(pages) + kept;
    DecisionRowsAppend(taskId, Concat(pages), kept);
    var rows, more := DecisionRows(taskId, Concat(pages)), DecisionRows(taskId, kept);
    SeqAssoc(start, rows, more);
  }

  /** The page loop of `run`: it saves a sequence of planned pages and ends on the plan of
      the next index, which has no more decisions or fails with the error thrown. */
  method RunPages(task: Task, api: DiavgeiaApi, source: PageSource, only: Option<int>, total: Value)
      returns (o: RunOutcome, ghost pages: seq<seq<Decision>>)
    requires task.Synced() && Exhausted(api, source)
    modifies task`metrics, task`updatedAt, task`id, task.db`tasks, task.db`taskSerial, task.db`clock
    modifies task.db`decisions, task.db`organizations, task.db`units, task.db`signers
    ensures task.Synced() && task.id == old(task.id) && !o.Exited?
    ensures Progress(api, source, only, total, task.id.value, old(TablesOf(task.db)), old(task.metrics), pages,
                     TablesOf(task.db), task.metrics)
    ensures o.Returned? ==> PlanPage(api, source, only, |pages|, SeenAfter(pages)) == NoMoreDecisions
    ensures o.Threw? ==> PlanPage(api, source, only, |pages|, SeenAfter(pages)) == PageFailed(o.error)
  {
    pages := [];
    var seen := Seen([], [], []);
    var page: nat := 0;
    ghost var start, startMetrics := TablesOf(task.db), task.metrics;
    ProgressStart(api, source, only, total, task.id.value, start, startMetrics);
    while true
      invariant task.Synced() && task.id == old(task.id)
      invariant page == |pages| <= api.pageCount
      invariant seen == SeenAfter(pages)
      invariant Progress(api, source, only, total, task.id.value, start, startMetrics, pages, TablesOf(task.db), task.metrics)
      invariant start == old(TablesOf(task.db)) && startMetrics == old(task.metrics)
      decreases api.pageCount - page
    {
      var step := PlanPage(api, source, only, page, seen);
      if step.NoMoreDecisions? {
        return Returned, pages;
      } else if step.PageFailed? {
        return Threw(step.error), pages;
      }
      SavedBeforeEnd(api, source, only, page, seen);
      seen := StorePage(task, api, source, only, total, page, step.kept, step.added, seen, pages, start, startMetrics);
      pages := pages + [step.kept];
      page := page + 1;
    }
  }

  lemma ProgressStart(api: DiavgeiaApi, source: PageSource, only: Option<int>, total: Value, taskId: nat,
                      start: Tables, startMetrics: Value)
    ensures Progress(api, source, only, total, taskId, start, startMetrics, [], start, startMetrics)
  {
    assert start.decisions + DecisionRows(taskId, Concat([])) == start.decisions;
  }

  /** A page past the last one has no decisions, so only an earlier page is saved. */
  lemma SavedBeforeEnd(api: DiavgeiaApi, source: PageSource, only: Option<int>, page: nat, seen: Seen)
    requires Exhausted(api, source) && PlanPage(api, source, only, page, seen).PageSaved?
    ensures page < api.pageCount
  {
  }

  /** One saved page of the loop: fetch the new entities, save the page and the entities,
      report the metrics; the ids seen grow by the page's new ones. */
  method StorePage(task: Task, api: DiavgeiaApi, source: PageSource, only: Option<int>, total: Value, page: nat,
                   kept: seq<Decision>, added: Seen, seen: Seen, ghost pages: seq<seq<Decision>>,
                   ghost start: Tables, ghost startMetrics: Value) returns (grown: Seen)
    requires task.Synced() && seen == SeenAfter(pages) && page == |pages|
    requires Progress(api, source, only, total, task.id.value, start, startMetrics, pages, TablesOf(task.db), task.metrics)
    requires PlanPage(api, source, only, |pages|, seen) == PageSaved(kept, added)
    modifies task`metrics, task`updatedAt, task`id, task.db`tasks, task.db`taskSerial, task.db`clock
    modifies task.db`decisions, task.db`organizations, task.db`units, task.db`signers
    ensures task.Synced() && task.id == old(task.id)
    ensures grown == SeenAfter(pages + [kept])
    ensures Progress(api, source, only, total, task.id.value, start, startMetrics, pages + [kept], TablesOf(task.db), task.metrics)
  {
    var records := FetchNew(api, added).value;
    grown := Grow(seen, added);
    ghost var now, metrics := TablesOf(task.db), task.metrics;
    SavePage(task, kept, records, IngestMetrics(page, |kept|, grown, total));
    ProgressStep(api, source, only, total, task.id.value, start, startMetrics, pages, now, metrics, kept, added, records);
    SeenStep(pages, kept, added);
  }

  lemma SeenStep(pages: seq<seq<Decision>>, kept: seq<Decision>, added: Seen)
    requires added == NewIds(SeenAfter(pages), kept)
    ensures SeenAfter(pages + [kept]) == Grow(SeenAfter(pages), added)
  {
    assert (pages + [kept])[..|pages|] == pages;
  }

  /** How a run with `params` that started from tables `start` and metrics `startMetrics`
      ended: refused parameters and a failed count change nothing; otherwise the run saved
      the planned `pages` and stopped on the plan of the next index. */
  ghost predicate RunEnded(api: DiavgeiaApi, params: Value, taskId: nat, start: Tables, startMetrics: Value,
                           pages: seq<seq<Decision>>, o: RunOutcome, now: Tables, metrics: Value)
  {
    if !RunnableParams(params) then
      o == Threw(ParamsError(params)) && pages == [] && now == start && metrics == startMetrics
    else
      var q, only := IngestQuery(params).value, OnlyCap(params);
      var source := Pages(api, q);
      match TotalOf(TotalResponse(api, q))
      case Err(e) => o == Threw(e) && pages == [] && now == start && metrics == startMetrics
      case Ok(total) =>
        && Progress(api, source, only, total, taskId, start, startMetrics, pages, now, metrics)
        && !o.Exited?
        && (o.Returned? ==> PlanPage(api, source, only, |pages|, SeenAfter(pages)) == NoMoreDecisions)
        && (o.Threw? ==> PlanPage(api, source, only, |pages|, SeenAfter(pages)) == PageFailed(o.error))
  }

  /** `run`: the parameter checks, the total count, then the page loop. */
  method Run(task: Task, api: DiavgeiaApi) returns (o: RunOutcome, ghost pages: seq<seq<Decision>>)
    requires task.Synced()
    requires Finite(api)
    modifies task`metrics, task`updatedAt, task`id, task.db`tasks, task.db`taskSerial, task.db`clock
    modifies task.db`decisions, task.db`organizations, task.db`units, task.db`signers
    ensures task.Synced() && task.id == old(task.id) && !o.Exited?
    ensures RunEnded(api, task.params, task.id.value, old(TablesOf(task.db)), old(task.metrics), pages, o,
                     TablesOf(task.db), task.metrics)
  {
    pages := [];
    var params := task.params;
    var checked := CheckParams(params);
    if checked.Fail? {
      return Threw(checked.error), pages;
    }
    var query := IngestQuery(params);
    if query.Err? {
      return Threw(query.error), pages;
    }
    var q, only := query.value, OnlyCap(params);
    var totalResult := TotalOf(TotalResponse(api, q));
    if totalResult.Err? {
      return Threw(totalResult.error), pages;
    }
    FinitePages(api, q);
    o, pages := RunPages(task, api, Pages(api, q), only, totalResult.value);
  }

  /** The second half of `start`: run, then record how the run ended. */
  method RunAndFinish(task: Task, api: DiavgeiaApi) returns (r: Outcome, o: RunOutcome, ghost pages: seq<seq<Decision>>)
    requires task.Synced()
    requires Finite(api)
    modifies task`status, task`metrics, task`updatedAt, task`id, task.db`tasks, task.db`taskSerial, task.db`clock
    modifies task.db`decisions, task.db`organizations, task.db`units, task.db`signers
    ensures task.Synced() && task.id == old(task.id)
    ensures RunEnded(api, task.params, task.id.value, old(TablesOf(task.db)), old(task.metrics), pages, o,
                     TablesOf(task.db), task.metrics)
    ensures r == (if o.Returned? then Pass else Fail(o.error))
    ensures task.status == Some(if o.Returned? then Succeeded else Failed)
  {
    o, pages := Run(task, api);
    ghost var tables, metrics := TablesOf(task.db), task.metrics;
    r := task.Conclude(o);
    assert TablesOf(task.db) == tables && task.metrics == metrics;
  }

  /** `start` for the ingestor: refuse a taken identity, save the task as running, run, and
      record how the run ended; an error of the run is passed on after the failed status is
      stored. */
  method Start(task: Task, api: DiavgeiaApi, params: Value, given: Option<int>)
      returns (r: Outcome, o: RunOutcome, ghost pages: seq<seq<Decision>>)
    requires task.db.Valid()
    requires Finite(api)
    modifies task`params, task`version, task`status, task`createdAt, task`updatedAt, task`id, task`metrics
    modifies task.db`tasks, task.db`taskSerial, task.db`clock
    modifies task.db`decisions, task.db`organizations, task.db`units, task.db`signers
    ensures task.version == Some(ChosenVersion(old(task.db.tasks), task.taskType, task.implementation, task.name, given))
    ensures FindTask(old(task.db.tasks), task.Key()).Some? ==>
      && r == Fail(Error(DuplicateMessage(task.Key())))
      && task.db.tasks == old(task.db.tasks) && TablesOf(task.db) == old(TablesOf(task.db))
    ensures FindTask(old(task.db.tasks), task.Key()).None? ==>
      && task.Synced() && task.params == params
      && RunEnded(api, task.params, task.id.value, old(TablesOf(task.db)), old(task.metrics), pages, o,
                  TablesOf(task.db), task.metrics)
      && r == (if o.Returned? then Pass else Fail(o.error))
      && task.status == Some(if o.Returned? then Succeeded else Failed)
  {
    pages := [];
    o := Returned;
    var begun := task.Open(params, given);
    if begun.Fail? {
      return begun, o, pages;
    }
    r, o, pages := RunAndFinish(task, api);
  }

  // ---------------------------------------------------------------------------------
  // What a run guarantees

  /** Whatever way a run ends, the decisions table gained exactly the saved pages' rows,
      in order, tagged with the task's id. */
  lemma RunSavesPages(api: DiavgeiaApi, params: Value, taskId: nat, start: Tables, startMetrics: Value,
                      pages: seq<seq<Decision>>, o: RunOutcome, now: Tables, metrics: Value)
    requires RunEnded(api, params, taskId, start, startMetrics, pages, o, now, metrics)
    ensures now.decisions == start.decisions + DecisionRows(taskId, Concat(pages))
  {
    if !RunnableParams(params) || TotalOf(TotalResponse(api, IngestQuery(params).value)).Err? {
      assert Concat(pages) == [] && now.decisions + [] == now.decisions;
    }
  }

  /** The decisions saved by a run never exceed a numeric `only`. */
  lemma OnlyRespected(api: DiavgeiaApi, params: Value, taskId: nat, start: Tables, startMetrics: Value,
                      pages: seq<seq<Decision>>, o: RunOutcome, now: Tables, metrics: Value)
    requires RunEnded(api, params, taskId, start, startMetrics, pages, o, now, metrics)
    requires Truthy(params) && OnlyCap(params).Some?
    ensures |Concat(pages)| <= Max(0, OnlyCap(params).value)
  {
    if RunnableParams(params) && TotalOf(TotalResponse(api, IngestQuery(params).value)).Ok? {
      SavedWithinLimits(api, Pages(api, IngestQuery(params).value), OnlyCap(params), pages);
      SumLimitsCapped(OnlyCap(params).value, |pages|);
    }
  }

  /** Pages `0 .. count - 1` keep at most this many decisions between them. */
  function SumLimits(only: Option<int>, count: nat): nat
  {
    if count == 0 then 0 else SumLimits(only, count - 1) + PageLimit(only, count - 1)
  }

  lemma {:induction false} SumLimitsCapped(n: int, count: nat)
    ensures SumLimits(Some(n), count) == Min(count * DiavgeiaPageSize, Max(0, n))
  {
    if count > 0 {
      SumLimitsCapped(n, count - 1);
    }
  }

  lemma {:induction false} SavedWithinLimits(api: DiavgeiaApi, source: PageSource, only: Option<int>, pages: seq<seq<Decision>>)
    requires SavedPages(api, source, only, pages)
    ensures |Concat(pages)| <= SumLimits(only, |pages|)
  {
    if |pages| > 0 {
      var before := pages[..|pages| - 1];
      SavedWithinLimits(api, source, only, before);
      var plan := PlanPage(api, source, only, |pages| - 1, SeenAfter(before));
      assert KeptPage(source, only, |pages| - 1) == Ok(pages[|pages| - 1]);
    }
  }

  /** The ids remembered after a run are the ids its saved decisions mention, each once, so
      every entity is looked up and stored once per run. */
  lemma {:induction false} SeenIsMentioned(pages: seq<seq<Decision>>, kind: EntityKind)
    ensures NoDup(SeenAfter(pages).Of(kind))
    ensures forall x :: x in SeenAfter(pages).Of(kind) <==> x in BatchIds(kind, Concat(pages))
  {
    if |pages| > 0 {
      var before := pages[..|pages| - 1];
      var last := pages[|pages| - 1];
      SeenIsMentioned(before, kind);
      var old_, new_ := SeenAfter(before).Of(kind), NewOf(SeenAfter(before), last, kind);
      assert SeenAfter(pages).Of(kind) == old_ + new_;
      BatchIdsAppend(kind, Concat(before), last);
      NoDupAppend(old_, new_);
    }
  }

  lemma NoDupAppend(a: seq<Value>, b: seq<Value>)
    requires NoDup(a) && NoDup(b) && forall x :: x in b ==> x !in a
    ensures NoDup(a + b)
  {
    forall i, j | 0 <= i < j < |a + b| ensures (a + b)[i] != (a + b)[j] {
      if i < |a| && j >= |a| {
        assert (a + b)[j] == b[j - |a|] && (a + b)[i] == a[i];
        assert b[j - |a|] in b;
      } else if j < |a| {
        assert (a + b)[j] == a[j] && (a + b)[i] == a[i];
      } else {
        assert (a + b)[j] == b[j - |a|] && (a + b)[i] == b[i - |a|];
      }
    }
  }

  /** The text extractor, reading the decisions of this ingestor task, gets back exactly the
      saved decisions' metadata in order, with ids following the rows already there. */
  lemma {:induction false} DecisionsReadBack(before: seq<DecisionRow>, taskId: nat, ds: seq<Decision>, base: nat)
    requires forall k :: 0 <= k < |before| ==> before[k].ingestorTaskId != taskId
    ensures DecisionInputs(before + DecisionRows(taskId, ds), taskId, base) == SavedInputs(ds, base + |before|)
    decreases |before| + |ds|
  {
    if |before| > 0 {
      assert (before + DecisionRows(taskId, ds))[1..] == before[1..] + DecisionRows(taskId, ds);
      DecisionsReadBack(before[1..], taskId, ds, base + 1);
    } else if |ds| > 0 {
      assert before + DecisionRows(taskId, ds) == DecisionRows(taskId, ds);
      assert DecisionRows(taskId, ds)[1..] == DecisionRows(taskId, ds[1..]);
      DecisionsReadBack([], taskId, ds[1..], base + 1);
      assert [] + DecisionRows(taskId, ds[1..]) == DecisionRows(taskId, ds[1..]);
    } else {
      assert before + DecisionRows(taskId, ds) == [];
    }
  }

  /** The inputs of saved decisions whose first row id is `base + 1`. */
  function SavedInputs(ds: seq<Decision>, base: nat): (r: seq<DecisionInput>)
    ensures |r| == |ds|
    ensures forall k :: 0 <= k < |ds| ==> r[k] == DecisionInput(base + k + 1, ds[k].metadata)
  {
    if |ds| == 0 then [] else [DecisionInput(base + 1, ds[0].metadata)] + SavedInputs(ds[1..], base + 1)
  }
}
