/**
 * What `generateChromaQuery` does with the language model's answer: parse it as JSON, take
 * the `text` field out as the text query, and rewrite an `issueDate` range into the `$and`
 * of two millisecond bounds that the vector store understands, the upper one pushed to the
 * end of its day.  The prompt and the model call are not modelled: the answer is an input.
 */
module QueryGeneration {
  import opened Base
  import opened Js

  const DayMs := 24 * 60 * 60 * 1000
  const EmptyResponseMessage := "OpenAI returned an empty response"

  /** `Date.parse`: the timestamp in milliseconds, or `None` for `NaN`. */
  type DateParser = Value -> Option<int>

  /** A millisecond bound as JavaScript computes it: `NaN` stays `NaN`. */
  function Millis(t: Option<int>, plus: int): Value
  {
    if t.Some? then Num(t.value + plus) else NaN
  }

  function Bound(op: string, v: Value): Value
  {
    Obj(map["issueDate" := Obj(map[op := v])])
  }

  /** `convertIssueDateFilter`: `undefined` for `undefined`, else the `$and` of the two
      bounds; reading `$gt` of `null` is a TypeError. */
  function ConvertIssueDateFilter(filter: Value, parse: DateParser): (r: Result<Value>)
    ensures filter.Undefined? ==> r == Ok(Undefined)
    ensures r.Err? <==> filter.Null?
  {
    if filter.Undefined? then Ok(Undefined)
    else if filter.Null? then Err(Error(TypeErrorMessage))
    else
      Ok(Obj(map["$and" := Arr([Bound("$gt", Millis(parse(Get(filter, "$gt").value), 0)),
                                Bound("$lte", Millis(parse(Get(filter, "$lte").value), DayMs))])]))
  }

  // ---------------------------------------------------------------------------------
  // What a rewritten filter accepts

  /** One comparison of the vector store's filter language; a comparison with `NaN`, or an
      operator other than these, accepts nothing. */
  predicate OpHolds(op: string, bound: Value, date: int)
  {
    bound.Num? &&
    (if op == "$gt" then date > bound.n
     else if op == "$gte" then date >= bound.n
     else if op == "$lt" then date < bound.n
     else if op == "$lte" then date <= bound.n
     else if op == "$eq" then date == bound.n
     else false)
  }

  /** `{"issueDate": {op: bound, ...}}`: every comparison holds of the date. */
  predicate DateCondition(cond: Value, date: int)
  {
    && cond.Obj? && "issueDate" in cond.fields && cond.fields["issueDate"].Obj?
    && forall op :: op in cond.fields["issueDate"].fields ==> OpHolds(op, cond.fields["issueDate"].fields[op], date)
  }

  /** `{"$and": [c1, c2, ...]}` over date conditions. */
  predicate Accepts(filter: Value, date: int)
  {
    && filter.Obj? && "$and" in filter.fields && filter.fields["$and"].Arr?
    && forall i :: 0 <= i < |filter.fields["$and"].items| ==> DateCondition(filter.fields["$and"].items[i], date)
  }

  /** The rewritten filter accepts exactly the instants after the start date and up to the
      end of the end date's day; when either date does not parse it accepts nothing. */
  lemma ConvertedRange(filter: Value, parse: DateParser, date: int)
    requires !filter.Undefined? && !filter.Null?
    ensures var lo, hi := parse(Get(filter, "$gt").value), parse(Get(filter, "$lte").value);
            Accepts(ConvertIssueDateFilter(filter, parse).value, date) <==>
              lo.Some? && hi.Some? && lo.value < date <= hi.value + DayMs
  {
    var lo, hi := parse(Get(filter, "$gt").value), parse(Get(filter, "$lte").value);
    var f := ConvertIssueDateFilter(filter, parse).value;
    var items := f.fields["$and"].items;
    assert items[0] == Bound("$gt", Millis(lo, 0)) && items[1] == Bound("$lte", Millis(hi, DayMs));
    assert "$gt" in items[0].fields["issueDate"].fields;
    assert "$lte" in items[1].fields["issueDate"].fields;
    if Accepts(f, date) {
      assert DateCondition(items[0], date) && DateCondition(items[1], date);
    }
  }

  /** The whole of the end date's day is inside the range. */
  lemma EndDayIncluded(filter: Value, parse: DateParser, t: int)
    requires !filter.Undefined? && !filter.Null?
    requires parse(Get(filter, "$gt").value).Some? && parse(Get(filter, "$lte").value).Some?
    requires parse(Get(filter, "$gt").value).value < parse(Get(filter, "$lte").value).value
    requires 0 <= t < DayMs
    ensures Accepts(ConvertIssueDateFilter(filter, parse).value, parse(Get(filter, "$lte").value).value + t)
  {
    ConvertedRange(filter, parse, parse(Get(filter, "$lte").value).value + t);
  }

  // ---------------------------------------------------------------------------------
  // The answer's post-processing

  /** The text query and the metadata filter. */
  datatype Query = Query(text: Value, filter: Value)

  /** Lines 65-82 of `generateChromaQuery`, from the model's answer (`None` for no answer).
      `parseJson` is `JSON.parse`, which throws on text that is not JSON. */
  function PostProcess(answer: Option<string>, parseJson: string -> Result<Value>, parse: DateParser): (r: Result<Query>)
    ensures answer.None? || answer == Some("") ==> r == Err(Error(EmptyResponseMessage))
    ensures r.Ok? ==> answer.Some? && parseJson(answer.value).Ok? &&
                      Get(parseJson(answer.value).value, "text") == Some(r.value.text)
    ensures r.Ok? && r.value.filter.Obj? ==> "text" !in r.value.filter.fields
  {
    if answer.None? || answer.value == "" then Err(Error(EmptyResponseMessage))
    else
      match parseJson(answer.value)
      case Err(e) => Err(e)
      case Ok(json) =>
        match Get(json, "text")
        case None => Err(Error(TypeErrorMessage))
        case Some(text) =>
          if json.Obj? then
            var fields := json.fields;
            var issueDate := if "issueDate" in fields then fields["issueDate"] else Undefined;
            if Truthy(issueDate) then
              var and := ConvertIssueDateFilter(issueDate, parse).value;
              Ok(Query(text, Obj((fields["$and" := and.fields["$and"]] - {"issueDate"}) - {"text"})))
            else Ok(Query(text, Obj(fields - {"text"})))
          else Ok(Query(text, json))
  }

  /** With a truthy `issueDate`, the filter is the answer's object with `text` and
      `issueDate` removed and `$and` set to the two bounds, whatever `$and` held before. */
  lemma IssueDateRewritten(answer: string, parseJson: string -> Result<Value>, parse: DateParser)
    requires answer != "" && parseJson(answer).Ok? && parseJson(answer).value.Obj?
    requires var fields := parseJson(answer).value.fields; "issueDate" in fields && Truthy(fields["issueDate"])
    ensures var fields := parseJson(answer).value.fields;
            var r := PostProcess(Some(answer), parseJson, parse);
            && r.Ok? && r.value.filter.Obj?
            && "issueDate" !in r.value.filter.fields && "text" !in r.value.filter.fields
            && r.value.filter.fields["$and"] == ConvertIssueDateFilter(fields["issueDate"], parse).value.fields["$and"]
            && forall k :: k in fields && k !in {"issueDate", "text", "$and"} ==>
                 k in r.value.filter.fields && r.value.filter.fields[k] == fields[k]
  {
  }

  /** Without `issueDate`, every key but `text` passes through unchanged. */
  lemma OtherKeysPassThrough(answer: string, parseJson: string -> Result<Value>, parse: DateParser)
    requires answer != "" && parseJson(answer).Ok? && parseJson(answer).value.Obj?
    requires "issueDate" !in parseJson(answer).value.fields
    ensures var fields := parseJson(answer).value.fields;
            PostProcess(Some(answer), parseJson, parse) == Ok(Query(Get(parseJson(answer).value, "text").value,
                                                                   Obj(fields - {"text"})))
  {
  }

  /** A JSON `null` answer fails on reading its `text`. */
  lemma NullAnswerThrows(answer: string, parseJson: string -> Result<Value>, parse: DateParser)
    requires answer != "" && parseJson(answer) == Ok(Null)
    ensures PostProcess(Some(answer), parseJson, parse) == Err(Error(TypeErrorMessage))
  {
  }
}
