/**
 * What the two Cohere embedders share: the embedding record, `saveEmbeddings` of the
 * `Embedder` base class, the page size and messages, and `getTextToEmbed`, which both
 * embedders define alike.
 */
module Embedding {
  import opened Base
  import opened Js
  import opened Vectors
  import opened Db

  const Model := "multilingual-22-12"
  const BatchSize: nat := 50
  /** Both embedders use the same wording for a missing parameter object. */
  const ParamsNotSetMessage := "Cohere one batch embedder params are not set"
  const MissingParamsMessage := "Missing required params: textExtractorTaskId"

  /** An embedding ready to be stored: `position` is the `seq` that numbers the vectors of one text from 1. */
  datatype Embedded = Embedded(textId: Value, embedding: Vector, position: nat)

  // ---------------------------------------------------------------------------------
  // Saving

  function EmbeddingRows(taskId: nat, es: seq<Embedded>): (r: seq<EmbeddingRow>)
    ensures |r| == |es|
    ensures forall i :: 0 <= i < |es| ==> r[i] == EmbeddingRow(taskId, es[i].textId, es[i].position, es[i].embedding)
  {
    if |es| == 0 then []
    else
      var e := es[|es| - 1];
      EmbeddingRows(taskId, es[..|es| - 1]) + [EmbeddingRow(taskId, e.textId, e.position, e.embedding)]
  }

  lemma EmbeddingRowsAppend(taskId: nat, a: seq<Embedded>, b: seq<Embedded>)
    ensures EmbeddingRows(taskId, a + b) == EmbeddingRows(taskId, a) + EmbeddingRows(taskId, b)
  {
    assert forall i :: 0 <= i < |a + b| ==>
      EmbeddingRows(taskId, a + b)[i] == (EmbeddingRows(taskId, a) + EmbeddingRows(taskId, b))[i];
  }

  /** `saveEmbeddings`: one INSERT per embedding, in order, inside one transaction; the rows
      already in the table stay as they were. */
  method SaveEmbeddings(db: Database, taskId: nat, es: seq<Embedded>)
    modifies db`embeddings
    ensures db.embeddings == old(db.embeddings) + EmbeddingRows(taskId, es)
  {
    var i := 0;
    while i < |es|
      invariant 0 <= i <= |es|
      invariant db.embeddings == old(db.embeddings) + EmbeddingRows(taskId, es[..i])
    {
      var e := es[i];
      db.embeddings := db.embeddings + [EmbeddingRow(taskId, e.textId, e.position, e.embedding)];
      assert es[..i + 1][..i] == es[..i];
      i := i + 1;
    }
    assert es[..i] == es;
  }

  // ---------------------------------------------------------------------------------
  // The string to embed

  /** `getTextToEmbed` as written: the decision's subject (`''` when falsy), a colon, and
      `text.text`.  `text` is the value of the `text` column, a string or `null`, so
      `text.text` is `undefined` for every stored text and `null` throws, as does the
      decision metadata of a text whose decision is missing. */
  function TextToEmbed(text: Value, metadata: Value): (r: Result<string>)
    ensures r.Err? <==> metadata.Null? || metadata.Undefined? || text.Null? || text.Undefined?
    ensures r.Err? ==> r.error == Error(TypeErrorMessage)
  {
    match Get(metadata, "subject")
    case None => Err(Error(TypeErrorMessage))
    case Some(subject) =>
      if !Truthy(subject) && Get(text, "id").None? then Err(Error(TypeErrorMessage))
      else
        var shown := if Truthy(subject) then subject else Str("");
        match Get(text, "text")
        case None => Err(Error(TypeErrorMessage))
        case Some(content) => Ok(ToString(shown) + ": " + ToString(content))
  }

  /** A NULL text (or an undefined one) throws when `text.text` is read. */
  lemma NullTextRefused(text: Value, metadata: Value)
    requires text.Null? || text.Undefined?
    ensures TextToEmbed(text, metadata) == Err(Error(TypeErrorMessage))
  {
  }

  /** The subject as both versions write it: `''` when it is falsy. */
  function SubjectText(subject: Value): string
  {
    ToString(if Truthy(subject) then subject else Str(""))
  }

  /** As written, the content of the text never reaches the embedding: any two stored texts
      of the same decision give the same string, the subject followed by ": undefined". */
  lemma TextToEmbedIgnoresText(a: string, b: string, metadata: Value)
    requires !metadata.Null? && !metadata.Undefined?
    ensures TextToEmbed(Str(a), metadata) == TextToEmbed(Str(b), metadata)
    ensures TextToEmbed(Str(a), metadata) == Ok(SubjectText(Get(metadata, "subject").value) + ": undefined")
  {
    assert "text" != "length" && "id" != "length";
    assert Get(Str(a), "text") == Some(Undefined) && Get(Str(b), "text") == Some(Undefined);
    var subject := SubjectText(Get(metadata, "subject").value);
    assert subject + ": " + ToString(Undefined) == subject + ": undefined";
  }

  /** What `getTextToEmbed` is evidently meant to return: the subject, a colon and the text
      itself. */
  function TextToEmbedIntended(text: Value, metadata: Value): (r: Result<string>)
    ensures r.Err? <==> metadata.Null? || metadata.Undefined?
  {
    match Get(metadata, "subject")
    case None => Err(Error(TypeErrorMessage))
    case Some(subject) => Ok(SubjectText(subject) + ": " + ToString(text))
  }

  /** The corrected string starts with the subject and ends with the text, so two different
      texts of one decision are embedded as two different strings. */
  lemma IntendedKeepsText(text: Value, metadata: Value)
    requires TextToEmbedIntended(text, metadata).Ok?
    ensures var s := TextToEmbedIntended(text, metadata).value;
            var subject := SubjectText(Get(metadata, "subject").value);
            && |s| == |subject| + 2 + |ToString(text)|
            && s[..|subject|] == subject
            && s[|subject|..|subject| + 2] == ": "
            && s[|subject| + 2..] == ToString(text)
  {
  }

  lemma IntendedTellsTextsApart(a: string, b: string, metadata: Value)
    requires TextToEmbedIntended(Str(a), metadata).Ok?
    requires TextToEmbedIntended(Str(a), metadata) == TextToEmbedIntended(Str(b), metadata)
    ensures a == b
  {
    IntendedKeepsText(Str(a), metadata);
    IntendedKeepsText(Str(b), metadata);
  }

  /** For a stored text of a decision with a subject, the two versions differ unless the
      text is literally "undefined". */
  lemma VersionsDiffer(a: string, metadata: Value)
    requires !metadata.Null? && !metadata.Undefined? && a != "undefined"
    ensures TextToEmbed(Str(a), metadata) != TextToEmbedIntended(Str(a), metadata)
  {
    TextToEmbedIgnoresText(a, a, metadata);
    IntendedKeepsText(Str(a), metadata);
    var subject := SubjectText(Get(metadata, "subject").value);
    var written := subject + ": undefined";
    assert written[|subject| + 2..] == "undefined";
  }

  /** The metrics object each page reports. */
  function Metrics(processed: nat, failures: nat): Value
  {
    Obj(map["texts_processed" := Num(processed), "failures" := Num(failures)])
  }
}
