/** How a decision travels from the ingestor through the text extractor to the embedders:
    what the extractor finds in what the ingestor stored, and what an embedder then reads. */
module Lineage {
  import opened Base
  import opened Js
  import opened Db
  import opened Ingestion
  import opened TextExtraction
  import opened Embedding
  import opened CohereEmbedding

  /** The extractor looks for the URL under the metadata's `documentUrl`, a key the ingestor
      never writes there, so every ingested decision reads as having no document. */
  lemma IngestedHasNoDocument(obj: Value, pdf: PdfLoader)
    requires ExtractData(obj).Ok?
    ensures Extraction(ExtractData(obj).value.metadata, pdf) == Ok((None, Obj(map["hasDocument" := Bool(false)])))
  {
    var m := ExtractData(obj).value.metadata;
    MetadataFields(obj);
    NoDocumentUrlKey();
    assert Get(m, "documentUrl") == Some(Undefined);
  }

  lemma NoDocumentUrlKey()
    ensures "documentUrl" !in DecisionKeys && "documentUrl" !in ExtraKeys
  {
  }

  /** Following one ingested decision along: the extractor stores a NULL text for it, the
      embedders read that NULL back, and an embedder page that reaches it throws. */
  lemma IngestedTextStopsEmbedder(obj: Value, pdf: PdfLoader, id: nat, taskId: nat, decisions: seq<DecisionRow>,
                                  textId: nat, embed: EmbedMany, earlier: seq<TextInput>)
    requires ExtractData(obj).Ok?
    requires EmbedAll(embed, earlier).Ok?
    ensures var doc := DocumentOf(DecisionInput(id, ExtractData(obj).value.metadata), pdf);
            && doc.Ok? && doc.value.text.None?
            && var input := JoinedText(TextRows(taskId, [doc.value])[0], decisions, textId);
            && input.text == Null
            && EmbedAll(embed, earlier + [input]) == Err(Error(TypeErrorMessage))
  {
    IngestedHasNoDocument(obj, pdf);
    var doc := DocumentOf(DecisionInput(id, ExtractData(obj).value.metadata), pdf).value;
    var input := JoinedText(TextRows(taskId, [doc])[0], decisions, textId);
    var rows := earlier + [input];
    assert rows[..|earlier|] == earlier;
    NullTextThrows(embed, rows, |earlier|);
  }

  /** Every decision the ingestor stores has a truthy `document_url`: the one Diavgeia gave,
      or the one built from its ADA. */
  lemma IngestedUrlTruthy(obj: Value)
    requires ExtractData(obj).Ok?
    ensures Truthy(ExtractData(obj).value.documentUrl)
  {
  }

  /** Reading the URL from the `document_url` column, as evidently intended, an ingested
      decision always has its PDF loaded: it is left without a text exactly when that PDF
      will not load, and never reported as having no document. */
  lemma IntendedLoadsIngested(obj: Value, pdf: PdfLoader)
    requires ExtractData(obj).Ok?
    ensures var url := ExtractData(obj).value.documentUrl;
            var r := ExtractionAt(url, pdf);
            && r != Ok((None, Obj(map["hasDocument" := Bool(false)])))
            && (r.Ok? && r.value.0.None? <==> pdf(ToString(url)).Err?)
  {
    var url := ExtractData(obj).value.documentUrl;
    IngestedUrlTruthy(obj);
    UrlLoaded(url, pdf);
  }

  lemma UrlLoaded(url: Value, pdf: PdfLoader)
    requires Truthy(url)
    ensures var r := ExtractionAt(url, pdf);
            && r != Ok((None, Obj(map["hasDocument" := Bool(false)])))
            && (r.Ok? && r.value.0.None? <==> pdf(ToString(url)).Err?)
  {
    if pdf(ToString(url)).Err? {
      assert ExtractionAt(url, pdf) == Ok((None, Obj(map["textExtractionFailure" := Bool(true)])));
      assert "hasDocument" !in map["textExtractionFailure" := Bool(true)];
    }
  }
}
