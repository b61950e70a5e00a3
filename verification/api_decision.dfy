/**
 * The service's `Decision` (`api/src/decision.ts`): a decision of the Diavgeia API with a
 * document URL that defaults to the decision's page on diavgeia.gov.gr, a document text
 * loaded from the PDF, and the text that is embedded for it.
 */
module ApiDecision {
  import opened Base
  import opened Strs
  import opened Js
  import opened TextExtraction
  import opened DecisionRecord
  import opened Vectors
  import Ledger

  const DocumentUrlPrefix := "https://diavgeia.gov.gr/doc/"
  const UrlNotSetMessage := "Document URL not set"
  const UrlNotLoadedMessage := "Document URL not loaded"
  const AdaNotLoadedMessage := "ADA not loaded"
  const PageSeparator := " || "
  const NoTextPlaceholder := "Δεν υπάρχει κείμενο στην απόφαση"

  /** The URL `_extractData` stores: the decision's own when truthy, else the page named
      after its ADA. */
  function DocumentUrlFor(s: Source): (url: Value)
    requires "ada" in s.metadata
    ensures Truthy(url)
    ensures Truthy(s.documentUrl) ==> url == s.documentUrl
    ensures !Truthy(s.documentUrl) && s.metadata["ada"].Str? ==> url == Str(DocumentUrlPrefix + s.metadata["ada"].s)
  {
    if Truthy(s.documentUrl) then s.documentUrl
    else Str(DocumentUrlPrefix + ToString(s.metadata["ada"]))
  }

  /** The URL the decision loads its document from names no other decision: two sources
      without URLs of their own get different defaults for different string ADAs. */
  lemma DefaultUrlsApart(s1: Source, s2: Source)
    requires "ada" in s1.metadata && "ada" in s2.metadata
    requires !Truthy(s1.documentUrl) && !Truthy(s2.documentUrl)
    requires s1.metadata["ada"].Str? && s2.metadata["ada"].Str? && s1.metadata["ada"] != s2.metadata["ada"]
    ensures DocumentUrlFor(s1) != DocumentUrlFor(s2)
  {
    var a1, a2 := s1.metadata["ada"].s, s2.metadata["ada"].s;
    if DocumentUrlPrefix + a1 == DocumentUrlPrefix + a2 {
      PrefixInjective(DocumentUrlPrefix, a1, a2);
    }
  }

  // ---------------------------------------------------------------------------------
  // Loading the document

  /** The state `loadDocument` leaves: how it ended, the metadata and the document text
      (`None` while `undefined`). */
  datatype Loaded = Loaded(outcome: Outcome, metadata: map<string, Value>, text: Option<string>)

  /** The URLs that mean "no document". */
  predicate NoDocument(url: Value)
  {
    url == Str("") || url.Null? || url == Str("null")
  }

  /** `loadDocument` from the URL, metadata and text it starts with.  A PDF that does not
      load is caught and flagged; a page or the metadata that cannot be read throws, after
      the fields set so far were written. */
  function Load(url: Value, metadata: map<string, Value>, text: Option<string>, pdf: PdfLoader): Loaded
  {
    if url.Undefined? then Loaded(Fail(Error(UrlNotSetMessage)), metadata, text)
    else if NoDocument(url) then Loaded(Pass, metadata["hasDocument" := Bool(false)], Some(""))
    else
      var withDocument := metadata["hasDocument" := Bool(true)];
      match pdf(ToString(url))
      case Err(_) => Loaded(Pass, withDocument["textExtractionFailure" := Bool(true)], Some(""))
      case Ok(doc) =>
        match PageTexts(doc.pages)
        case Err(e) => Loaded(Fail(e), withDocument, text)
        case Ok(texts) => Store(texts, doc.metadata, withDocument)
  }

  /** What follows once every page was read: the failure flag, the text, and the PDF's
      metadata entries. */
  function Store(texts: seq<string>, pdfMetadata: Result<PdfMetadata>, metadata: map<string, Value>): Loaded
  {
    var failure := IsWhitespace(Join(texts, ""));
    var flagged := metadata["textExtractionFailure" := Bool(failure)];
    var joined := Some(Join(if failure then [] else texts, PageSeparator));
    match pdfMetadata
    case Err(e) => Loaded(Fail(e), flagged, joined)
    case Ok(md) => Loaded(Pass, flagged + XmpEntries(md) + Prefixed(InfoPrefix, md.info), joined)
  }

  /** Without a document the text is empty and `hasDocument` is false. */
  lemma NoDocumentSkipped(url: Value, metadata: map<string, Value>, text: Option<string>, pdf: PdfLoader)
    requires NoDocument(url)
    ensures Load(url, metadata, text, pdf) == Loaded(Pass, metadata["hasDocument" := Bool(false)], Some(""))
  {
  }

  /** A document that cannot be fetched or parsed is recorded, not thrown: the text is
      empty and both flags are set. */
  lemma UnloadableFlagged(url: Value, metadata: map<string, Value>, text: Option<string>, pdf: PdfLoader)
    requires !url.Undefined? && !NoDocument(url) && pdf(ToString(url)).Err?
    ensures var r := Load(url, metadata, text, pdf);
            && r.outcome == Pass && r.text == Some("")
            && r.metadata["hasDocument"] == Bool(true) && r.metadata["textExtractionFailure"] == Bool(true)
  {
  }

  /** A blank joined text with page separators still holds a non-blank page. */
  lemma {:induction false} JoinKeepsInk(xs: seq<string>, sep: string)
    requires !IsWhitespace(Join(xs, ""))
    ensures !IsWhitespace(Join(xs, sep))
  {
    if |xs| > 1 {
      WhitespaceAppend(xs[0] + "", Join(xs[1..], ""));
      assert xs[0] + "" == xs[0];
      WhitespaceAppend(xs[0] + sep, Join(xs[1..], sep));
      WhitespaceAppend(xs[0], sep);
      if !IsWhitespace(Join(xs[1..], "")) {
        JoinKeepsInk(xs[1..], sep);
      }
    }
  }

  /** A key outside both prefixes keeps its value when the PDF's entries are added. */
  lemma UnprefixedKeyKept(m: map<string, Value>, md: PdfMetadata, k: string)
    requires k in m && !(MetadataPrefix <= k) && !(InfoPrefix <= k)
    ensures var r := m + XmpEntries(md) + Prefixed(InfoPrefix, md.info);
            k in r && r[k] == m[k]
  {
    assert k !in XmpEntries(md);
    assert k !in Prefixed(InfoPrefix, md.info);
  }

  /** Once the pages are read, the failure flag is set exactly when the stored text is
      empty, which is exactly when it is blank; a stored text that is not empty is the
      pages joined with " || ". */
  lemma StoredTextFlagged(texts: seq<string>, pdfMetadata: Result<PdfMetadata>, metadata: map<string, Value>)
    ensures var r := Store(texts, pdfMetadata, metadata);
            && r.text.Some?
            && "textExtractionFailure" in r.metadata
            && r.metadata["textExtractionFailure"] == Bool(r.text.value == "")
            && (r.text.value == "" <==> IsWhitespace(r.text.value))
            && (r.text.value != "" ==> r.text.value == Join(texts, PageSeparator))
  {
    var failure := IsWhitespace(Join(texts, ""));
    var r := Store(texts, pdfMetadata, metadata);
    if pdfMetadata.Ok? {
      assert "textExtractionFailure"[0] != MetadataPrefix[0] && "textExtractionFailure"[0] != InfoPrefix[0];
      UnprefixedKeyKept(metadata["textExtractionFailure" := Bool(failure)], pdfMetadata.value, "textExtractionFailure");
    }
    if failure {
      assert r.text.value == Join([], PageSeparator) == "";
    } else {
      JoinKeepsInk(texts, PageSeparator);
      assert r.text.value == Join(texts, PageSeparator);
      assert r.text.value != "";
    }
  }

  /** The same, from the URL: a fetched document whose pages were all read. */
  lemma FailureIffEmptyText(url: Value, metadata: map<string, Value>, text: Option<string>, pdf: PdfLoader)
    requires !url.Undefined? && !NoDocument(url) && pdf(ToString(url)).Ok?
    requires PageTexts(pdf(ToString(url)).value.pages).Ok?
    ensures var r := Load(url, metadata, text, pdf);
            && r.text.Some?
            && "textExtractionFailure" in r.metadata
            && r.metadata["textExtractionFailure"] == Bool(r.text.value == "")
            && (r.text.value != "" ==> r.text.value == Join(PageTexts(pdf(ToString(url)).value.pages).value, PageSeparator))
  {
    var doc := pdf(ToString(url)).value;
    StoredTextFlagged(PageTexts(doc.pages).value, doc.metadata, metadata["hasDocument" := Bool(true)]);
  }

  /** None of the fifteen decision fields starts like a PDF entry. */
  lemma DecisionKeyUnprefixed(k: string)
    requires k in DecisionKeys + ExtraKeys
    ensures !(MetadataPrefix <= k) && !(InfoPrefix <= k)
    ensures k != "hasDocument" && k != "textExtractionFailure"
  {
    assert k[0] != 'p' || k[1] != 'd';
    assert k[0] != 'h' && (k[0] != 't' || k[1] != 'e');
  }

  /** The fifteen decision fields survive loading, whatever the PDF's metadata says. */
  lemma DecisionFieldsKept(url: Value, metadata: map<string, Value>, text: Option<string>, pdf: PdfLoader, k: string)
    requires k in DecisionKeys + ExtraKeys && k in metadata
    ensures var r := Load(url, metadata, text, pdf);
            k in r.metadata && r.metadata[k] == metadata[k]
  {
    DecisionKeyUnprefixed(k);
    if !url.Undefined? && !NoDocument(url) {
      var withDocument := metadata["hasDocument" := Bool(true)];
      assert withDocument[k] == metadata[k];
      match pdf(ToString(url))
      case Err(_) =>
      case Ok(doc) =>
        match PageTexts(doc.pages)
        case Err(_) =>
        case Ok(texts) =>
          var flagged := withDocument["textExtractionFailure" := Bool(IsWhitespace(Join(texts, "")))];
          assert flagged[k] == metadata[k];
          if doc.metadata.Ok? {
            UnprefixedKeyKept(flagged, doc.metadata.value, k);
          }
    }
  }

  /** For a constructed decision, whose URL is truthy, loading fails only while reading a
      document that was fetched, and of the three "no document" values only the string
      "null" can reach the check. */
  lemma ConstructedUrl(url: Value, metadata: map<string, Value>, text: Option<string>, pdf: PdfLoader)
    requires Truthy(url)
    ensures Load(url, metadata, text, pdf).outcome.Fail? ==> pdf(ToString(url)).Ok?
    ensures NoDocument(url) <==> url == Str("null")
  {
  }

  // ---------------------------------------------------------------------------------
  // The text embedded for a decision

  /** The content part: the document text, or the placeholder when it is blank. */
  function Content(text: string): (c: string)
    ensures !IsWhitespace(c)
    ensures !IsWhitespace(text) ==> c == text
  {
    if IsWhitespace(text) then
      assert !IsSpaceChar(NoTextPlaceholder[0]);
      NoTextPlaceholder
    else text
  }

  /** `embeddingText` once the document text is loaded: the two labelled parts joined. */
  function EmbeddingInput(subject: Value, text: string): string
  {
    Join([Join(["Subject", JoinElement(subject)], ":\n"), Join(["Content", Content(text)], ":\n")], "\n\n")
  }

  lemma JoinPair(a: string, b: string, sep: string)
    ensures Join([a, b], sep) == a + sep + b
  {
    assert [a, b][1..] == [b];
  }

  /** The input reads "Subject:", the subject, a blank line, "Content:" and the content. */
  lemma EmbeddingInputShape(subject: Value, text: string)
    ensures EmbeddingInput(subject, text) == "Subject:\n" + JoinElement(subject) + "\n\nContent:\n" + Content(text)
  {
    var s, c := JoinElement(subject), Content(text);
    JoinPair("Subject", s, ":\n");
    JoinPair("Content", c, ":\n");
    JoinPair("Subject" + ":\n" + s, "Content" + ":\n" + c, "\n\n");
  }

  /** Two decisions with the same subject get the same input exactly when their contents
      agree: distinct non-blank texts are told apart, and every blank text reads as the
      placeholder. */
  lemma EmbeddingInputsApart(subject: Value, t1: string, t2: string)
    ensures EmbeddingInput(subject, t1) == EmbeddingInput(subject, t2) <==> Content(t1) == Content(t2)
  {
    EmbeddingInputShape(subject, t1);
    EmbeddingInputShape(subject, t2);
    var p := "Subject:\n" + JoinElement(subject) + "\n\nContent:\n";
    assert EmbeddingInput(subject, t1) == p + Content(t1);
    assert EmbeddingInput(subject, t2) == p + Content(t2);
    if p + Content(t1) == p + Content(t2) {
      PrefixInjective(p, Content(t1), Content(t2));
    }
  }

  // ---------------------------------------------------------------------------------
  // The class

  /** The embedding model of the service's decisions. */
  const CohereModel := "multilingual-22-12"

  class Decision {
    var metadata: map<string, Value>
    var documentUrl: Value
    var documentText: Option<string>

    /** The object `_extractData` leaves behind, before any document is loaded. */
    constructor (s: Source)
      requires "ada" in s.metadata
      ensures metadata == s.metadata && documentUrl == DocumentUrlFor(s) && documentText.None?
    {
      metadata := s.metadata;
      documentUrl := DocumentUrlFor(s);
      documentText := None;
    }

    /** `loadDocument`. */
    method LoadDocument(pdf: PdfLoader) returns (r: Outcome)
      modifies this`metadata, this`documentText
      ensures Loaded(r, metadata, documentText) == Load(documentUrl, old(metadata), old(documentText), pdf)
    {
      if documentUrl.Undefined? {
        return Fail(Error(UrlNotSetMessage));
      }
      if NoDocument(documentUrl) {
        documentText := Some("");
        metadata := metadata["hasDocument" := Bool(false)];
        return Pass;
      }
      metadata := metadata["hasDocument" := Bool(true)];
      var loaded := pdf(ToString(documentUrl));
      if loaded.Err? {
        metadata := metadata["textExtractionFailure" := Bool(true)];
        documentText := Some("");
        return Pass;
      }
      var doc := loaded.value;
      var read := ReadPages(doc);
      if read.Err? {
        return Fail(read.error);
      }
      ghost var stored := Store(read.value, doc.metadata, metadata);
      var pageTexts := read.value;
      var failure := IsWhitespace(Join(pageTexts, ""));
      metadata := metadata["textExtractionFailure" := Bool(failure)];
      if failure {
        pageTexts := [];
      }
      documentText := Some(Join(pageTexts, PageSeparator));
      assert documentText == stored.text;
      match doc.metadata
      case Err(e) =>
        r := Fail(e);
      case Ok(md) =>
        metadata := metadata + XmpEntries(md);
        metadata := metadata + Prefixed(InfoPrefix, md.info);
        r := Pass;
    }

    /** The `metadata` getter: the stored fields with the URL added under `documentUrl`. */
    function Metadata(): (r: Result<map<string, Value>>)
      reads this
      ensures r.Err? <==> documentUrl.Undefined?
      ensures r.Ok? ==> "documentUrl" in r.value && r.value["documentUrl"] == documentUrl
      ensures r.Ok? ==> forall k :: k in metadata && k != "documentUrl" ==> k in r.value && r.value[k] == metadata[k]
      ensures r.Ok? ==> r.value.Keys == metadata.Keys + {"documentUrl"}
    {
      match DocumentUrl()
      case Err(e) => Err(e)
      case Ok(url) => Ok(metadata["documentUrl" := url])
    }

    /** The `documentUrl` getter. */
    function DocumentUrl(): (r: Result<Value>)
      reads this
      ensures r.Err? <==> documentUrl.Undefined?
      ensures r.Err? ==> r.error == Error(UrlNotLoadedMessage)
      ensures r.Ok? ==> r.value == documentUrl
    {
      if documentUrl.Undefined? then Err(Error(UrlNotLoadedMessage)) else Ok(documentUrl)
    }

    /** The `ada` getter. */
    function Ada(): (r: Result<Value>)
      reads this
      ensures r.Err? <==> "ada" !in metadata || metadata["ada"].Undefined?
      ensures r.Err? ==> r.error == Error(AdaNotLoadedMessage)
      ensures r.Ok? ==> r.value == metadata["ada"]
    {
      if "ada" !in metadata || metadata["ada"].Undefined? then Err(Error(AdaNotLoadedMessage))
      else Ok(metadata["ada"])
    }

    /** The `documentText` getter. */
    function DocumentText(): (r: Result<string>)
      reads this
      ensures r.Err? <==> documentText.None?
      ensures r.Err? ==> r.error == Error(TextNotLoadedMessage)
      ensures r.Ok? ==> r.value == documentText.value
    {
      if documentText.None? then Err(Error(TextNotLoadedMessage)) else Ok(documentText.value)
    }

    /** The `embeddingText` getter: it throws until the text is loaded. */
    function EmbeddingText(): (r: Result<string>)
      reads this
      ensures r.Err? <==> documentText.None?
      ensures r.Ok? ==> r.value == EmbeddingInput(Subject(metadata), documentText.value)
    {
      match DocumentText()
      case Err(e) => Err(e)
      case Ok(text) => Ok(EmbeddingInput(Subject(metadata), text))
    }

    /** `generateEmbedding` with the Cohere provider: one call on the whole embedding text,
        no chunking.  `0.001` is charged before `generateCohereEmbedding`, which charges its
        own `0.001` in `finally`, so a call that reaches Cohere costs twice what the returned
        value reports.  The text getter throws after the first charge.  `None` is the
        process exiting on a charge past the ceiling. */
    method GenerateEmbedding(monitor: Ledger.EmbeddingUsageMonitor, embed: (string, string) -> Result<seq<Vector>>)
        returns (r: Option<Result<Ledger.Costed>>)
      requires !monitor.exited
      modifies monitor`totalCost, monitor`exited
      ensures r.None? <==> monitor.exited
      ensures EmbeddingText().Err? ==>
                && monitor.totalCost == old(monitor.totalCost) + Ledger.CohereCallCost
                && (r.Some? ==> r.value == Err(EmbeddingText().error))
      ensures EmbeddingText().Ok? && r.Some? ==>
                var sent := embed(CohereModel, EmbeddingText().value);
                && monitor.totalCost == old(monitor.totalCost) + 2.0 * Ledger.CohereCallCost
                && (sent.Err? ==> r.value == Err(sent.error))
                && (sent.Ok? ==> r.value == Ok(Ledger.Costed(Ledger.CohereCallCost, Ledger.FirstEmbedding(sent.value))))
    {
      monitor.AddCost(Ledger.CohereCallCost);
      if monitor.exited {
        return None;
      }
      var text := EmbeddingText();
      if text.Err? {
        return Some(Err(text.error));
      }
      var costed := Ledger.GenerateCohereEmbedding(monitor, embed, CohereModel, text.value);
      if monitor.exited {
        return None;
      }
      r := Some(costed);
    }
  }

  /** `new Decision(obj)`: the constructor throws before an object exists. */
  method NewDecision(obj: Value) returns (r: Result<Decision>)
    ensures Admit(obj).Err? ==> r.Err? && r.error == Admit(obj).error
    ensures Admit(obj).Ok? ==> && r.Ok? && fresh(r.value)
                               && r.value.metadata == Admit(obj).value.metadata
                               && r.value.documentUrl == DocumentUrlFor(Admit(obj).value)
                               && r.value.documentText.None?
  {
    match Admit(obj)
    case Err(e) =>
      r := Err(e);
    case Ok(s) =>
      var d := new Decision(s);
      r := Ok(d);
  }
}
