/**
 * The command-line pipeline's `Decision` (`src/decision.ts`): no default document URL, a
 * PDF that fails to load is thrown rather than recorded, and the embedding is the sum of
 * the ada embeddings of the text's 2000-token chunks.
 */
module LegacyDecision {
  import opened Base
  import opened Strs
  import opened Js
  import opened Vectors
  import opened TextExtraction
  import opened DecisionRecord
  import opened Ledger

  const UrlNotSetMessage := "Document URL not set"
  const MaxTokensPerRequest: nat := 2000
  const EmbeddingModel := "text-embedding-ada-002"

  // ---------------------------------------------------------------------------------
  // Loading the document

  datatype Loaded = Loaded(outcome: Outcome, metadata: map<string, Value>, text: Option<string>)

  predicate NoDocument(url: Value)
  {
    url == Str("") || url.Null? || url == Str("null")
  }

  /** `loadDocument` from the URL, metadata and text it starts with.  Nothing is caught: a
      PDF that does not load, a page that cannot be read, missing metadata and an XMP part
      that is `null` all throw, the last two after the text was stored. */
  function Load(url: Value, metadata: map<string, Value>, text: Option<string>, pdf: PdfLoader): Loaded
  {
    if url.Undefined? then Loaded(Fail(Error(UrlNotSetMessage)), metadata, text)
    else if NoDocument(url) then Loaded(Pass, metadata, Some(""))
    else
      match pdf(ToString(url))
      case Err(e) => Loaded(Fail(e), metadata, text)
      case Ok(doc) =>
        match PageTexts(doc.pages)
        case Err(e) => Loaded(Fail(e), metadata, text)
        case Ok(texts) =>
          var joined := Some(Join(texts, " "));
          match doc.metadata
          case Err(e) => Loaded(Fail(e), metadata, joined)
          case Ok(md) =>
            if md.metadata.None? then Loaded(Fail(Error(TypeErrorMessage)), metadata, joined)
            else Loaded(Pass, metadata + XmpEntries(md) + Prefixed(InfoPrefix, md.info), joined)
  }

  /** A decision whose source gave no URL cannot be loaded: there is no default here. */
  lemma NoUrlNoLoad(metadata: map<string, Value>, text: Option<string>, pdf: PdfLoader)
    ensures Load(Undefined, metadata, text, pdf) == Loaded(Fail(Error(UrlNotSetMessage)), metadata, text)
  {
  }

  /** Without a document the text is empty and the metadata is left alone. */
  lemma NoDocumentSkipped(url: Value, metadata: map<string, Value>, text: Option<string>, pdf: PdfLoader)
    requires NoDocument(url)
    ensures Load(url, metadata, text, pdf) == Loaded(Pass, metadata, Some(""))
  {
  }

  /** A load that succeeds stores the page texts joined with single spaces, and every
      failure to fetch the document leaves the decision exactly as it was. */
  lemma LoadedText(url: Value, metadata: map<string, Value>, text: Option<string>, pdf: PdfLoader)
    requires !url.Undefined? && !NoDocument(url)
    ensures var r := Load(url, metadata, text, pdf);
            && (r.outcome == Pass ==> PageTexts(pdf(ToString(url)).value.pages).Ok? &&
                                      r.text == Some(Join(PageTexts(pdf(ToString(url)).value.pages).value, " ")))
            && (pdf(ToString(url)).Err? ==> r == Loaded(Fail(pdf(ToString(url)).error), metadata, text))
  {
  }

  // ---------------------------------------------------------------------------------
  // The text embedded for a decision

  /** The `embeddingText` template, once the text is loaded. */
  function EmbeddingInput(subject: Value, text: string): string
  {
    "\n            DOCUMENT\n            SUBJECT: " + ToString(subject)
    + "\n            TEXT START\n            " + text + "\n            TEXT END\n        "
  }

  /** The document text sits between the TEXT START and TEXT END lines, so two decisions
      with the same subject get the same input only when their texts are equal. */
  lemma EmbeddingInputsApart(subject: Value, t1: string, t2: string)
    requires EmbeddingInput(subject, t1) == EmbeddingInput(subject, t2)
    ensures t1 == t2
  {
    var p := "\n            DOCUMENT\n            SUBJECT: " + ToString(subject) + "\n            TEXT START\n            ";
    var q := "\n            TEXT END\n        ";
    assert EmbeddingInput(subject, t1) == p + t1 + q;
    assert EmbeddingInput(subject, t2) == p + t2 + q;
    assert |t1| == |t2|;
    assert t1 == (p + t1 + q)[|p|..|p| + |t1|];
    assert t2 == (p + t2 + q)[|p|..|p| + |t2|];
  }

  // ---------------------------------------------------------------------------------
  // Token chunks

  /** The encoding cut into consecutive chunks of `MaxTokensPerRequest` tokens, the last
      one shorter when the length is not a multiple. */
  function Chunks(encoding: seq<int>): seq<seq<int>>
    decreases |encoding|
  {
    if |encoding| == 0 then []
    else
      var m := Min(MaxTokensPerRequest, |encoding|);
      [encoding[..m]] + Chunks(encoding[m..])
  }

  function Concat(chunks: seq<seq<int>>): seq<int>
  {
    if |chunks| == 0 then [] else chunks[0] + Concat(chunks[1..])
  }

  /** The chunks put back together are the encoding. */
  lemma {:induction false} ChunksConcat(encoding: seq<int>)
    ensures Concat(Chunks(encoding)) == encoding
    decreases |encoding|
  {
    if |encoding| > 0 {
      var m := Min(MaxTokensPerRequest, |encoding|);
      ChunksConcat(encoding[m..]);
      assert Chunks(encoding)[1..] == Chunks(encoding[m..]);
      assert encoding[..m] + encoding[m..] == encoding;
    }
  }

  /** There are ceil(n / 2000) chunks for n tokens. */
  lemma {:induction false} ChunksCount(encoding: seq<int>)
    ensures |Chunks(encoding)| == (|encoding| + MaxTokensPerRequest - 1) / MaxTokensPerRequest
    decreases |encoding|
  {
    if |encoding| > 0 {
      var m := Min(MaxTokensPerRequest, |encoding|);
      ChunksCount(encoding[m..]);
    }
  }

  /** Chunk i holds tokens 2000·i up to 2000·(i+1), or to the end. */
  lemma {:induction false} ChunkAt(encoding: seq<int>, i: nat)
    requires i < |Chunks(encoding)|
    ensures MaxTokensPerRequest * i < |encoding|
    ensures Chunks(encoding)[i] == encoding[MaxTokensPerRequest * i .. Min(MaxTokensPerRequest * (i + 1), |encoding|)]
    decreases i
  {
    var m := Min(MaxTokensPerRequest, |encoding|);
    if i > 0 {
      ChunkAt(encoding[m..], i - 1);
      assert m == MaxTokensPerRequest;
      assert encoding[m..][MaxTokensPerRequest * (i - 1) .. Min(MaxTokensPerRequest * i, |encoding| - m)]
          == encoding[MaxTokensPerRequest * i .. Min(MaxTokensPerRequest * (i + 1), |encoding|)];
    }
  }

  /** Every chunk holds between 1 and 2000 tokens. */
  lemma ChunkSizes(encoding: seq<int>, i: nat)
    requires i < |Chunks(encoding)|
    ensures 1 <= |Chunks(encoding)[i]| <= MaxTokensPerRequest
  {
    ChunkAt(encoding, i);
  }

  /** The loop of `generateEmbedding` that pushes `encoding.slice(i, i + 2000)` for
      i = 0, 2000, 4000, ... while i is below the length. */
  method ChunkTokens(encoding: seq<int>) returns (chunks: seq<seq<int>>)
    ensures chunks == Chunks(encoding)
  {
    chunks := [];
    var i := 0;
    while i < |encoding|
      invariant 0 <= i
      invariant chunks + Chunks(encoding[Min(i, |encoding|)..]) == Chunks(encoding)
      decreases |encoding| - i
    {
      var end := Min(i + MaxTokensPerRequest, |encoding|);
      assert encoding[i..][..Min(MaxTokensPerRequest, |encoding| - i)] == encoding[i..end];
      assert encoding[i..][Min(MaxTokensPerRequest, |encoding| - i)..] == encoding[end..];
      chunks := chunks + [encoding[i..end]];
      i := i + MaxTokensPerRequest;
      assert Min(i, |encoding|) == end;
    }
    assert encoding[Min(i, |encoding|)..] == [];
  }

  // ---------------------------------------------------------------------------------
  // The class

  /** The embeddings service's answer: one embedding per input chunk and the tokens billed. */
  datatype EmbeddingResponse = EmbeddingResponse(embeddings: seq<Vector>, totalTokens: real)

  class Decision {
    var metadata: map<string, Value>
    var documentUrl: Value
    var documentText: Option<string>

    constructor (s: Source)
      ensures metadata == s.metadata && documentUrl == s.documentUrl && documentText.None?
    {
      metadata := s.metadata;
      documentUrl := s.documentUrl;
      documentText := None;
    }

    /** `loadDocument`. */
    method LoadDocument(pdf: PdfLoader) returns (r: Outcome)
      modifies this`metadata, this`documentText
      ensures Loaded(r, metadata, documentText) == Load(documentUrl, old(metadata), old(documentText), pdf)
    {
      if documentUrl.Undefined? {
        return Fail(Error(UrlNotSetMessage));
      }
      if NoDocument(documentUrl) {
        documentText := Some("");
        return Pass;
      }
      var loaded := pdf(ToString(documentUrl));
      if loaded.Err? {
        return Fail(loaded.error);
      }
      var doc := loaded.value;
      var read := ReadPages(doc);
      if read.Err? {
        return Fail(read.error);
      }
      documentText := Some(Join(read.value, " "));
      match doc.metadata
      case Err(e) =>
        r := Fail(e);
      case Ok(md) =>
        if md.metadata.None? {
          return Fail(Error(TypeErrorMessage));
        }
        metadata := metadata + Prefixed(MetadataPrefix, md.metadata.value);
        metadata := metadata + Prefixed(InfoPrefix, md.info);
        r := Pass;
    }

    /** The `metadata` getter: the stored fields as they are. */
    function Metadata(): (r: map<string, Value>)
      reads this
      ensures r == metadata
    {
      metadata
    }

    /** The `documentText` getter. */
    function DocumentText(): (r: Result<string>)
      reads this
      ensures r.Err? <==> documentText.None?
      ensures r.Err? ==> r.error == Error(TextNotLoadedMessage)
      ensures r.Ok? ==> r.value == documentText.value
    {
      if documentText.None? then Err(Error(TextNotLoadedMessage)) else Ok(documentText.value)
    }

    /** The `embeddingText` getter: it throws until the text is loaded. */
    function EmbeddingText(): (r: Result<string>)
      reads this
      ensures r.Err? <==> documentText.None?
      ensures r.Ok? ==> r.value == EmbeddingInput(Subject(metadata), documentText.value)
    {
      match DocumentText()
      case Err(e) => Err(e)
      case Ok(text) => Ok(EmbeddingInput(Subject(metadata), text))
    }

    /** `generateEmbedding`: the text's tokens are sent in chunks in one request, the
        billed tokens are charged to the ledger, and the chunk embeddings are summed.
        `None` is the process exiting because the ledger passed its ceiling. */
    method GenerateEmbedding(monitor: EmbeddingUsageMonitor, encode: string -> seq<int>,
                             embed: seq<seq<int>> -> Result<EmbeddingResponse>) returns (r: Option<Result<Vector>>)
      requires !monitor.exited
      modifies monitor`totalCost, monitor`exited
      ensures EmbeddingText().Err? ==> r == Some(Err(EmbeddingText().error)) && unchanged(monitor)
      ensures EmbeddingText().Ok? ==> var sent := embed(Chunks(encode(EmbeddingText().value)));
              && (sent.Err? ==> r == Some(Err(sent.error)) && unchanged(monitor))
              && (sent.Ok? && EmbeddingModel in monitor.prices ==>
                    && monitor.totalCost == old(monitor.totalCost) + sent.value.totalTokens * monitor.prices[EmbeddingModel]
                    && (monitor.exited <==> Exceeds(monitor.totalCost, monitor.maxCost))
                    && (monitor.exited <==> r.None?))
              && (sent.Ok? && EmbeddingModel !in monitor.prices ==>
                    r == Some(Err(Error("Unknown model " + EmbeddingModel))) && unchanged(monitor))
              && (sent.Ok? && EmbeddingModel in monitor.prices && r.Some? && !EqualSizes(sent.value.embeddings) ==>
                    r == Some(Err(Error(UnequalSizesMessage))))
              && (sent.Ok? && EmbeddingModel in monitor.prices && r.Some? && |sent.value.embeddings| == 0 ==>
                    r == Some(Err(Error(TypeErrorMessage))))
              && (sent.Ok? && r.Some? && r.value.Ok? ==>
                    var vs := sent.value.embeddings;
                    && EqualSizes(vs) && |vs| > 0 && |r.value.value| == |vs[0]|
                    && forall i :: 0 <= i < |vs[0]| ==> r.value.value[i] == ColumnSum(vs, i))
    {
      var text := EmbeddingText();
      if text.Err? {
        return Some(Err(text.error));
      }
      var chunks := ChunkTokens(encode(text.value));
      var response := embed(chunks);
      if response.Err? {
        return Some(Err(response.error));
      }
      var charged := monitor.AddTokens(EmbeddingModel, response.value.totalTokens);
      if charged.Fail? {
        return Some(Err(charged.error));
      }
      if monitor.exited {
        return None;
      }
      var combined := CombineEmbeddings(response.value.embeddings);
      r := Some(combined);
    }
  }

  /** `new Decision(obj)`: the constructor throws before an object exists. */
  method NewDecision(obj: Value) returns (r: Result<Decision>)
    ensures Admit(obj).Err? ==> r.Err? && r.error == Admit(obj).error
    ensures Admit(obj).Ok? ==> && r.Ok? && fresh(r.value)
                               && r.value.metadata == Admit(obj).value.metadata
                               && r.value.documentUrl == Admit(obj).value.documentUrl
                               && r.value.documentText.None?
  {
    match Admit(obj)
    case Err(e) =>
      r := Err(e);
    case Ok(s) =>
      var d := new Decision(s);
      r := Ok(d);
  }
}
