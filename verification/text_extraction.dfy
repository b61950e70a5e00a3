/**
 * The simple text extractor: it reads the decisions of one ingestor task in pages of 50,
 * downloads each decision's PDF, joins the text of its pages, records what it learnt about
 * the document, and stores one text row per decision.
 */
module TextExtraction {
  import opened Base
  import opened Strs
  import opened Js
  import opened Db
  import opened PgParams
  import opened Tasks

  const Implementation := "simple-text-extractor"
  const BatchSize: nat := 50
  const ParamsNotSetMessage := "Simple text extractor params are not set"
  const MissingParamsMessage := "Missing required params: ingestorTaskId"

  // ---------------------------------------------------------------------------------
  // The PDF library

  /** An item of a page's text content: a string run, or an item without `str`. */
  datatype TextItem = TextRun(str: string) | MarkedContent

  /** `getMetadata()`: the XMP metadata when present, and the info dictionary. */
  datatype PdfMetadata = PdfMetadata(metadata: Option<map<string, Value>>, info: map<string, Value>)

  /** A loaded document: one result per `getPage(i).getTextContent()`, and the result of
      `getMetadata()`; `numPages` is the number of pages. */
  datatype PdfDocument = PdfDocument(pages: seq<Result<seq<TextItem>>>, metadata: Result<PdfMetadata>)

  /** `getDocument({url: encodeURI(url)}).promise`, given `String(url)`. */
  type PdfLoader = string -> Result<PdfDocument>

  function ItemText(item: TextItem): string
  {
    match item
    case TextRun(s) => s
    case MarkedContent => ""
  }

  /** A page's text: its items' strings joined with single spaces. */
  function PageText(items: seq<TextItem>): string
  {
    Join(seq(|items|, i requires 0 <= i < |items| => ItemText(items[i])), " ")
  }

  /** The text of every page in order, or the error of the first page that fails. */
  function PageTexts(pages: seq<Result<seq<TextItem>>>): (r: Result<seq<string>>)
    ensures r.Ok? <==> forall i :: 0 <= i < |pages| ==> pages[i].Ok?
    ensures r.Ok? ==> |r.value| == |pages| && forall i :: 0 <= i < |pages| ==> r.value[i] == PageText(pages[i].value)
    ensures r.Err? ==> exists i :: 0 <= i < |pages| && pages[i] == Err(r.error)
  {
    if |pages| == 0 then Ok([])
    else
      var init := pages[..|pages| - 1];
      assert forall i :: 0 <= i < |init| ==> init[i] == pages[i];
      match PageTexts(init)
      case Err(e) => Err(e)
      case Ok(texts) =>
        match pages[|pages| - 1]
        case Err(e) => Err(e)
        case Ok(items) => Ok(texts + [PageText(items)])
  }

  /** Once a prefix of the pages fails, the whole document fails with the same error. */
  lemma {:induction false} PageTextsStops(pages: seq<Result<seq<TextItem>>>, n: nat)
    requires n <= |pages| && PageTexts(pages[..n]).Err?
    ensures PageTexts(pages) == PageTexts(pages[..n])
    decreases |pages|
  {
    if n < |pages| {
      var init := pages[..|pages| - 1];
      assert init[..n] == pages[..n];
      PageTextsStops(init, n);
    } else {
      assert pages[..n] == pages;
    }
  }

  /** The page loop: each page's text in order, or the error of the first page that cannot
      be read. */
  method ReadPages(doc: PdfDocument) returns (r: Result<seq<string>>)
    ensures r == PageTexts(doc.pages)
  {
    var pageTexts: seq<string> := [];
    var i := 0;
    while i < |doc.pages|
      invariant 0 <= i <= |doc.pages|
      invariant PageTexts(doc.pages[..i]) == Ok(pageTexts)
    {
      var page := doc.pages[i];
      assert doc.pages[..i + 1][..i] == doc.pages[..i];
      if page.Err? {
        PageTextsStops(doc.pages, i + 1);
        return Err(page.error);
      }
      pageTexts := pageTexts + [PageText(page.value)];
      i := i + 1;
    }
    assert doc.pages[..i] == doc.pages;
    r := Ok(pageTexts);
  }

  lemma PrefixInjective(prefix: string, k1: string, k2: string)
    requires prefix + k1 == prefix + k2
    ensures k1 == k2
  {
    assert k1 == (prefix + k1)[|prefix|..];
    assert k2 == (prefix + k2)[|prefix|..];
  }

  /** `for (let key in obj) result[prefix + key] = obj[key]`, as the entries it adds. */
  function Prefixed(prefix: string, m: map<string, Value>): (r: map<string, Value>)
    ensures forall k {:trigger m[k]} :: k in m ==> prefix + k in r && r[prefix + k] == m[k]
    ensures forall k :: k in r ==> prefix <= k && k[|prefix|..] in m
  {
    forall k1, k2 | k1 in m && k2 in m && prefix + k1 == prefix + k2 ensures m[k1] == m[k2] {
      PrefixInjective(prefix, k1, k2);
    }
    var r := map k | k in m :: prefix + k := m[k];
    assert forall k :: k in m ==> prefix + k in r && r[prefix + k] == m[k] by {
      forall k | k in m ensures prefix + k in r && r[prefix + k] == m[k] {
        assert prefix + k in r;
        var k' :| k' in m && prefix + k' == prefix + k && r[prefix + k] == m[k'];
        PrefixInjective(prefix, k, k');
      }
    }
    assert forall k :: k in r ==> prefix <= k && k[|prefix|..] in m by {
      forall k | k in r ensures prefix <= k && k[|prefix|..] in m {
        var k' :| k' in m && k == prefix + k';
        assert k[|prefix|..] == k';
      }
    }
    r
  }

  const MetadataPrefix := "pdfMetadata_"
  const InfoPrefix := "pdfInfo_"

  /** The metadata object of a document that loaded: the page count, the failure flag, the
      XMP entries under `pdfMetadata_` and the info entries under `pdfInfo_`. */
  function DocumentMetadata(pageCount: nat, failure: bool, md: PdfMetadata): map<string, Value>
  {
    map["pageCount" := Num(pageCount), "textExtractionFailure" := Bool(failure)]
    + XmpEntries(md) + Prefixed(InfoPrefix, md.info)
  }

  /** An info key is neither of the two fixed keys nor an XMP key. */
  lemma InfoKeyApart(k: string)
    requires InfoPrefix <= k
    ensures k != "pageCount" && k != "textExtractionFailure" && !(MetadataPrefix <= k)
  {
    assert k[1] == 'd' && k[3] == 'I';
  }

  /** An XMP key is neither of the two fixed keys. */
  lemma MetadataKeyApart(k: string)
    requires MetadataPrefix <= k
    ensures k != "pageCount" && k != "textExtractionFailure"
  {
    assert k[1] == 'd';
  }

  function XmpEntries(md: PdfMetadata): map<string, Value>
  {
    if md.metadata.Some? then Prefixed(MetadataPrefix, md.metadata.value) else map[]
  }

  /** The page count and the failure flag are never overwritten by a PDF entry. */
  lemma FixedFieldsKept(pageCount: nat, failure: bool, md: PdfMetadata)
    ensures var r := DocumentMetadata(pageCount, failure, md);
            && "pageCount" in r && r["pageCount"] == Num(pageCount)
            && "textExtractionFailure" in r && r["textExtractionFailure"] == Bool(failure)
  {
    var xmp, info := XmpEntries(md), Prefixed(InfoPrefix, md.info);
    if "pageCount" in info { InfoKeyApart("pageCount"); }
    if "textExtractionFailure" in info { InfoKeyApart("textExtractionFailure"); }
    if "pageCount" in xmp { MetadataKeyApart("pageCount"); }
    if "textExtractionFailure" in xmp { MetadataKeyApart("textExtractionFailure"); }
  }

  /** Every XMP entry can be read back under its prefixed key. */
  lemma XmpFieldsKept(pageCount: nat, failure: bool, md: PdfMetadata, k: string)
    requires md.metadata.Some? && k in md.metadata.value
    ensures var r := DocumentMetadata(pageCount, failure, md);
            MetadataPrefix + k in r && r[MetadataPrefix + k] == md.metadata.value[k]
  {
    var info := Prefixed(InfoPrefix, md.info);
    if MetadataPrefix + k in info {
      InfoKeyApart(MetadataPrefix + k);
    }
  }

  /** Every info entry can be read back under its prefixed key. */
  lemma InfoFieldsKept(pageCount: nat, failure: bool, md: PdfMetadata, k: string)
    requires k in md.info
    ensures var r := DocumentMetadata(pageCount, failure, md);
            InfoPrefix + k in r && r[InfoPrefix + k] == md.info[k]
  {
  }

  /** The metadata object holds nothing but the four groups. */
  lemma NoOtherFields(pageCount: nat, failure: bool, md: PdfMetadata, k: string)
    requires k in DocumentMetadata(pageCount, failure, md)
    ensures || k == "pageCount" || k == "textExtractionFailure"
            || (md.metadata.Some? && MetadataPrefix <= k && k[|MetadataPrefix|..] in md.metadata.value)
            || (InfoPrefix <= k && k[|InfoPrefix|..] in md.info)
  {
  }

  // ---------------------------------------------------------------------------------
  // One document

  /** `extractTextAndMetadata`: the text (`None` for `null`) and the metadata object of one
      decision, or the error it throws. */
  function Extraction(metadata: Value, pdf: PdfLoader): Result<(Option<string>, Value)>
  {
    if metadata.Undefined? || metadata.Null? then Err(Error(TypeErrorMessage))
    else ExtractionAt(Get(metadata, "documentUrl").value, pdf)
  }

  /** What `extractTextAndMetadata` does once it has a document URL: no text for a falsy URL,
      a failure flag for a document that will not load, and the text of one that does. */
  function ExtractionAt(url: Value, pdf: PdfLoader): (r: Result<(Option<string>, Value)>)
    ensures !Truthy(url) ==> r == Ok((None, Obj(map["hasDocument" := Bool(false)])))
    ensures Truthy(url) && pdf(ToString(url)).Err? ==> r == Ok((None, Obj(map["textExtractionFailure" := Bool(true)])))
    ensures Truthy(url) && pdf(ToString(url)).Ok? ==> r.Err? || r.value.0.Some?
  {
    if !Truthy(url) then Ok((None, Obj(map["hasDocument" := Bool(false)])))
    else
      match pdf(ToString(url))
      case Err(_) => Ok((None, Obj(map["textExtractionFailure" := Bool(true)])))
      case Ok(doc) =>
        match PageTexts(doc.pages)
        case Err(e) => Err(e)
        case Ok(texts) =>
          var failure := IsWhitespace(Join(texts, ""));
          match doc.metadata
          case Err(e) => Err(e)
          case Ok(md) =>
            Ok((Some(Join(if failure then [] else texts, "\n")), Obj(DocumentMetadata(|doc.pages|, failure, md))))
  }

  /** The imperative `extractTextAndMetadata`: the page loop collects each page's text. */
  method ExtractTextAndMetadata(metadata: Value, pdf: PdfLoader) returns (r: Result<(Option<string>, Value)>)
    ensures r == Extraction(metadata, pdf)
  {
    if metadata.Undefined? || metadata.Null? {
      return Err(Error(TypeErrorMessage));
    }
    var documentUrl := Get(metadata, "documentUrl").value;
    if !Truthy(documentUrl) {
      return Ok((None, Obj(map["hasDocument" := Bool(false)])));
    }
    var loaded := pdf(ToString(documentUrl));
    if loaded.Err? {
      return Ok((None, Obj(map["textExtractionFailure" := Bool(true)])));
    }
    var doc := loaded.value;
    var read := ReadPages(doc);
    if read.Err? {
      return Err(read.error);
    }
    var pageTexts := read.value;
    var failure := IsWhitespace(Join(pageTexts, ""));
    if failure {
      pageTexts := [];
    }
    var text := Join(pageTexts, "\n");
    match doc.metadata
    case Err(e) =>
      r := Err(e);
    case Ok(md) =>
      r := Ok((Some(text), Obj(DocumentMetadata(|doc.pages|, failure, md))));
  }

  /** Joining with line breaks leaves a text blank exactly when joining with nothing does,
      since a line break is itself white space. */
  lemma {:induction false} JoinBlank(xs: seq<string>)
    ensures IsWhitespace(Join(xs, "\n")) <==> IsWhitespace(Join(xs, ""))
  {
    if |xs| > 1 {
      JoinBlank(xs[1..]);
      WhitespaceAppend(xs[0] + "\n", Join(xs[1..], "\n"));
      WhitespaceAppend(xs[0], "\n");
      WhitespaceAppend(xs[0] + "", Join(xs[1..], ""));
      assert xs[0] + "" == xs[0];
    }
  }

  /** A document that loaded is flagged as a failure exactly when its stored text is blank;
      a flagged document stores the empty text and any other stores its pages' texts joined
      with line breaks. */
  lemma FailureFlagsBlankText(metadata: Value, pdf: PdfLoader)
    requires Extraction(metadata, pdf).Ok? && Extraction(metadata, pdf).value.0.Some?
    ensures var (text, m) := Extraction(metadata, pdf).value;
            var doc := pdf(ToString(Get(metadata, "documentUrl").value)).value;
            && m.Obj? && m.fields["textExtractionFailure"] == Bool(IsWhitespace(text.value))
            && m.fields["pageCount"] == Num(|doc.pages|)
            && (IsWhitespace(text.value) ==> text.value == "")
            && (!IsWhitespace(text.value) ==> text.value == Join(PageTexts(doc.pages).value, "\n"))
  {
    var doc := pdf(ToString(Get(metadata, "documentUrl").value)).value;
    var texts := PageTexts(doc.pages).value;
    JoinBlank(texts);
    FixedFieldsKept(|doc.pages|, IsWhitespace(Join(texts, "")), doc.metadata.value);
  }

  /** No text is stored only for a decision without a document URL or whose document would
      not load, and the metadata then says which of the two happened and nothing else. */
  lemma NoTextExplained(metadata: Value, pdf: PdfLoader)
    requires Extraction(metadata, pdf).Ok? && Extraction(metadata, pdf).value.0.None?
    ensures var m := Extraction(metadata, pdf).value.1;
            var url := Get(metadata, "documentUrl").value;
            || (!Truthy(url) && m == Obj(map["hasDocument" := Bool(false)]))
            || (Truthy(url) && pdf(ToString(url)).Err? && m == Obj(map["textExtractionFailure" := Bool(true)]))
  {
  }

  /** Extraction throws only for a decision without metadata, or for a document that loaded
      but one of whose pages, or whose metadata, could not be read. */
  lemma ExtractionThrows(metadata: Value, pdf: PdfLoader)
    requires Extraction(metadata, pdf).Err?
    ensures || metadata.Undefined? || metadata.Null?
            || (var url := Get(metadata, "documentUrl").value;
                && Truthy(url) && pdf(ToString(url)).Ok?
                && (var doc := pdf(ToString(url)).value;
                    (exists i :: 0 <= i < |doc.pages| && doc.pages[i] == Err(Extraction(metadata, pdf).error))
                    || doc.metadata == Err(Extraction(metadata, pdf).error)))
  {
  }

  // ---------------------------------------------------------------------------------
  // A page of decisions

  /** `DocumentText`; `decisionAda` is never set by this extractor. */
  datatype DocumentText = DocumentText(decisionId: Value, text: Option<string>, metadata: Value)

  function DocumentOf(input: DecisionInput, pdf: PdfLoader): Result<DocumentText>
  {
    match Extraction(input.metadata, pdf)
    case Err(e) => Err(e)
    case Ok((text, metadata)) => Ok(DocumentText(Num(input.id), text, metadata))
  }

  /** What the page loop does with one decision.  The loop's properties hold for any
      extractor; the stage's own is `Documents(pdf)`. */
  type Extractor = DecisionInput -> Result<DocumentText>

  function Documents(pdf: PdfLoader): Extractor
  {
    input => DocumentOf(input, pdf)
  }

  /** Every document an extractor produces names the decision it came from. */
  ghost predicate NamesDecisions(extract: Extractor)
  {
    forall input :: extract(input).Ok? ==> extract(input).value.decisionId == Num(input.id)
  }

  lemma DocumentsNameDecisions(pdf: PdfLoader)
    ensures NamesDecisions(Documents(pdf))
  {
    forall input | Documents(pdf)(input).Ok?
      ensures Documents(pdf)(input).value.decisionId == Num(input.id)
    {
      assert Documents(pdf)(input) == DocumentOf(input, pdf);
    }
  }

  /** The documents of some decisions in order, or the error of the first that fails. */
  function Extracted(extract: Extractor, inputs: seq<DecisionInput>): (r: Result<seq<DocumentText>>)
    ensures r.Ok? <==> forall i :: 0 <= i < |inputs| ==> extract(inputs[i]).Ok?
    ensures r.Ok? ==> |r.value| == |inputs|
    ensures r.Ok? ==> forall i :: 0 <= i < |inputs| ==> r.value[i] == extract(inputs[i]).value
  {
    if |inputs| == 0 then Ok([])
    else
      var init := inputs[..|inputs| - 1];
      assert forall i :: 0 <= i < |init| ==> init[i] == inputs[i];
      match Extracted(extract, init)
      case Err(e) => Err(e)
      case Ok(docs) =>
        match extract(inputs[|inputs| - 1])
        case Err(e) => Err(e)
        case Ok(d) => Ok(docs + [d])
  }

  /** The error of a failed batch is that of its first failing decision. */
  lemma {:induction false} ExtractedFirstFailure(extract: Extractor, inputs: seq<DecisionInput>)
    requires Extracted(extract, inputs).Err?
    ensures exists i :: 0 <= i < |inputs| && extract(inputs[i]) == Err(Extracted(extract, inputs).error)
              && Extracted(extract, inputs[..i]).Ok?
  {
    var init := inputs[..|inputs| - 1];
    if Extracted(extract, init).Err? {
      ExtractedFirstFailure(extract, init);
      var i :| 0 <= i < |init| && extract(init[i]) == Err(Extracted(extract, init).error)
                && Extracted(extract, init[..i]).Ok?;
      assert init[..i] == inputs[..i];
    } else {
      assert inputs[..|inputs| - 1] == init;
    }
  }

  /** Extracting two runs of decisions one after the other is extracting them together. */
  lemma {:induction false} ExtractedAppend(extract: Extractor, a: seq<DecisionInput>, b: seq<DecisionInput>)
    requires Extracted(extract, a).Ok?
    ensures Extracted(extract, a + b) ==
      match Extracted(extract, b)
      case Err(e) => Err(e)
      case Ok(docs) => Ok(Extracted(extract, a).value + docs)
    decreases |b|
  {
    var xs := Extracted(extract, a).value;
    if |b| == 0 {
      assert a + b == a;
      assert xs + [] == xs;
    } else {
      var init := b[..|b| - 1];
      assert (a + b)[..|a + b| - 1] == a + init;
      assert (a + b)[|a + b| - 1] == b[|b| - 1];
      ExtractedAppend(extract, a, init);
      match Extracted(extract, init) {
        case Err(e) =>
        case Ok(ys) =>
          match extract(b[|b| - 1]) {
            case Err(e) =>
            case Ok(d) =>
              assert xs + ys + [d] == xs + (ys + [d]);
          }
      }
    }
  }

  /** The inner loop of `run`: one document per decision of the page, in order. */
  method ExtractPage(rows: seq<DecisionInput>, pdf: PdfLoader) returns (r: Result<seq<DocumentText>>)
    ensures r == Extracted(Documents(pdf), rows)
  {
    var texts: seq<DocumentText> := [];
    var i := 0;
    while i < |rows|
      invariant 0 <= i <= |rows|
      invariant Extracted(Documents(pdf), rows[..i]) == Ok(texts)
    {
      assert rows[..i + 1][..i] == rows[..i];
      var extracted := ExtractTextAndMetadata(rows[i].metadata, pdf);
      if extracted.Err? {
        ExtractedStops(Documents(pdf), rows, i + 1);
        return Err(extracted.error);
      }
      texts := texts + [DocumentText(Num(rows[i].id), extracted.value.0, extracted.value.1)];
      i := i + 1;
    }
    assert rows[..i] == rows;
    r := Ok(texts);
  }

  lemma {:induction false} ExtractedStops(extract: Extractor, inputs: seq<DecisionInput>, n: nat)
    requires n <= |inputs| && Extracted(extract, inputs[..n]).Err?
    ensures Extracted(extract, inputs) == Extracted(extract, inputs[..n])
    decreases |inputs|
  {
    if n < |inputs| {
      var init := inputs[..|inputs| - 1];
      assert init[..n] == inputs[..n];
      ExtractedStops(extract, init, n);
    } else {
      assert inputs[..n] == inputs;
    }
  }

  // ---------------------------------------------------------------------------------
  // Saving

  /** `text?.replaceAll(/\x00/g, '')`: NUL characters are dropped and `null` stays `null`. */
  function WithoutNul(text: Option<string>): (r: Option<string>)
    ensures r.None? <==> text.None?
    ensures r.Some? ==> '\0' !in r.value
    ensures r.Some? && '\0' !in text.value ==> r.value == text.value
  {
    match text
    case None => None
    case Some(s) =>
      if '\0' in s then Some(RemoveChar(s, '\0'))
      else
        RemoveCharAbsent(s, '\0');
        Some(RemoveChar(s, '\0'))
  }

  /** The rows `saveTexts` inserts: the decision's ADA is NULL, since it is never set. */
  function TextRows(taskId: nat, texts: seq<DocumentText>): (r: seq<TextRow>)
    ensures |r| == |texts|
    ensures forall i :: 0 <= i < |texts| ==>
      r[i] == TextRow(taskId, Null, texts[i].decisionId, WithoutNul(texts[i].text), texts[i].metadata)
  {
    if |texts| == 0 then []
    else TextRows(taskId, texts[..|texts| - 1])
         + [TextRow(taskId, Null, texts[|texts| - 1].decisionId, WithoutNul(texts[|texts| - 1].text), texts[|texts| - 1].metadata)]
  }

  /** What the summarizer and the embedders read back for texts this task saved, when the
      table held no row of the task before: one input per saved text, in order, with the
      NUL-free text (NULL when there is none) and its decision's ADA and metadata. */
  lemma TextsReadBack(before: seq<TextRow>, decisions: seq<DecisionRow>, taskId: nat, texts: seq<DocumentText>, base: nat)
    requires forall k :: 0 <= k < |before| ==> before[k].textExtractorTaskId != taskId
    ensures var r := TextInputs(before + TextRows(taskId, texts), decisions, taskId, base);
            && |r| == |texts|
            && forall k :: 0 <= k < |texts| ==>
                 var d := DecisionById(decisions, texts[k].decisionId);
                 && r[k].id == base + |before| + k + 1
                 && r[k].text == TextColumn(WithoutNul(texts[k].text))
                 && r[k].ada == (if d.Some? then d.value.ada else Null)
                 && r[k].decisionMetadata == (if d.Some? then d.value.metadata else Null)
  {
    TextInputsReadBack(before, TextRows(taskId, texts), decisions, taskId, base);
  }

  lemma TextRowsAppend(taskId: nat, a: seq<DocumentText>, b: seq<DocumentText>)
    ensures TextRows(taskId, a + b) == TextRows(taskId, a) + TextRows(taskId, b)
  {
    assert forall i :: 0 <= i < |a + b| ==>
      TextRows(taskId, a + b)[i] == (TextRows(taskId, a) + TextRows(taskId, b))[i];
  }

  /** `saveTexts`: one INSERT per text, in order. */
  method SaveTexts(db: Database, taskId: nat, texts: seq<DocumentText>)
    modifies db`texts
    ensures db.texts == old(db.texts) + TextRows(taskId, texts)
  {
    var i := 0;
    while i < |texts|
      invariant 0 <= i <= |texts|
      invariant db.texts == old(db.texts) + TextRows(taskId, texts[..i])
    {
      var t := texts[i];
      db.texts := db.texts + [TextRow(taskId, Null, t.decisionId, WithoutNul(t.text), t.metadata)];
      TextRowsStep(taskId, texts, i);
      i := i + 1;
    }
    assert texts[..i] == texts;
  }

  lemma TextRowsStep(taskId: nat, texts: seq<DocumentText>, i: nat)
    requires i < |texts|
    ensures TextRows(taskId, texts[..i + 1]) == TextRows(taskId, texts[..i])
              + [TextRow(taskId, Null, texts[i].decisionId, WithoutNul(texts[i].text), texts[i].metadata)]
  {
    assert texts[..i + 1] == texts[..i] + [texts[i]];
    TextRowsAppend(taskId, texts[..i], [texts[i]]);
  }

  // ---------------------------------------------------------------------------------
  // The run

  /** The metrics reported once the first `n` decisions are stored. */
  function Processed(n: nat): Value
  {
    Obj(map["documents_processed" := Num(n)])
  }


  /** Where the page loop stands once the first `n` decisions of `inputs` are stored. */
  ghost predicate Stored(extract: Extractor, inputs: seq<DecisionInput>, taskId: nat, start: seq<TextRow>,
                         startMetrics: Value, n: nat, now: seq<TextRow>, metrics: Value)
  {
    && n <= |inputs|
    && Extracted(extract, inputs[..n]).Ok?
    && now == start + TextRows(taskId, Extracted(extract, inputs[..n]).value)
    && (n == 0 ==> metrics == startMetrics)
    && (n > 0 ==> metrics == Processed(n))
  }

  /** How the page loop over `inputs` ended: it returned with every decision stored, or it
      threw the error of the first failing decision of the page after the last full page
      it stored. */
  ghost predicate PagesEnded(extract: Extractor, inputs: seq<DecisionInput>, taskId: nat, start: seq<TextRow>,
                             startMetrics: Value, n: nat, o: RunOutcome, now: seq<TextRow>, metrics: Value)
  {
    && Stored(extract, inputs, taskId, start, startMetrics, n, now, metrics)
    && !o.Exited?
    && (o.Returned? ==> n == |inputs|)
    && (o.Threw? ==> n % BatchSize == 0 && n < |inputs| && Extracted(extract, Page(inputs, n, BatchSize)) == Err(o.error))
  }

  lemma StoredStep(extract: Extractor, inputs: seq<DecisionInput>, taskId: nat, start: seq<TextRow>,
                   startMetrics: Value, offset: nat, now: seq<TextRow>, metrics: Value, docs: seq<DocumentText>)
    requires offset < |inputs|
    requires Stored(extract, inputs, taskId, start, startMetrics, offset, now, metrics)
    requires Extracted(extract, Page(inputs, offset, BatchSize)) == Ok(docs)
    ensures Stored(extract, inputs, taskId, start, startMetrics, offset + |docs|,
                   now + TextRows(taskId, docs), Processed(offset + |docs|))
    ensures offset + |docs| == Min(offset + BatchSize, |inputs|)
  {
    var before := Extracted(extract, inputs[..offset]).value;
    ExtractedPageStep(extract, inputs, offset, docs);
    RowsStep(taskId, start, before, docs);
  }

  /** A page that extracts has one document per decision, up to the batch size. */
  lemma PageCount(extract: Extractor, inputs: seq<DecisionInput>, offset: nat, docs: seq<DocumentText>)
    requires offset < |inputs|
    requires Extracted(extract, Page(inputs, offset, BatchSize)) == Ok(docs)
    ensures offset + |docs| == Min(offset + BatchSize, |inputs|)
  {
  }

  lemma ExtractedPageStep(extract: Extractor, inputs: seq<DecisionInput>, offset: nat, docs: seq<DocumentText>)
    requires offset < |inputs| && Extracted(extract, inputs[..offset]).Ok?
    requires Extracted(extract, Page(inputs, offset, BatchSize)) == Ok(docs)
    ensures offset + |docs| == Min(offset + BatchSize, |inputs|)
    ensures Extracted(extract, inputs[..offset + |docs|]) == Ok(Extracted(extract, inputs[..offset]).value + docs)
  {
    PageCount(extract, inputs, offset, docs);
    var rows := Page(inputs, offset, BatchSize);
    assert inputs[..offset + |docs|] == inputs[..offset] + rows;
    ExtractedAppend(extract, inputs[..offset], rows);
  }

  lemma RowsStep(taskId: nat, start: seq<TextRow>, before: seq<DocumentText>, docs: seq<DocumentText>)
    ensures start + TextRows(taskId, before) + TextRows(taskId, docs) == start + TextRows(taskId, before + docs)
  {
    TextRowsAppend(taskId, before, docs);
    SeqAssoc(start, TextRows(taskId, before), TextRows(taskId, docs));
  }

  lemma MultipleMod(k: nat)
    ensures (BatchSize * k) % BatchSize == 0
  {
  }

  /** One iteration of the page loop on a non-empty page: extract its documents, then save
      their texts and report how many decisions are done; a failing document stops the
      page before anything of it is saved. */
  method StorePage(task: Task, pdf: PdfLoader, rows: seq<DecisionInput>, offset: nat,
                   ghost inputs: seq<DecisionInput>, ghost start: seq<TextRow>, ghost startMetrics: Value)
      returns (r: Result<nat>)
    requires task.Synced() && offset < |inputs| && rows == Page(inputs, offset, BatchSize)
    requires Stored(Documents(pdf), inputs, task.id.value, start, startMetrics, offset, task.db.texts, task.metrics)
    modifies task`metrics, task`updatedAt, task`id, task.db`tasks, task.db`taskSerial, task.db`clock, task.db`texts
    ensures task.Synced() && task.id == old(task.id)
    ensures r.Err? ==> Extracted(Documents(pdf), rows) == Err(r.error)
    ensures r.Err? ==> task.db.texts == old(task.db.texts) && task.metrics == old(task.metrics)
    ensures r.Ok? ==> r.value == Min(offset + BatchSize, |inputs|)
    ensures r.Ok? ==> Stored(Documents(pdf), inputs, task.id.value, start, startMetrics, r.value, task.db.texts, task.metrics)
  {
    var page := ExtractPage(rows, pdf);
    if page.Err? {
      return Err(page.error);
    }
    var docs := page.value;
    ghost var now, metrics := task.db.texts, task.metrics;
    StoredStep(Documents(pdf), inputs, task.id.value, start, startMetrics, offset, now, metrics, docs);
    SaveTexts(task.db, task.id.value, docs);
    SyncedKept(task);
    task.UpdateMetrics(Processed(offset + |docs|));
    assert task.db.texts == now + TextRows(task.id.value, docs);
    r := Ok(offset + |docs|);
  }

  /** The page loop of `run` over the decisions of the ingestor task.  The REPEATABLE READ
      transaction `run` opens ends at the first page's `saveTexts`, whose COMMIT closes it,
      so later pages are read outside it; the model takes the decisions table to be left
      alone by other writers while the loop runs (this loop writes none), so every page it
      reads is a page of `inputs`, the task's decisions when the loop starts. */
  method RunPages(task: Task, pdf: PdfLoader, inputs: seq<DecisionInput>) returns (o: RunOutcome, ghost n: nat)
    requires task.Synced()
    modifies task`metrics, task`updatedAt, task`id, task.db`tasks, task.db`taskSerial, task.db`clock, task.db`texts
    ensures task.Synced() && task.id == old(task.id)
    ensures PagesEnded(Documents(pdf), inputs, task.id.value, old(task.db.texts), old(task.metrics), n, o, task.db.texts, task.metrics)
  {
    ghost var start, startMetrics := task.db.texts, task.metrics;
    var offset: nat := 0;
    ghost var pages: nat := 0;
    n := 0;
    assert inputs[..0] == [];
    assert start + TextRows(task.id.value, []) == start;
    while true
      invariant task.Synced() && task.id == old(task.id)
      invariant offset == BatchSize * pages && offset <= |inputs| + BatchSize && n == Min(offset, |inputs|)
      invariant Stored(Documents(pdf), inputs, task.id.value, start, startMetrics, n, task.db.texts, task.metrics)
      decreases |inputs| + BatchSize - offset
    {
      var rows := Page(inputs, offset, BatchSize);
      if |rows| == 0 {
        return Returned, n;
      }
      var stored := StorePage(task, pdf, rows, offset, inputs, start, startMetrics);
      if stored.Err? {
        MultipleMod(pages);
        return Threw(stored.error), n;
      }
      n := stored.value;
      offset := offset + BatchSize;
      pages := pages + 1;
    }
  }

  /** How a run with `params` over the decisions table `decisions` ended: refused parameters
      and an unreadable ingestor id change nothing; otherwise the page loop ended as above. */
  ghost predicate RunEnded(extract: Extractor, params: Value, decisions: seq<DecisionRow>, taskId: nat,
                           start: seq<TextRow>, startMetrics: Value, n: nat, o: RunOutcome,
                           now: seq<TextRow>, metrics: Value)
  {
    if !Truthy(params) then
      o == Threw(Error(ParamsNotSetMessage)) && now == start && metrics == startMetrics
    else if !Truthy(Get(params, "ingestorTaskId").value) then
      o == Threw(Error(MissingParamsMessage)) && now == start && metrics == startMetrics
    else
      match IntegerParam(Get(params, "ingestorTaskId").value)
      case Err(e) => o == Threw(e) && now == start && metrics == startMetrics
      case Ok(id) => PagesEnded(extract, DecisionInputs(decisions, id, 0), taskId, start, startMetrics, n, o, now, metrics)
  }

  /** `run`: the parameter checks, then the page loop.  The check that the ingestor task
      exists tests a pending promise, which is always truthy, so it never refuses. */
  method Run(task: Task, pdf: PdfLoader) returns (o: RunOutcome, ghost n: nat)
    requires task.Synced()
    modifies task`metrics, task`updatedAt, task`id, task.db`tasks, task.db`taskSerial, task.db`clock, task.db`texts
    ensures task.Synced() && task.id == old(task.id)
    ensures RunEnded(Documents(pdf), task.params, task.db.decisions, task.id.value, old(task.db.texts), old(task.metrics),
                     n, o, task.db.texts, task.metrics)
  {
    n := 0;
    var params := task.params;
    if !Truthy(params) {
      return Threw(Error(ParamsNotSetMessage)), n;
    }
    var ingestorTaskId := Get(params, "ingestorTaskId").value;
    if !Truthy(ingestorTaskId) {
      return Threw(Error(MissingParamsMessage)), n;
    }
    var id := IntegerParam(ingestorTaskId);
    if id.Err? {
      return Threw(id.error), n;
    }
    var inputs := DecisionInputs(task.db.decisions, id.value, 0);
    o, n := RunPages(task, pdf, inputs);
  }

  /** The second half of `start`: run, then record how the run ended. */
  method RunAndFinish(task: Task, pdf: PdfLoader) returns (r: Outcome, o: RunOutcome, ghost n: nat)
    requires task.Synced()
    modifies task`status, task`metrics, task`updatedAt, task`id, task.db`tasks, task.db`taskSerial, task.db`clock
    modifies task.db`texts
    ensures task.Synced() && task.id == old(task.id)
    ensures RunEnded(Documents(pdf), task.params, task.db.decisions, task.id.value, old(task.db.texts), old(task.metrics),
                     n, o, task.db.texts, task.metrics)
    ensures r == (if o.Returned? then Pass else Fail(o.error))
    ensures task.status == Some(if o.Returned? then Succeeded else Failed)
  {
    o, n := Run(task, pdf);
    r := task.Conclude(o);
  }

  /** `start` for the text extractor: refuse a taken identity, save the task as running,
      run, and record how the run ended. */
  method Start(task: Task, pdf: PdfLoader, params: Value, given: Option<int>)
      returns (r: Outcome, o: RunOutcome, ghost n: nat)
    requires task.db.Valid()
    modifies task`params, task`version, task`status, task`createdAt, task`updatedAt, task`id, task`metrics
    modifies task.db`tasks, task.db`taskSerial, task.db`clock, task.db`texts
    ensures task.version == Some(ChosenVersion(old(task.db.tasks), task.taskType, task.implementation, task.name, given))
    ensures FindTask(old(task.db.tasks), task.Key()).Some? ==>
      && r == Fail(Error(DuplicateMessage(task.Key())))
      && task.db.tasks == old(task.db.tasks) && task.db.texts == old(task.db.texts)
    ensures FindTask(old(task.db.tasks), task.Key()).None? ==>
      && task.Synced() && task.params == params
      && RunEnded(Documents(pdf), task.params, task.db.decisions, task.id.value, old(task.db.texts), old(task.metrics),
                  n, o, task.db.texts, task.metrics)
      && r == (if o.Returned? then Pass else Fail(o.error))
      && task.status == Some(if o.Returned? then Succeeded else Failed)
  {
    n := 0;
    o := Returned;
    ghost var texts, metrics := task.db.texts, task.metrics;
    var begun := task.Open(params, given);
    assert task.db.texts == texts && task.metrics == metrics;
    if begun.Fail? {
      return begun, o, n;
    }
    assert task.Synced() && task.params == params;
    r, o, n := RunAndFinish(task, pdf);
  }

  // ---------------------------------------------------------------------------------
  // What a run guarantees

  /** A run that returns stored exactly one text per decision of the ingestor task, in id
      order, each tagged with this task and naming its decision (the stage's extractor names
      its decisions by `DocumentsNameDecisions`). */
  lemma OneTextPerDecision(extract: Extractor, inputs: seq<DecisionInput>, taskId: nat, start: seq<TextRow>,
                           startMetrics: Value, n: nat, now: seq<TextRow>, metrics: Value)
    requires NamesDecisions(extract)
    requires PagesEnded(extract, inputs, taskId, start, startMetrics, n, Returned, now, metrics)
    ensures |now| == |start| + |inputs| && now[..|start|] == start
    ensures forall i :: 0 <= i < |inputs| ==>
              now[|start| + i].textExtractorTaskId == taskId && now[|start| + i].decisionId == Num(inputs[i].id)
    ensures |inputs| > 0 ==> metrics == Processed(|inputs|)
  {
    assert inputs[..n] == inputs;
    var rows := TextRows(taskId, Extracted(extract, inputs).value);
    assert forall i :: 0 <= i < |inputs| ==> now[|start| + i] == rows[i];
  }

  /** A run that throws stored whole pages only: a multiple of 50 decisions, each with its
      text, and the failing decision lies in the next page. */
  lemma ThrowsOnWholePages(extract: Extractor, inputs: seq<DecisionInput>, taskId: nat, start: seq<TextRow>,
                           startMetrics: Value, n: nat, e: Error, now: seq<TextRow>, metrics: Value)
    requires PagesEnded(extract, inputs, taskId, start, startMetrics, n, Threw(e), now, metrics)
    ensures |now| == |start| + n && n % BatchSize == 0
    ensures exists i :: n <= i < |inputs| && i < n + BatchSize && extract(inputs[i]) == Err(e)
  {
    assert |TextRows(taskId, Extracted(extract, inputs[..n]).value)| == n;
    FailureInPage(extract, inputs, n, e);
  }

  /** A page that fails holds a decision that fails with the page's error. */
  lemma FailureInPage(extract: Extractor, inputs: seq<DecisionInput>, n: nat, e: Error)
    requires n < |inputs| && Extracted(extract, Page(inputs, n, BatchSize)) == Err(e)
    ensures exists i :: n <= i < |inputs| && i < n + BatchSize && extract(inputs[i]) == Err(e)
  {
    var rows := Page(inputs, n, BatchSize);
    ExtractedFirstFailure(extract, rows);
    var j :| 0 <= j < |rows| && extract(rows[j]) == Err(e) && Extracted(extract, rows[..j]).Ok?;
    assert rows[j] == inputs[n + j];
  }

  /** No stored text holds a NUL character. */
  lemma StoredTextsNulFree(extract: Extractor, inputs: seq<DecisionInput>, taskId: nat, start: seq<TextRow>,
                           startMetrics: Value, n: nat, now: seq<TextRow>, metrics: Value)
    requires Stored(extract, inputs, taskId, start, startMetrics, n, now, metrics)
    ensures forall i :: |start| <= i < |now| && now[i].text.Some? ==> '\0' !in now[i].text.value
  {
    var rows := TextRows(taskId, Extracted(extract, inputs[..n]).value);
    assert forall i :: |start| <= i < |now| ==> now[i] == rows[i - |start|];
  }
}
