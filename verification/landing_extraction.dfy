/** The document-parser pipeline: the base64 PDF, with any data-URI prefix removed, goes to the
    document-analysis service, and the first parsed document is mapped onto the form template by
    a language-model call. */
module LandingExtraction {
  import opened Wrappers
  import opened Json
  import opened PyStr
  import opened Services
  import opened Forms
  import opened JsonSpan
  import opened Structuring

  const DataUriScheme := "data:"

  /** The system-message instructions that precede the schema in this pipeline. */
  const Instructions :=
    "You are an AI assistant specialized in extracting structured information from documents. "
    + "Please analyze the following extracted data and map it to the structure provided. "
    + "Replace <value> placeholders with actual values. If a value is missing, leave it blank."
    + "if there is any checkbox in the data, please return it as yes or no."
    + "if the is any $ in the data, please return it as a number without $ sign.\n"
    + "Strictly follow the provided JSON structure and do not add any additional fields.\n\n"

  /** Input starting with `data:` is replaced by everything after its first comma; without a
      comma the `[1]` index raises. Any other input passes through unchanged. */
  function StripDataUri(s: string): (r: Result<string, PyError>)
    ensures !StartsWith(s, DataUriScheme) ==> r == Ok(s)
    ensures StartsWith(s, DataUriScheme) ==> (r.Err? <==> ',' !in s)
    ensures r.Err? ==> r.error == IndexError
    ensures StartsWith(s, DataUriScheme) && r.Ok? ==>
      && |r.value| < |s| && s[|s| - |r.value|..] == r.value
      && s[|s| - |r.value| - 1] == ',' && ',' !in s[..|s| - |r.value| - 1]
  {
    if StartsWith(s, DataUriScheme) then
      match AfterFirst(s, ',')
      case None => Err(IndexError)
      case Some(rest) => Ok(rest)
    else Ok(s)
  }

  /** Stripping undoes the prefixing of a payload with a comma-free data-URI header. */
  lemma StripDataUriRoundTrip(mediaType: string, payload: string)
    requires ',' !in mediaType
    ensures StripDataUri(DataUriScheme + mediaType + "," + payload) == Ok(payload)
  {
    var s := DataUriScheme + mediaType + "," + payload;
    var k := |DataUriScheme| + |mediaType|;
    assert s[..|DataUriScheme|] == DataUriScheme;
    assert s[..k] == DataUriScheme + mediaType;
    assert s[k] == ',';
    FindUnique(s, ',', k);
    assert s[k + 1..] == payload;
  }

  /** The document-analysis side: `base64.b64decode` (`None` when it raised), `parse` (`None`
      when it raised), the truth value of a parsed document, and its rendering inside an
      f-string. */
  datatype DocService<!D> = DocService(
    b64decode: string -> Option<seq<byte>>,
    parse: seq<byte> -> Option<seq<D>>,
    truthy: D -> bool,
    render: D -> string)

  /** The parse call made, if any, and the first parsed document or the exception raised. */
  datatype Extracted<D> = Extracted(calls: seq<Call>, doc: Result<D, PyError>)

  /** `extract_data_landing_ai`: nothing here is guarded by a `try`. */
  function ExtractData<D>(pdfBase64: string, svc: DocService<D>): (x: Extracted<D>)
    ensures |x.calls| <= 1
    ensures x.calls != [] <==>
      StripDataUri(pdfBase64).Ok? && svc.b64decode(StripDataUri(pdfBase64).value).Some?
    ensures x.calls != [] ==> x.calls[0] == DocumentParse(svc.b64decode(StripDataUri(pdfBase64).value).value)
    ensures StripDataUri(pdfBase64).Err? ==> x.doc == Err(IndexError)
    ensures StripDataUri(pdfBase64).Ok? && svc.b64decode(StripDataUri(pdfBase64).value).None? ==>
      x.doc == Err(Base64Error)
    ensures x.calls != [] && svc.parse(x.calls[0].pdf).None? ==> x.doc == Err(ParseServiceError)
    ensures x.calls != [] && svc.parse(x.calls[0].pdf) == Some([]) ==> x.doc == Err(IndexError)
    ensures x.doc.Ok? ==> |x.calls| == 1
    ensures x.doc.Ok? && |x.calls| == 1 ==>
      var docs := svc.parse(x.calls[0].pdf);
      docs.Some? && |docs.value| > 0 && x.doc.value == docs.value[0]
  {
    match StripDataUri(pdfBase64)
    case Err(e) => Extracted([], Err(e))
    case Ok(b64) =>
      match svc.b64decode(b64)
      case None => Extracted([], Err(Base64Error))
      case Some(pdf) =>
        var parsed := [DocumentParse(pdf)];
        match svc.parse(pdf)
        case None => Extracted(parsed, Err(ParseServiceError))
        case Some(docs) =>
          if |docs| == 0 then Extracted(parsed, Err(IndexError))
          else Extracted(parsed, Ok(docs[0]))
  }

  /** Only the first parsed document is used; an empty parse result raises IndexError. */
  lemma FirstDocumentOnly<D>(pdfBase64: string, svc: DocService<D>, pdf: seq<byte>, docs: seq<D>)
    requires StripDataUri(pdfBase64).Ok? && svc.b64decode(StripDataUri(pdfBase64).value) == Some(pdf)
    requires svc.parse(pdf) == Some(docs)
    ensures ExtractData(pdfBase64, svc) ==
      if docs == [] then Extracted([DocumentParse(pdf)], Err(IndexError))
      else Extracted([DocumentParse(pdf)], Ok(docs[0]))
  {
  }

  /** `match_extracted_with_template`. */
  function MatchExtracted<D>(pdfBase64: string, submissionId: string, formType: string, svc: DocService<D>, llm: Llm): (run: Run)
    ensures run.exit.Raised? <==> ExtractData(pdfBase64, svc).doc.Err?
    ensures run.exit.Raised? ==> run.exit.error == ExtractData(pdfBase64, svc).doc.error
    ensures run.exit.Raised? ==> run.calls == ExtractData(pdfBase64, svc).calls
    ensures run.exit.Raised? || run.exit.value.None? ==> forall c | c in run.calls :: !c.WriteJson?
    ensures |ExtractData(pdfBase64, svc).calls| <= |run.calls|
    ensures run.calls[..|ExtractData(pdfBase64, svc).calls|] == ExtractData(pdfBase64, svc).calls
    ensures run.exit.Returned? && run.exit.value.Some? ==>
      && formType == "125"
      && |run.calls| == 3
      && run.calls[2] == WriteJson(OutputPath(submissionId), run.exit.value.value)
  {
    var x := ExtractData(pdfBase64, svc);
    match x.doc
    case Err(e) => Run(x.calls, Raised(e))
    case Ok(doc) =>
      if !svc.truthy(doc) then Run(x.calls, Returned(None))
      else
        var t := MapToTemplate(Instructions, svc.render(doc), formType, llm, submissionId);
        Run(x.calls + t.calls, Returned(t.result))
  }

  /** A `data:` input without a comma raises IndexError out of the whole pipeline, before any
      service is called: the strip sits outside the `try`. */
  lemma DataUriWithoutCommaRaises<D>(pdfBase64: string, submissionId: string, formType: string, svc: DocService<D>, llm: Llm)
    requires StartsWith(pdfBase64, DataUriScheme) && ',' !in pdfBase64
    ensures MatchExtracted(pdfBase64, submissionId, formType, svc, llm) == Run([], Raised(IndexError))
  {
  }

  /** The document is parsed before the form type is examined: for a form type other than
      `"125"`, a successful parse is still performed and the run then returns `None`. */
  lemma ParseBeforeDispatch<D>(pdfBase64: string, submissionId: string, formType: string, svc: DocService<D>, llm: Llm)
    requires formType != "125"
    requires ExtractData(pdfBase64, svc).doc.Ok?
    ensures var run := MatchExtracted(pdfBase64, submissionId, formType, svc, llm);
      && run.exit == Returned(None)
      && |run.calls| == 1 && run.calls[0].DocumentParse?
  {
    var x := ExtractData(pdfBase64, svc);
    if svc.truthy(x.doc.value) {
      assert MapToTemplate(Instructions, svc.render(x.doc.value), formType, llm, submissionId) == Tail([], None);
    }
  }

  /** A falsy parsed document returns `None` before any form-type or model work. */
  lemma FalsyDocumentStopsEarly<D>(pdfBase64: string, submissionId: string, formType: string, svc: DocService<D>, llm: Llm)
    requires ExtractData(pdfBase64, svc).doc.Ok? && !svc.truthy(ExtractData(pdfBase64, svc).doc.value)
    ensures MatchExtracted(pdfBase64, submissionId, formType, svc, llm) == Run(ExtractData(pdfBase64, svc).calls, Returned(None))
  {
  }

  /** For form type `"125"` with a truthy first document, once the model answers, the run
      succeeds exactly when `json.loads` accepts the reply's brace span; it then returns that
      object after writing it to the submission's output file. */
  lemma OutcomeDecidedBySpan<D>(pdfBase64: string, submissionId: string, svc: DocService<D>, llm: Llm, reply: string)
    requires ExtractData(pdfBase64, svc).doc.Ok? && svc.truthy(ExtractData(pdfBase64, svc).doc.value)
    requires llm.clientReady && llm.template125.Some?
    requires llm.invoke(SystemPrompt(Instructions, llm.template125.value), UserPrompt(svc.render(ExtractData(pdfBase64, svc).doc.value))) == Some(reply)
    ensures var run := MatchExtracted(pdfBase64, submissionId, "125", svc, llm);
      var x := ExtractData(pdfBase64, svc);
      var invoked := LlmInvoke(SystemPrompt(Instructions, llm.template125.value), UserPrompt(svc.render(x.doc.value)));
      && run.exit.Returned?
      && (run.exit.value.Some? <==> DecodeReply(reply, llm.loads).Parsed?)
      && (run.exit.value.Some? ==>
            var obj := DecodeReply(reply, llm.loads).obj;
            run.exit.value.value == obj && run.calls == x.calls + [invoked, WriteJson(OutputPath(submissionId), obj)])
      && (run.exit.value.None? ==> run.calls == x.calls + [invoked])
  {
    var x := ExtractData(pdfBase64, svc);
    TailOutcome(Instructions, svc.render(x.doc.value), llm, submissionId, reply);
  }

  /** A success needs a truthy first document, form type `"125"`, a working client and a
      readable template, and a model answer whose brace span `json.loads` accepts; the object
      returned is that parse. */
  lemma SuccessRequiresParsedReply<D>(pdfBase64: string, submissionId: string, formType: string, svc: DocService<D>, llm: Llm)
    requires MatchExtracted(pdfBase64, submissionId, formType, svc, llm).exit.Returned?
    requires MatchExtracted(pdfBase64, submissionId, formType, svc, llm).exit.value.Some?
    ensures var x := ExtractData(pdfBase64, svc);
      && x.doc.Ok? && svc.truthy(x.doc.value)
      && formType == "125" && llm.clientReady && llm.template125.Some?
      && var reply := llm.invoke(SystemPrompt(Instructions, llm.template125.value), UserPrompt(svc.render(x.doc.value)));
         reply.Some? && DecodeReply(reply.value, llm.loads) == Parsed(MatchExtracted(pdfBase64, submissionId, formType, svc, llm).exit.value.value)
  {
    var x := ExtractData(pdfBase64, svc);
    var t := MapToTemplate(Instructions, svc.render(x.doc.value), formType, llm, submissionId);
    assert t.result.Some?;
  }
}
