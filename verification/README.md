# Insurance-form extraction: a Dafny model of the decision logic

The service extracts field data from scanned insurance application forms. It has two pipelines.

- The image pipeline posts the page images to a chat-completions endpoint. It then asks a
  language model to map the reply onto the form template.
- The document-parser pipeline strips a data-URI prefix from the base64 PDF and decodes it. It
  hands the bytes to a document-analysis service. It then asks a language model to map the first
  parsed document onto the template.

Both pipelines share the same second half:

1. Dispatch on the form type. Only `"125"` loads a schema. `"127a"` and `"137"` are switched off,
   and every other string is unsupported.
2. Build a prompt that embeds the schema verbatim, and call the model.
3. Cut the reply from its first `{` through its last `}`, and hand that slice to `json.loads`.
4. Write the object to `./output/<submission id>/output.json` and return it.

The HTTP endpoint runs an ordered chain of 400 checks. When they pass, it answers with fixed
template content.

The model is functional. Each external collaborator is a field of an environment record:

- the chat-completions `requests.post` is a function returning `TransportError` (an exception)
  or a `Reply` with a status code and optional content;
- `model.invoke`, `json.loads`, `base64.b64decode` and the document parser are functions whose
  failure (an exception) is `None`;
- constructing the `ChatOpenAI` client is a flag, `clientReady`, checked before dispatch;
- the 125 template's text is an `Option<string>` value, `None` when reading it raises.

Each pipeline returns a `Run`. A `Run` lists the service calls made, in order, plus how the
pipeline ended: it returned a value (possibly `None`) or raised an exception. The list records
four kinds of call: the chat-completions post, the document parse, the model call, and the write of
the result file. The client construction, the template read and the base64 decoding are not
recorded in it. The list lets the contracts state call order ("the upstream service is called
before the form type is examined") and "the object written is the object returned".

Modules:

- `Wrappers`: `Option` and `Result`.
- `PyStr`: `str.find`, `str.rfind`, slicing, `startswith`, `split(sep, 1)[1]`, with their Python
  semantics.
- `Json`: the values `json.loads` produces.
- `Services`: request and reply shapes, exceptions, and the call trace.
- `Forms`: form-type dispatch.
- `JsonSpan`: the brace span and its decoding.
- `Structuring`: the shared second half of both pipelines.
- `OpenAIExtraction`: the image pipeline.
- `LandingExtraction`: the document-parser pipeline.
- `Server`: the HTTP handlers.

The guard `json_start == -1 or json_end == -1` is half dead. `json_end` is `rfind('}') + 1`, which
is never below 0. So a reply with a `{` and no later `}` does not take the "no JSON" branch.
It slices to the empty string, which `json.loads` rejects. The run then ends in the decode-error
handler. Both paths return `None`, so only the logged message differs. `EndGuardIsDead`,
`UnclosedGivesEmptySlice` and `UnclosedIsDecodeError` state this.

Facts about the code that a reader might not expect:

- The upstream service is called before the form type is checked. A rejected form type still costs
  one upstream call (`InsightsFetchedBeforeDispatch`, `ParseBeforeDispatch`).
- The two disabled identifiers are `"127a"` and `"137"`.
- A reply with no candidate span and a reply with malformed JSON both give `None`.
  `JsonSpan.Decoded` still tells the two apart inside the model.
- The extraction endpoint returns the template file's content and does not run either pipeline.

## Model

| member | source | states |
|---|---|---|
| PyStr.Find | utils/data_extraction_openAI.py:146 | `find('{')` returns the first index holding the character and -1 exactly when it is absent |
| PyStr.RFind | utils/data_extraction_openAI.py:147 | `rfind('}')` returns the last index holding the character and -1 exactly when it is absent |
| PyStr.Slice | utils/data_extraction_openAI.py:153 | Python slicing with non-negative bounds: its length (clamped, empty when the end is not after the start) and each character's origin |
| PyStr.StartsWith | utils/data_extraction_landingAI.py:24 | `startswith(p)` holds exactly when `p` fits in the string and agrees with it character by character at its start |
| PyStr.AfterFirst | utils/data_extraction_landingAI.py:25 | `split(",", 1)[1]` fails exactly when there is no comma; otherwise it is the text after the first comma |
| JsonSpan.CandidateSpan | utils/data_extraction_openAI.py:146-153 | the early "no JSON" return happens exactly when the reply has no `{`; with a later `}` the slice runs from the first `{` to the last `}` inclusive, and otherwise it is empty |
| JsonSpan.EndGuardIsDead | utils/data_extraction_openAI.py:147-151 | `json_end` is never -1, so the guard fires exactly when there is no `{` |
| JsonSpan.SpanIsOuterBraces | utils/data_extraction_openAI.py:146-153 | when a `}` follows the first `{`, the candidate is the slice from a `{` to a later `}` with no `{` before it and no `}` after it |
| JsonSpan.OuterBracesIsSpan | utils/data_extraction_openAI.py:146-153 | conversely, for any `{` with no `{` before it and any later `}` with no `}` after it, the slice between them is exactly the candidate |
| JsonSpan.UnclosedGivesEmptySlice | utils/data_extraction_openAI.py:147-153 | a `{` with no `}` after it (none at all, or only before the first `{`) yields the empty slice, not the early return |
| JsonSpan.DecodeReply | utils/data_extraction_openAI.py:146-165 | "no JSON" exactly when there is no `{`; a decode error carries the candidate `json.loads` rejected; a success is what `json.loads` made of the candidate |
| JsonSpan.UnclosedIsDecodeError | utils/data_extraction_landingAI.py:72-91 | since `json.loads("")` raises, an unclosed `{` ends in the decode-error handler |
| Forms.Classify | utils/data_extraction_openAI.py:116-129 | exactly `"125"` is the supported form; exactly `"127a"` and `"137"` are disabled; all else is unsupported |
| Forms.SchemaFor | utils/data_extraction_landingAI.py:39-53 | a schema is loaded exactly for `"125"` when the template can be read, and it is the template's text |
| Structuring.SystemPrompt | utils/data_extraction_openAI.py:132-138 | the system message begins with the pipeline's instructions and ends with the schema verbatim |
| Structuring.UserPrompt | utils/data_extraction_openAI.py:140-143 | the human message ends with the extracted text verbatim |
| Structuring.OutputPath | utils/data_extraction_openAI.py:156 | the submission id can be read back from the output path, so the path is a function of the id and determines it |
| Structuring.OutputPathInjective | utils/data_extraction_landingAI.py:82 | distinct submission ids give distinct path strings |
| Structuring.MapToTemplate | utils/data_extraction_openAI.py:114-168 | a failed client construction, a non-125 form type or an unreadable template makes no call and returns `None`; a `"125"` run with a working client and a readable template always calls the model first; that one model call carries the schema and text prompts; a success writes the parsed brace span to the submission's path and returns the same object; a failure writes nothing |
| Structuring.TailOutcome | utils/data_extraction_landingAI.py:66-94 | once the model answers a 125 prompt, the run succeeds exactly when the brace span parses, and it returns that parse |
| Structuring.InvokeFailureReturnsNone | utils/data_extraction_openAI.py:140-143 | when the model call raises, the call is recorded, the run returns `None`, and nothing is written |
| Structuring.UnclosedReplyReturnsNone | utils/data_extraction_landingAI.py:71-91 | a reply with an unclosed `{` ends the run with `None` after the model call, and nothing is written |
| OpenAIExtraction.ImageParts | utils/data_extraction_openAI.py:57-61 | one `image_url` part per image, in input order, each URL unchanged |
| OpenAIExtraction.BuildChatRequest | utils/data_extraction_openAI.py:48-68 | exactly one user message; its content is the text part followed by one image part per input image, in order; fixed model settings |
| OpenAIExtraction.RequestCarriesImages | utils/data_extraction_openAI.py:48-61 | reading the image URLs back out of the request gives the input list |
| OpenAIExtraction.FetchInsights | utils/data_extraction_openAI.py:40-105 | an empty list sends nothing and yields `None`; otherwise the request is posted once; content comes back exactly on status 200 with content present, and it is the reply's raw text |
| OpenAIExtraction.MatchFromImages | utils/data_extraction_openAI.py:108-170 | never raises; a failed or empty fetch ends the run with `None` after the fetch's own calls; with images the first call is the chat request; a success needs form type `"125"` and ends by writing the returned object to the submission's path; a run that returns `None` writes nothing |
| OpenAIExtraction.EmptyImagesSendNothing | utils/data_extraction_openAI.py:43-45 | no images: no request is built or sent, and the result is `None` |
| OpenAIExtraction.InsightsFetchedBeforeDispatch | utils/data_extraction_openAI.py:110-129 | for any form type other than `"125"` the chat request is still sent, and the run then returns `None` without a model call |
| OpenAIExtraction.ModelCallOnlyFor125 | utils/data_extraction_openAI.py:110-143 | a model call happens only for `"125"` after a 200 reply with non-empty content, and it carries that content verbatim |
| OpenAIExtraction.OutcomeDecidedBySpan | utils/data_extraction_openAI.py:110-161 | for `"125"` after a 200 reply with non-empty content, the run succeeds exactly when `json.loads` accepts the model reply's brace span; on success the calls are post, model call, write of the returned object; otherwise post and model call only |
| OpenAIExtraction.SuccessRequiresParsedReply | utils/data_extraction_openAI.py:110-161 | a success implies a 200 reply with non-empty content, form type `"125"`, a working client, a readable template, and a model answer whose brace span parses to the returned object |
| LandingExtraction.StripDataUri | utils/data_extraction_landingAI.py:24-25 | non-`data:` input passes unchanged; `data:` input without a comma raises IndexError; otherwise the result is the suffix right after a comma that has no comma before it, that is, after the first comma |
| LandingExtraction.StripDataUriRoundTrip | utils/data_extraction_landingAI.py:24-25 | stripping `data:<media type>,<payload>` with a comma-free media type gives back the payload |
| LandingExtraction.ExtractData | utils/data_extraction_landingAI.py:23-29 | the parser is called exactly when stripping and decoding succeed, and with the decoded bytes; a strip failure raises IndexError, a decode failure Base64Error, a parser failure ParseServiceError and an empty parse result IndexError; a success is the first parsed document |
| LandingExtraction.FirstDocumentOnly | utils/data_extraction_landingAI.py:27-29 | only the first parsed document is returned; an empty parse result raises IndexError |
| LandingExtraction.MatchExtracted | utils/data_extraction_landingAI.py:32-96 | raises exactly when extraction raises, with the same error and no call beyond extraction's; the parse call comes first; a run that raises or returns `None` writes nothing; a success needs `"125"` and ends by writing the returned object |
| LandingExtraction.DataUriWithoutCommaRaises | utils/data_extraction_landingAI.py:24-37 | a `data:` input without a comma raises IndexError out of the pipeline before any service call |
| LandingExtraction.ParseBeforeDispatch | utils/data_extraction_landingAI.py:34-53 | for any form type other than `"125"` the document is still parsed, and the run then returns `None` |
| LandingExtraction.FalsyDocumentStopsEarly | utils/data_extraction_landingAI.py:34-36 | a falsy parsed document returns `None` before any dispatch or model call |
| LandingExtraction.OutcomeDecidedBySpan | utils/data_extraction_landingAI.py:34-87 | for `"125"` with a truthy first document, the model is prompted with its rendering, and the run succeeds exactly when `json.loads` accepts the reply's brace span; on success the returned object is the one written |
| LandingExtraction.SuccessRequiresParsedReply | utils/data_extraction_landingAI.py:34-87 | a success implies a truthy first document, form type `"125"`, a working client, a readable template, and a model answer whose brace span parses to the returned object |
| Server.Index | app.py:40-42 | the root endpoint's body has the single key `message` with the connection message |
| Server.ReadOutput | app.py:89-106 | empty document first, then empty form type, then any type but `"125"`, each a 400 with its message; success exactly when both are non-empty and the type is `"125"`, and the body is the template |
| Server.SuccessIgnoresDocument | app.py:94-106 | the success body is the same for every non-empty document |
| Server.AdvertisedTypesRejected | app.py:100-101 | `"127a"` and `"137"`, though listed as supported in the message, get the 400, matching their disabled dispatch |
| Server.EndpointAgreesWithDispatch | app.py:100-101 | with a document present, the endpoint accepts exactly the form types the dispatch gives a schema |

## Left out

- `convert_pdf_base64_to_image_base64s` and `utils/pdf_to_img_base64.py`: rasterising PDF pages and
  encoding them as PNG is library code. The image pipeline takes the list of image strings as input.
- LangChain's `invoke`, the document parser, `json.loads` and `base64.b64decode` are not modelled
  inside. Each is a function parameter whose failure is `None`. The HTTP transport (`requests.post`)
  is a parameter too; it fails as `TransportError` or as a `Reply` whose status is not 200.
- The request headers, the API key and the model name come from environment configuration. The
  model name is the parameter `Env.model`; its configured default, `"gpt-4o-mini"`, is not
  modelled. The import-time missing-key `ValueError` is not modelled.
- A reply whose content is not a string (a JSON list, for example) is not modelled. The content is
  a string or absent.
- Truthiness and f-string rendering of a parsed document are parameters (`truthy`, `render`),
  because the parser's result type is not part of this model.
- Filesystem effects are recorded as a `WriteJson` call and assumed to succeed. A failing
  `os.makedirs` or `json.dump` would make the run return `None` after a partial write. The
  4-space indentation of the file is not modelled.
- `Server.ReadOutput`: reading and parsing the template file is taken as the `template`
  parameter. A failure there would be a 500, which is not modelled.
- Logging, `print`, CORS, uvicorn, the commented-out endpoint and the commented-out code are
  left out.
- The prompt instructions are carried as constants. Only the verbatim embedding of the schema and
  of the extracted text is stated about them.
- `Structuring.OutputPathInjective`: distinct ids give distinct path strings. Path normalisation is
  not modelled, so ids such as `"x"` and `"x/"` give different strings that may name the same file.
- `OpenAIExtraction.MatchFromImages`: `form_type` defaults to the type object `str`, not a string.
  The model makes `formType` a required string argument, so a call that omits it is not modelled.
- `OpenAIExtraction.MatchFromImages`: `requests.post` has no timeout, so the call may never return.
  `post` is a total function in the model. "Never raises" therefore assumes the call returns.
