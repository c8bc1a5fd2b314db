/** The image-based pipeline: page images go to the chat-completions endpoint in one request,
    and the raw reply text is then mapped onto the form template by a second model call. */
module OpenAIExtraction {
  import opened Wrappers
  import opened Json
  import opened Services
  import opened Forms
  import opened JsonSpan
  import opened Structuring

  const ChatCompletionsUrl := "https://api.openai.com/v1/chat/completions"
  const ExtractAllPrompt := "Extract all information from the document in JSON format"
  const MaxTokens := 2000
  const Temperature := 0

  /** The system-message instructions that precede the schema in this pipeline. */
  const Instructions :=
    "You are an AI assistant specialized in extracting structured information from documents. "
    + "Please analyze the following extracted data and map it to the structure provided. "
    + "Replace <value> placeholders with actual values. If a value is missing, leave it blank."
    + "Strictly follow the provided JSON structure and do not add any additional fields.\n\n"

  /** One `image_url` part per image, appended in input order. */
  function ImageParts(images: seq<string>): (parts: seq<ContentPart>)
    ensures |parts| == |images|
    ensures forall i | 0 <= i < |images| :: parts[i] == ImageUrlPart(images[i])
  {
    if |images| == 0 then []
    else ImageParts(images[..|images| - 1]) + [ImageUrlPart(images[|images| - 1])]
  }

  /** The request body for a non-empty image list. */
  function BuildChatRequest(model: string, images: seq<string>): (req: ChatRequest)
    ensures |req.messages| == 1 && req.messages[0].role == "user"
    ensures |req.messages[0].content| == 1 + |images|
    ensures req.messages[0].content[0] == TextPart(ExtractAllPrompt)
    ensures forall i | 0 <= i < |images| :: req.messages[0].content[1 + i] == ImageUrlPart(images[i])
    ensures req.model == model && req.maxTokens == MaxTokens && req.temperature == Temperature
  {
    ChatRequest(model, [Message("user", [TextPart(ExtractAllPrompt)] + ImageParts(images))], MaxTokens, Temperature)
  }

  /** The image URLs a request carries: the `image_url` parts of its first message, in order. */
  function ImageUrls(parts: seq<ContentPart>): seq<string>
  {
    if |parts| == 0 then []
    else (if parts[0].ImageUrlPart? then [parts[0].url] else []) + ImageUrls(parts[1..])
  }

  /** The request carries exactly the input images, in input order, each URL unchanged. */
  lemma {:induction false} RequestCarriesImages(model: string, images: seq<string>)
    ensures ImageUrls(BuildChatRequest(model, images).messages[0].content) == images
  {
    var content := BuildChatRequest(model, images).messages[0].content;
    assert content[1..] == ImageParts(images);
    ImagePartsUrls(images);
  }

  lemma {:induction false} ImagePartsUrls(images: seq<string>)
    ensures ImageUrls(ImageParts(images)) == images
    decreases |images|
  {
    if |images| > 0 {
      var parts := ImageParts(images);
      assert parts[1..] == ImageParts(images[1..]);
      ImagePartsUrls(images[1..]);
      assert images == [images[0]] + images[1..];
    }
  }

  /** The result of `fetch_insights_from_base64_images`, with the request it posted. */
  datatype Insights = Insights(calls: seq<Call>, content: Option<string>)

  /** `post` stands for `requests.post` to the chat-completions endpoint. */
  function FetchInsights(model: string, images: seq<string>, post: ChatRequest -> HttpReply): (f: Insights)
    ensures images == [] ==> f == Insights([], None)
    ensures images != [] ==> f.calls == [ChatCompletionsPost(ChatCompletionsUrl, BuildChatRequest(model, images))]
    ensures f.content.Some? <==>
      images != [] && post(BuildChatRequest(model, images)).Reply?
      && post(BuildChatRequest(model, images)).status == 200
      && post(BuildChatRequest(model, images)).content.Some?
    ensures f.content.Some? ==> f.content == post(BuildChatRequest(model, images)).content
  {
    if images == [] then Insights([], None)
    else
      var req := BuildChatRequest(model, images);
      var sent := [ChatCompletionsPost(ChatCompletionsUrl, req)];
      match post(req)
      case TransportError => Insights(sent, None)
      case Reply(status, content) =>
        if status != 200 then Insights(sent, None)
        else Insights(sent, content)
  }

  /** The external services this pipeline talks to. */
  datatype Env = Env(model: string, post: ChatRequest -> HttpReply, llm: Llm)

  /** `match_extracted_with_template_from_images`. */
  function MatchFromImages(images: seq<string>, submissionId: string, formType: string, env: Env): (run: Run)
    ensures run.exit.Returned?
    ensures var f := FetchInsights(env.model, images, env.post);
      f.content.None? || f.content.value == "" ==> run == Run(f.calls, Returned(None))
    ensures images != [] ==> |run.calls| >= 1 && run.calls[0] == ChatCompletionsPost(ChatCompletionsUrl, BuildChatRequest(env.model, images))
    ensures run.exit.value.Some? ==>
      && formType == "125"
      && |run.calls| == 3
      && run.calls[2] == WriteJson(OutputPath(submissionId), run.exit.value.value)
    ensures run.exit.value.None? ==> forall c | c in run.calls :: !c.WriteJson?
  {
    var f := FetchInsights(env.model, images, env.post);
    if f.content.None? || f.content.value == "" then Run(f.calls, Returned(None))
    else
      var t := MapToTemplate(Instructions, f.content.value, formType, env.llm, submissionId);
      Run(f.calls + t.calls, Returned(t.result))
  }

  /** An empty image list returns `None` before any request is built or sent. */
  lemma EmptyImagesSendNothing(submissionId: string, formType: string, env: Env)
    ensures MatchFromImages([], submissionId, formType, env) == Run([], Returned(None))
  {
  }

  /** The upstream request is sent before the form type is examined: a form type other than
      `"125"` (including the disabled `"127a"` and `"137"`) still costs the request, and then
      the run returns `None` without calling the model again. */
  lemma InsightsFetchedBeforeDispatch(images: seq<string>, submissionId: string, formType: string, env: Env)
    requires images != [] && formType != "125"
    ensures MatchFromImages(images, submissionId, formType, env)
      == Run([ChatCompletionsPost(ChatCompletionsUrl, BuildChatRequest(env.model, images))], Returned(None))
  {
    var f := FetchInsights(env.model, images, env.post);
    if f.content.Some? && f.content.value != "" {
      assert MapToTemplate(Instructions, f.content.value, formType, env.llm, submissionId) == Tail([], None);
    }
  }

  /** The mapping model is called only for form type `"125"` and only with the non-empty text
      the chat endpoint returned, which the human message carries verbatim. */
  lemma ModelCallOnlyFor125(images: seq<string>, submissionId: string, formType: string, env: Env, k: int)
    requires var run := MatchFromImages(images, submissionId, formType, env);
      0 <= k < |run.calls| && run.calls[k].LlmInvoke?
    ensures formType == "125" && env.llm.clientReady && env.llm.template125.Some?
    ensures var reply := env.post(BuildChatRequest(env.model, images));
      && images != [] && reply.Reply? && reply.status == 200
      && reply.content.Some? && reply.content.value != ""
      && MatchFromImages(images, submissionId, formType, env).calls[k]
         == LlmInvoke(SystemPrompt(Instructions, env.llm.template125.value), UserPrompt(reply.content.value))
  {
    var f := FetchInsights(env.model, images, env.post);
    assert f.content.Some? && f.content.value != "";
    var t := MapToTemplate(Instructions, f.content.value, formType, env.llm, submissionId);
    assert k == |f.calls| && t.calls != [];
  }

  /** For form type `"125"` after a 200 reply with non-empty content, once the model answers,
      the run succeeds exactly when `json.loads` accepts the reply's brace span; it then returns
      that object after writing it to the submission's output file. */
  lemma OutcomeDecidedBySpan(images: seq<string>, submissionId: string, env: Env, content: string, reply: string)
    requires images != [] && env.llm.clientReady && env.llm.template125.Some? && content != ""
    requires env.post(BuildChatRequest(env.model, images)) == Reply(200, Some(content))
    requires env.llm.invoke(SystemPrompt(Instructions, env.llm.template125.value), UserPrompt(content)) == Some(reply)
    ensures var run := MatchFromImages(images, submissionId, "125", env);
      var posted := ChatCompletionsPost(ChatCompletionsUrl, BuildChatRequest(env.model, images));
      var invoked := LlmInvoke(SystemPrompt(Instructions, env.llm.template125.value), UserPrompt(content));
      && (run.exit.value.Some? <==> DecodeReply(reply, env.llm.loads).Parsed?)
      && (run.exit.value.Some? ==>
            var obj := DecodeReply(reply, env.llm.loads).obj;
            run.exit.value.value == obj && run.calls == [posted, invoked, WriteJson(OutputPath(submissionId), obj)])
      && (run.exit.value.None? ==> run.calls == [posted, invoked])
  {
    TailOutcome(Instructions, content, env.llm, submissionId, reply);
  }

  /** A success needs a 200 reply with non-empty content, form type `"125"`, a working client and
      a readable template, and a model answer whose brace span `json.loads` accepts; the object
      returned is that parse. */
  lemma SuccessRequiresParsedReply(images: seq<string>, submissionId: string, formType: string, env: Env)
    requires MatchFromImages(images, submissionId, formType, env).exit.value.Some?
    ensures var r := env.post(BuildChatRequest(env.model, images));
      && images != [] && r.Reply? && r.status == 200 && r.content.Some? && r.content.value != ""
      && formType == "125" && env.llm.clientReady && env.llm.template125.Some?
      && var reply := env.llm.invoke(SystemPrompt(Instructions, env.llm.template125.value), UserPrompt(r.content.value));
         reply.Some? && DecodeReply(reply.value, env.llm.loads) == Parsed(MatchFromImages(images, submissionId, formType, env).exit.value.value)
  {
    var f := FetchInsights(env.model, images, env.post);
    var t := MapToTemplate(Instructions, f.content.value, formType, env.llm, submissionId);
    assert t.result.Some?;
  }
}
