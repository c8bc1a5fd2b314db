/** The second half both pipelines share once the document text is in hand: form-type dispatch,
    the prompt that embeds the schema, the language-model call, the brace span, `json.loads`,
    and the write of the result to the submission's output file. */
module Structuring {
  import opened Wrappers
  import opened Json
  import opened PyStr
  import opened Services
  import opened Forms
  import opened JsonSpan

  /** The language-model side of a run: whether constructing the `ChatOpenAI` client succeeded
      (it runs inside the `try`, before dispatch), `model.invoke` (`None` when it raised),
      `json.loads` (`None` when it raised JSONDecodeError), and the 125 template's text (`None`
      when opening or reading it raised). */
  datatype Llm = Llm(
    clientReady: bool,
    invoke: (string, string) -> Option<string>,
    loads: string -> Option<Json>,
    template125: Option<string>)

  const SchemaHeader := "Return the full JSON structure:\n"
  const UserPreamble := "Please extract the information from the following text:\n\n"
  const OutputRoot := "./output/"
  const OutputFile := "/output.json"

  /** The system message: the pipeline's own instructions, then the schema verbatim. */
  function SystemPrompt(instructions: string, schema: string): (p: string)
    ensures |p| >= |schema| && p[|p| - |schema|..] == schema
    ensures StartsWith(p, instructions)
  {
    assert (instructions + SchemaHeader + schema)[..|instructions|] == instructions;
    instructions + SchemaHeader + schema
  }

  /** The human message: a fixed preamble, then the extracted text verbatim. */
  function UserPrompt(data: string): (p: string)
    ensures |p| >= |data| && p[|p| - |data|..] == data
  {
    UserPreamble + data
  }

  /** Reads the submission identifier back out of an output path. */
  function SubmissionOf(path: string): (id: Option<string>)
    ensures id.Some? ==> |OutputRoot| + |OutputFile| <= |path|
  {
    if |OutputRoot| + |OutputFile| <= |path|
       && path[..|OutputRoot|] == OutputRoot
       && path[|path| - |OutputFile|..] == OutputFile
    then Some(path[|OutputRoot|..|path| - |OutputFile|])
    else None
  }

  /** `f"./output/{submission_id}/output.json"`: the submission identifier can be read back out
      of it, so the path is a function of the identifier and determines it. */
  function OutputPath(submissionId: string): (p: string)
    ensures SubmissionOf(p) == Some(submissionId)
  {
    var p := OutputRoot + submissionId + OutputFile;
    assert p[..|OutputRoot|] == OutputRoot;
    assert p[|p| - |OutputFile|..] == OutputFile;
    assert p[|OutputRoot|..|p| - |OutputFile|] == submissionId;
    p
  }

  /** Distinct submission identifiers give distinct path strings. */
  lemma OutputPathInjective(a: string, b: string)
    requires a != b
    ensures OutputPath(a) != OutputPath(b)
  {
  }

  /** The calls the tail makes and what the enclosing function returns. */
  datatype Tail = Tail(calls: seq<Call>, result: Option<Json>)

  /** The prompt pair sent for `data` under the 125 schema. */
  function Prompts(instructions: string, data: string, schema: string): (string, string)
  {
    (SystemPrompt(instructions, schema), UserPrompt(data))
  }

  /** Everything after the document text is obtained, inside the `try`: every failure is caught
      and becomes `None`; only the parsed object is returned, after being written. */
  function MapToTemplate(instructions: string, data: string, formType: string, llm: Llm, submissionId: string): (t: Tail)
    ensures formType != "125" || !llm.clientReady || llm.template125.None? ==> t == Tail([], None)
    ensures t.calls != [] ==>
      && formType == "125" && llm.clientReady && llm.template125.Some?
      && var (system, user) := Prompts(instructions, data, llm.template125.value);
         t.calls[0] == LlmInvoke(system, user)
    ensures t.result.Some? ==>
      && |t.calls| == 2
      && t.calls[1] == WriteJson(OutputPath(submissionId), t.result.value)
      && var reply := llm.invoke(t.calls[0].system, t.calls[0].user);
         reply.Some? && DecodeReply(reply.value, llm.loads) == Parsed(t.result.value)
    ensures formType == "125" && llm.clientReady && llm.template125.Some? ==>
      && |t.calls| >= 1
      && var (system, user) := Prompts(instructions, data, llm.template125.value);
         t.calls[0] == LlmInvoke(system, user)
    ensures t.result.None? ==> |t.calls| <= 1
  {
    if !llm.clientReady then Tail([], None)
    else match SchemaFor(formType, llm.template125)
    case None => Tail([], None)
    case Some(schema) =>
      var (system, user) := Prompts(instructions, data, schema);
      var invoked := [LlmInvoke(system, user)];
      match llm.invoke(system, user)
      case None => Tail(invoked, None)
      case Some(reply) =>
        match DecodeReply(reply, llm.loads)
        case Parsed(obj) => Tail(invoked + [WriteJson(OutputPath(submissionId), obj)], Some(obj))
        case _ => Tail(invoked, None)
  }

  /** Once the 125 schema is loaded and the model answers, the outcome is decided by the brace
      span alone: the parsed object when `json.loads` accepts it, `None` otherwise. */
  lemma TailOutcome(instructions: string, data: string, llm: Llm, submissionId: string, reply: string)
    requires llm.clientReady && llm.template125.Some?
    requires llm.invoke(SystemPrompt(instructions, llm.template125.value), UserPrompt(data)) == Some(reply)
    ensures var t := MapToTemplate(instructions, data, "125", llm, submissionId);
      && (t.result.Some? <==> DecodeReply(reply, llm.loads).Parsed?)
      && (t.result.Some? ==> t.result.value == DecodeReply(reply, llm.loads).obj)
      && (t.result.None? ==> t.calls == [LlmInvoke(SystemPrompt(instructions, llm.template125.value), UserPrompt(data))])
  {
  }

  /** A reply with a `{` but no later `}` ends the run with `None` through the decode-error
      handler, exactly as a malformed object does; nothing is written. */
  lemma UnclosedReplyReturnsNone(instructions: string, data: string, llm: Llm, submissionId: string, reply: string)
    requires llm.clientReady && llm.template125.Some?
    requires llm.invoke(SystemPrompt(instructions, llm.template125.value), UserPrompt(data)) == Some(reply)
    requires llm.loads([]).None?
    requires '{' in reply && !ClosedAfterOpen(reply)
    ensures DecodeReply(reply, llm.loads) == DecodeError([])
    ensures MapToTemplate(instructions, data, "125", llm, submissionId)
      == Tail([LlmInvoke(SystemPrompt(instructions, llm.template125.value), UserPrompt(data))], None)
  {
    UnclosedIsDecodeError(reply, llm.loads);
  }

  /** When `model.invoke` raises, the call is still made, the handler returns `None`, and nothing
      is written. */
  lemma InvokeFailureReturnsNone(instructions: string, data: string, llm: Llm, submissionId: string)
    requires llm.clientReady && llm.template125.Some?
    requires llm.invoke(SystemPrompt(instructions, llm.template125.value), UserPrompt(data)).None?
    ensures MapToTemplate(instructions, data, "125", llm, submissionId)
      == Tail([LlmInvoke(SystemPrompt(instructions, llm.template125.value), UserPrompt(data))], None)
  {
  }
}
