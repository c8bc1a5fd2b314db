/** The shapes exchanged with the external services: the chat-completions request body, the
    HTTP reply, and the record of every external call a run makes. */
module Services {
  import opened Wrappers
  import opened Json

  newtype byte = x: int | 0 <= x < 256

  /** One element of a chat message's `content` list. */
  datatype ContentPart =
    | TextPart(text: string)          // {"type": "text", "text": ...}
    | ImageUrlPart(url: string)       // {"type": "image_url", "image_url": {"url": ...}}

  datatype Message = Message(role: string, content: seq<ContentPart>)

  /** The JSON body posted to the chat-completions endpoint. */
  datatype ChatRequest = ChatRequest(model: string, messages: seq<Message>, maxTokens: int, temperature: int)

  /** What `requests.post` yields: a transport failure (an exception), or a status code with the
      `choices[0].message.content` string of the body, `None` when that path is absent or null. */
  datatype HttpReply = TransportError | Reply(status: int, content: Option<string>)

  /** An exception that escapes a pipeline uncaught. */
  datatype PyError =
    | IndexError        // `split(",", 1)[1]` without a comma, or `result[0]` on an empty list
    | Base64Error       // `base64.b64decode` rejected its input
    | ParseServiceError // the document-analysis call raised

  /** One call into the outside world, in the order a run makes them. */
  datatype Call =
    | ChatCompletionsPost(url: string, request: ChatRequest)
    | DocumentParse(pdf: seq<byte>)
    | LlmInvoke(system: string, user: string)
    | WriteJson(path: string, obj: Json)

  /** How a pipeline ends: returning a value (possibly `None`) or raising. */
  datatype Exit = Returned(value: Option<Json>) | Raised(error: PyError)

  /** A whole run: the external calls made, then how it ended. */
  datatype Run = Run(calls: seq<Call>, exit: Exit)
}
