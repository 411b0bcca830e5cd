/** OpenAI chat completion values (pkg/types/openai), as they are after JSON parsing. */
module ChatTypes {
  import opened Prelude

  datatype Part = TextPart(text: string) | ImagePart(url: string) | FilePart(uri: string) | OtherPart

  /** The MessageContent interface: nil, a plain string or a multipart array. */
  datatype Content = Absent | Text(text: string) | Parts(parts: seq<Part>)

  function PartText(p: Part): string {
    match p
    case TextPart(t) => t
    case ImagePart(u) => "[img:" + u + "]"
    case FilePart(u) => "[file:" + u + "]"
    case OtherPart => ""
  }

  function PartsText(ps: seq<Part>): string {
    if ps == [] then "" else PartText(ps[0]) + PartsText(ps[1..])
  }

  function ExtractText(c: Content): string {
    match c
    case Absent => ""
    case Text(t) => t
    case Parts(ps) => PartsText(ps)
  }

  datatype ToolFunction = ToolFunction(name: string, arguments: string)

  datatype ToolCall = ToolCall(index: int, id: string, typ: string, function_: Option<ToolFunction>)

  datatype Message = Message(role: string, content: Content, reasoning: Content, toolCalls: seq<ToolCall>)

  datatype PromptDetails = PromptDetails(cachedTokens: int, audioTokens: int)

  datatype CompletionDetails = CompletionDetails(reasoningTokens: int, audioTokens: int)

  datatype Usage = Usage(
    completionTokens: int, promptTokens: int, totalTokens: int,
    completionDetails: Option<CompletionDetails>, promptDetails: Option<PromptDetails>)

  /** finishReason is the empty string while the stream is still running. */
  datatype StreamChoice = StreamChoice(finishReason: string, index: int, delta: Option<Message>)

  datatype Chunk = Chunk(
    id: string, created: int, model: string, choices: seq<StreamChoice>, usage: Option<Usage>)

  datatype Choice = Choice(finishReason: string, index: int, message: Option<Message>)

  datatype Response = Response(
    id: string, created: int, object_: string, model: string,
    choices: seq<Choice>, usage: Option<Usage>)

  /** What Body.Parsed() yields for one element of a chunk stream. */
  datatype StreamItem = Parsed(chunk: Chunk) | StreamDone | ParseError | ForeignType
}
