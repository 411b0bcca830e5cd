/** Anthropic messages values (pkg/types/anthropic), as they are after JSON parsing. */
module ClaudeTypes {
  import opened Prelude

  datatype Usage = Usage(
    inputTokens: Option<int>, outputTokens: Option<int>,
    cacheCreation: Option<int>, cacheRead: Option<int>)

  /** A content block; OtherBlock stands for every kind that carries no deltas. */
  datatype Block =
    | TextBlock(text: string)
    | ThinkingBlock(thinking: string, signature: string)
    | ToolUseBlock(id: string, name: string, input: string)
    | OtherBlock(raw: string)

  /** A missing string field of a delta is written as the empty string. */
  datatype ContentDelta =
    | TextDelta(text: string)
    | ThinkingDelta(thinking: string)
    | SignatureDelta(signature: string)
    | InputJsonDelta(partialJson: string)
    | OtherDelta

  datatype StartMessage = StartMessage(
    id: string, typ: string, role: string, model: string, usage: Option<Usage>)

  datatype StopInfo = StopInfo(stopReason: Option<string>, stopSequence: Option<string>)

  datatype Event =
    | MessageStart(message: Option<StartMessage>)
    | BlockStart(index: Option<int>, block: Option<Block>)
    | BlockDelta(index: Option<int>, delta: Option<ContentDelta>)
    | BlockStop(index: Option<int>)
    | MessageDelta(stop: Option<StopInfo>, usage: Option<Usage>)
    | MessageStop
    | OtherEvent

  datatype Response = Response(
    id: string, typ: string, role: string, content: seq<Block>, model: string,
    stopReason: string, stopSequence: Option<string>, usage: Option<Usage>)

  datatype StreamItem = Parsed(event: Event) | StreamDone | ParseError | ForeignType
}
