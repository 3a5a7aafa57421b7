/** One message of an Anthropic conversation, translated into Responses input items. */
module HistoryTranslation {
  import opened Wrappers
  import opened Utf8
  import opened JsonValues
  import opened ProtocolErrors
  import opened ThinkingSignature
  import opened ToolNames
  import Reducer

  datatype Role = User | Assistant

  /** A content block with its members read; a member that is missing or of the wrong type is None. */
  datatype HistoryBlock =
    | TextBlock(text: string)
    | ImageBlock(url: Option<string>)
    | ToolUseBlock(id: Option<string>, name: Option<string>, input: Option<Json>)
    | ToolResultBlock(id: Option<string>, output: Json, textBytes: nat)
    | ThinkingBlock(thinking: string, signature: Option<string>)
    | UnsupportedBlock

  /** The content of a message: one string, or blocks. */
  datatype MessageContent = PlainText(text: string) | BlockList(blocks: seq<HistoryBlock>)

  datatype Part = OutputText(text: string) | InputText(text: string) | InputImage(url: string)

  datatype InputItem =
    | MessageItem(role: Role, parts: seq<Part>)
    | FunctionCall(callId: string, name: string, arguments: string)
    | FunctionOutput(callId: string, output: Json)
    | ReasoningItem(id: string, summary: string, encrypted: string)

  /** What is threaded through the messages of a request. */
  datatype Turn = Turn(
    input: seq<InputItem>, ordinary: seq<Part>, textBytes: nat, reasoningBytes: nat,
    calls: set<string>, results: set<string>)

  type Context = Reducer.Context

  function Flush(t: Turn, role: Role): Turn {
    if t.ordinary == [] then t else t.(input := t.input + [MessageItem(role, t.ordinary)], ordinary := [])
  }

  function ShortString(s: Option<string>, detail: string): Result<string, ProtocolError> {
    if s.None? || s.value == "" || ByteLen(s.value) > Reducer.MAX_ID_BYTES then Err(Invalid(detail)) else Ok(s.value)
  }

  function AddBounded(total: nat, amount: nat, limit: nat, detail: string): Result<nat, ProtocolError> {
    if total + amount > limit then Err(TooLarge(detail)) else Ok(total + amount)
  }

  /** The tool call a thinking block is bound to: that of the block right after it. */
  function BoundTool(blocks: seq<HistoryBlock>, index: nat): Option<string> {
    if index + 1 < |blocks| && blocks[index + 1].ToolUseBlock? then blocks[index + 1].id else None
  }

  function TextPart(role: Role, text: string): Part {
    if role.Assistant? then OutputText(text) else InputText(text)
  }

  function TranslateText(t: Turn, role: Role, text: string): Result<Turn, ProtocolError> {
    var total :- AddBounded(t.textBytes, ByteLen(text), Reducer.MAX_TEXT_BYTES, "text is too large");
    Ok(t.(textBytes := total, ordinary := t.ordinary + [TextPart(role, text)]))
  }

  function TranslateToolUse(
    c: Context, t: Turn, id: Option<string>, name: Option<string>, input: Option<Json>): Result<Turn, ProtocolError>
  {
    var id :- ShortString(id, "tool id is invalid");
    var name :- ShortString(name, "tool name is invalid");
    if id in t.calls then Err(Invalid("tool id is duplicated"))
    else
      var input := if input.Some? then input.value else JObject([]);
      var arguments := c.codec.write(input);
      if !input.JObject? then Err(Invalid("tool arguments must be an object"))
      else if ByteLen(arguments) > Reducer.MAX_TOOL_ARGUMENT_BYTES then Err(TooLarge("tool arguments are too large"))
      else
        Ok(t.(calls := t.calls + {id}, input := t.input + [FunctionCall(id, c.toolNames.CodexName(name), arguments)]))
  }

  function TranslateToolResult(t: Turn, id: Option<string>, output: Json, textBytes: nat): Result<Turn, ProtocolError> {
    var id :- ShortString(id, "tool result id is invalid");
    if id !in t.calls then Err(Invalid("tool result has no matching call"))
    else if id in t.results then Err(Invalid("tool result is duplicated"))
    else
      var total :- AddBounded(t.textBytes, textBytes, Reducer.MAX_TEXT_BYTES, "text is too large");
      Ok(t.(results := t.results + {id}, textBytes := total, input := t.input + [FunctionOutput(id, output)]))
  }

  function TranslateThinking(
    c: Context, t: Turn, thinking: string, signature: Option<string>, tool: Option<string>): Result<Turn, ProtocolError>
  {
    var total :- AddBounded(t.reasoningBytes, ByteLen(thinking), Reducer.MAX_REASONING_BYTES, "reasoning is too large");
    if signature.None? then Err(BadSignature("thinking signature is missing"))
    else
      var verified :- c.signer.Open(signature.value, c.authEpoch, c.accountHash, tool);
      var total :- AddBounded(
        total, ByteLen(verified.content), Reducer.MAX_REASONING_BYTES, "encrypted reasoning is too large");
      Ok(t.(reasoningBytes := total, input := t.input + [ReasoningItem(verified.itemId, thinking, verified.content)]))
  }

  function TranslateBlock(
    c: Context, t: Turn, role: Role, blocks: seq<HistoryBlock>, index: nat): Result<Turn, ProtocolError>
    requires index < |blocks|
  {
    match blocks[index]
    case TextBlock(text) => TranslateText(t, role, text)
    case ImageBlock(url) =>
      if role.Assistant? then Err(Invalid("content block is unsupported"))
      else if url.None? then Err(Invalid("image source is invalid"))
      else Ok(t.(ordinary := t.ordinary + [InputImage(url.value)]))
    case ToolUseBlock(id, name, input) =>
      if role.User? then Err(Invalid("content block is unsupported"))
      else TranslateToolUse(c, Flush(t, role), id, name, input)
    case ToolResultBlock(id, output, textBytes) =>
      if role.Assistant? then Err(Invalid("content block is unsupported"))
      else TranslateToolResult(Flush(t, role), id, output, textBytes)
    case ThinkingBlock(thinking, signature) =>
      if role.User? then Err(Invalid("content block is unsupported"))
      else TranslateThinking(c, Flush(t, role), thinking, signature, BoundTool(blocks, index))
    case UnsupportedBlock => Err(Invalid("content block is unsupported"))
  }

  /** The first n blocks of a message. */
  function TranslateBlocks(
    c: Context, t: Turn, role: Role, blocks: seq<HistoryBlock>, n: nat): Result<Turn, ProtocolError>
    requires n <= |blocks|
  {
    if n == 0 then Ok(t)
    else
      var before :- TranslateBlocks(c, t, role, blocks, n - 1);
      TranslateBlock(c, before, role, blocks, n - 1)
  }

  function TranslateMessage(c: Context, t: Turn, role: Role, blocks: seq<HistoryBlock>): Result<Turn, ProtocolError> {
    var done :- TranslateBlocks(c, t, role, blocks, |blocks|);
    Ok(Flush(done, role))
  }

  function TranslateContent(c: Context, t: Turn, role: Role, content: MessageContent): Result<Turn, ProtocolError> {
    match content
    case PlainText(text) =>
      var total :- AddBounded(t.textBytes, ByteLen(text), Reducer.MAX_TEXT_BYTES, "text is too large");
      Ok(t.(textBytes := total, input := t.input + [MessageItem(role, [TextPart(role, text)])]))
    case BlockList(blocks) => TranslateMessage(c, t, role, blocks)
  }

  /** A message: a string as one item, blocks in one pass, as the gateway translates them. */
  method Translate(c: Context, start: Turn, role: Role, content: MessageContent)
    returns (r: Result<Turn, ProtocolError>)
    ensures r == TranslateContent(c, start, role, content)
  {
    if content.PlainText? {
      var total := start.textBytes + ByteLen(content.text);
      if total > Reducer.MAX_TEXT_BYTES {
        return Err(TooLarge("text is too large"));
      }
      var item := MessageItem(role, [TextPart(role, content.text)]);
      return Ok(start.(textBytes := total, input := start.input + [item]));
    }
    var turn, blocks := start, content.blocks;
    for index := 0 to |blocks|
      invariant TranslateBlocks(c, start, role, blocks, index) == Ok(turn)
    {
      var step := TranslateBlock(c, turn, role, blocks, index);
      if step.Err? {
        FailsForGood(c, start, role, blocks, index + 1, |blocks|);
        return Err(step.error);
      }
      turn := step.value;
    }
    return Ok(Flush(turn, role));
  }

  /** Between messages, a string is translated as the one text block that holds it. */
  lemma PlainTextIsOneBlock(c: Context, t: Turn, role: Role, text: string)
    requires t.ordinary == []
    ensures TranslateContent(c, t, role, PlainText(text)) == TranslateContent(c, t, role, BlockList([TextBlock(text)]))
  {
    var blocks := [TextBlock(text)];
    assert TranslateBlocks(c, t, role, blocks, 0) == Ok(t);
    assert TranslateBlocks(c, t, role, blocks, 1) == TranslateText(t, role, text);
    assert [] + [TextPart(role, text)] == [TextPart(role, text)];
  }

  lemma {:induction false} FailsForGood(c: Context, t: Turn, role: Role, blocks: seq<HistoryBlock>, n: nat, m: nat)
    requires n <= m <= |blocks| && TranslateBlocks(c, t, role, blocks, n).Err?
    ensures TranslateBlocks(c, t, role, blocks, m) == Err(TranslateBlocks(c, t, role, blocks, n).error)
  {
    if n < m {
      FailsForGood(c, t, role, blocks, n, m - 1);
    }
  }
}
