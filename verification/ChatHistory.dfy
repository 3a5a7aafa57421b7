/** Histories as the chat translator and the relay validator read them. */
module ChatHistory {
  import opened Wrappers
  import opened JsonValues
  import opened JsonSpacing
  import opened ChatSigning

  datatype Role = User | Assistant

  /** A content block with its members read; a member missing or of the wrong type is None. */
  datatype Block =
    | TextBlock(text: Option<string>)
    | ThinkingBlock(thinking: Option<string>, signature: Option<string>)
    | ToolUseBlock(id: Option<string>, name: Option<string>, input: Option<Json>)
    | ToolResultBlock(id: Option<string>, output: Option<string>)
    | OtherBlock

  datatype Content = TextContent(text: string) | Blocks(blocks: seq<Block>) | NoContent | BadContent

  datatype Message = Message(role: Option<Role>, content: Content)

  /** What goes wrong: the pairing of tool calls with results, or anything else. */
  datatype Problem = Pairing(why: string) | Other(why: string)

  datatype Call = Call(id: string, name: string, arguments: string)

  /** The transcript sent upstream. */
  datatype Turn =
    | Said(role: Role, text: string)
    | Reply(content: Option<string>, calls: seq<Call>, reasoning: Option<string>)
    | Answer(id: string, text: string)

  datatype Context = Context(signer: ReasoningSigner, model: string, write: Json -> string, digestOf: Json -> string)

  datatype State = State(turns: seq<Turn>, pending: set<string>, seen: set<string>)

  const Start := State([], {}, {})

  /** One message with blocks, midway. */
  datatype Midway = Midway(
    text: string, calls: seq<Call>, answers: seq<Turn>, bindings: seq<ToolBinding>,
    reasoning: Option<(string, string)>, pending: set<string>, seen: set<string>)

  const LATE := "OpenAI Chat tool results must immediately follow tool calls"

  function OnToolUse(c: Context, m: Midway, id: Option<string>, name: Option<string>, input: Option<Json>): Result<Midway, Problem> {
    if |m.bindings| >= MAX_TOOL_CALLS then Err(Other("OpenAI Chat tool history is invalid"))
    else if id.None? || !ShortToken(c.signer.blank, id.value) then Err(Other("OpenAI Chat tool call id is invalid"))
    else if name.None? || !ShortToken(c.signer.blank, name.value) then Err(Other("OpenAI Chat tool name is invalid"))
    else if id.value in m.seen then Err(Pairing("OpenAI Chat tool call id is duplicated"))
    else if input.None? || !input.value.JObject? then Err(Other("OpenAI Chat tool input is invalid"))
    else
      Ok(m.(seen := m.seen + {id.value}, pending := m.pending + {id.value},
            calls := m.calls + [Call(id.value, name.value, Spaced(c.write(input.value)))],
            bindings := m.bindings + [ToolBinding(id.value, name.value, c.digestOf(input.value))]))
  }

  function OnToolResult(c: Context, m: Midway, id: Option<string>, output: Option<string>): Result<Midway, Problem> {
    if id.None? || !ShortToken(c.signer.blank, id.value) then Err(Other("OpenAI Chat tool result id is invalid"))
    else if id.value !in m.pending then Err(Pairing("OpenAI Chat tool result has no matching tool call"))
    else if output.None? then Err(Other("OpenAI Chat tool result content is unsupported"))
    else Ok(m.(pending := m.pending - {id.value}, answers := m.answers + [Answer(id.value, output.value)]))
  }

  function OnBlock(c: Context, role: Role, m: Midway, b: Block): Result<Midway, Problem> {
    match b
    case TextBlock(text) =>
      if text.None? then Err(Other("OpenAI Chat history text block is invalid")) else Ok(m.(text := m.text + text.value))
    case ThinkingBlock(thinking, signature) =>
      if role != Assistant || m.reasoning.Some? then Err(Other("OpenAI Chat thinking history is invalid"))
      else if thinking.None? then Err(Other("OpenAI Chat thinking content is invalid"))
      else if signature.None? then Err(Other("OpenAI Chat reasoning signature is missing"))
      else Ok(m.(reasoning := Some((thinking.value, signature.value))))
    case ToolUseBlock(id, name, input) =>
      if role != Assistant then Err(Pairing("OpenAI Chat tool history is invalid")) else OnToolUse(c, m, id, name, input)
    case ToolResultBlock(id, output) =>
      if role != User then Err(Pairing("OpenAI Chat tool result history is invalid")) else OnToolResult(c, m, id, output)
    case OtherBlock => Err(Other("OpenAI Chat history content block is unsupported"))
  }

  function OnBlocks(c: Context, role: Role, m: Midway, blocks: seq<Block>): Result<Midway, Problem> {
    if blocks == [] then Ok(m)
    else
      var before :- OnBlocks(c, role, m, blocks[..|blocks| - 1]);
      OnBlock(c, role, before, blocks[|blocks| - 1])
  }

  function Begin(st: State): Midway {
    Midway("", [], [], [], None, st.pending, st.seen)
  }

  /** The turns a message with blocks becomes. */
  function Conclude(c: Context, st: State, role: Role, m: Midway): Result<State, Problem> {
    var next := State(st.turns, m.pending, m.seen);
    if st.pending != {} && m.answers == [] then Err(Pairing(LATE))
    else if st.pending != {} && m.pending != {} && m.text != "" then
      Err(Pairing("OpenAI Chat user text cannot precede pending tool results"))
    else
      match role
      case Assistant =>
        if m.reasoning.Some? && !c.signer.Verify(m.reasoning.value.1, c.model, m.reasoning.value.0, m.bindings) then
          Err(Other("OpenAI Chat reasoning signature is invalid"))
        else if m.text == "" && m.calls == [] && m.reasoning.None? then
          Err(Other("OpenAI Chat assistant history has no content"))
        else
          var reply := Reply(if m.text == "" then None else Some(m.text), m.calls,
                             if m.reasoning.Some? then Some(m.reasoning.value.0) else None);
          Ok(next.(turns := st.turns + [reply]))
      case User =>
        var said := if m.answers != [] && m.text == "" then [] else [Said(User, m.text)];
        Ok(next.(turns := st.turns + m.answers + said))
  }

  function OnMessage(c: Context, st: State, msg: Message): Result<State, Problem> {
    if msg.role.None? then Err(Other("OpenAI Chat history role is invalid"))
    else if st.pending != {} && msg.role.value != User then Err(Pairing(LATE))
    else
      match msg.content
      case TextContent(text) =>
        if st.pending != {} then Err(Pairing(LATE))
        else Ok(st.(turns := st.turns + [Said(msg.role.value, text)]))
      case Blocks(blocks) =>
        var m :- OnBlocks(c, msg.role.value, Begin(st), blocks);
        Conclude(c, st, msg.role.value, m)
      case _ => Err(Other("OpenAI Chat history content is invalid"))
  }

  function OnMessages(c: Context, messages: seq<Message>): Result<State, Problem> {
    if messages == [] then Ok(Start)
    else
      var before :- OnMessages(c, messages[..|messages| - 1]);
      OnMessage(c, before, messages[|messages| - 1])
  }

  function Transcript(c: Context, messages: seq<Message>): Result<seq<Turn>, Problem> {
    var st :- OnMessages(c, messages);
    if st.pending != {} then Err(Pairing("OpenAI Chat history ends with incomplete tool calls")) else Ok(st.turns)
  }

  // ---------- The translator's loops ----------

  method TranslateHistory(c: Context, messages: seq<Message>) returns (r: Result<seq<Turn>, Problem>)
    ensures r == Transcript(c, messages)
  {
    var st := Start;
    for i := 0 to |messages|
      invariant OnMessages(c, messages[..i]) == Ok(st)
    {
      MessagesSoFar(c, messages, i);
      var next := TranslateMessage(c, st, messages[i]);
      if next.Err? {
        return Err(next.error);
      }
      st := next.value;
    }
    assert messages[..|messages|] == messages;
    if st.pending != {} {
      return Err(Pairing("OpenAI Chat history ends with incomplete tool calls"));
    }
    r := Ok(st.turns);
  }

  lemma {:induction false} MessagesSoFar(c: Context, messages: seq<Message>, i: nat)
    requires i < |messages| && OnMessages(c, messages[..i]).Ok?
    ensures OnMessages(c, messages[..i + 1]) == OnMessage(c, OnMessages(c, messages[..i]).value, messages[i])
    ensures OnMessages(c, messages[..i + 1]).Err? ==> OnMessages(c, messages) == OnMessages(c, messages[..i + 1])
    decreases |messages| - i
  {
    assert messages[..i + 1][..i] == messages[..i];
    if OnMessages(c, messages[..i + 1]).Err? {
      MessagesFail(c, messages, i + 1);
    }
  }

  lemma {:induction false} MessagesFail(c: Context, messages: seq<Message>, i: nat)
    requires i <= |messages| && OnMessages(c, messages[..i]).Err?
    ensures OnMessages(c, messages) == OnMessages(c, messages[..i])
    decreases |messages| - i
  {
    if i == |messages| {
      assert messages[..i] == messages;
    } else {
      assert messages[..i + 1][..i] == messages[..i];
      MessagesFail(c, messages, i + 1);
    }
  }

  method TranslateMessage(c: Context, st: State, msg: Message) returns (r: Result<State, Problem>)
    ensures r == OnMessage(c, st, msg)
  {
    if msg.role.None? {
      return Err(Other("OpenAI Chat history role is invalid"));
    }
    var role, mustResolve := msg.role.value, st.pending != {};
    if mustResolve && role != User {
      return Err(Pairing(LATE));
    }
    match msg.content {
      case TextContent(text) =>
        if mustResolve {
          return Err(Pairing(LATE));
        }
        return Ok(st.(turns := st.turns + [Said(role, text)]));
      case Blocks(blocks) =>
        var m := Begin(st);
        for i := 0 to |blocks|
          invariant OnBlocks(c, role, Begin(st), blocks[..i]) == Ok(m)
        {
          BlocksSoFar(c, role, Begin(st), blocks, i);
          var next := OnBlock(c, role, m, blocks[i]);
          if next.Err? {
            return Err(next.error);
          }
          m := next.value;
        }
        assert blocks[..|blocks|] == blocks;
        r := Conclude(c, st, role, m);
      case _ =>
        r := Err(Other("OpenAI Chat history content is invalid"));
    }
  }

  lemma BlocksSoFar(c: Context, role: Role, m: Midway, blocks: seq<Block>, i: nat)
    requires i < |blocks| && OnBlocks(c, role, m, blocks[..i]).Ok?
    ensures OnBlocks(c, role, m, blocks[..i + 1]) == OnBlock(c, role, OnBlocks(c, role, m, blocks[..i]).value, blocks[i])
    ensures OnBlocks(c, role, m, blocks[..i + 1]).Err? ==> OnBlocks(c, role, m, blocks) == OnBlocks(c, role, m, blocks[..i + 1])
  {
    assert blocks[..i + 1][..i] == blocks[..i];
    if OnBlocks(c, role, m, blocks[..i + 1]).Err? {
      BlocksFail(c, role, m, blocks, i + 1);
    }
  }

  lemma {:induction false} BlocksFail(c: Context, role: Role, m: Midway, blocks: seq<Block>, i: nat)
    requires i <= |blocks| && OnBlocks(c, role, m, blocks[..i]).Err?
    ensures OnBlocks(c, role, m, blocks) == OnBlocks(c, role, m, blocks[..i])
    decreases |blocks| - i
  {
    if i == |blocks| {
      assert blocks[..i] == blocks;
    } else {
      assert blocks[..i + 1][..i] == blocks[..i];
      BlocksFail(c, role, m, blocks, i + 1);
    }
  }
}
