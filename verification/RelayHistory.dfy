/** The relay's check of a history's tool calls, and what it means for the chat translator. */
module RelayHistory {
  import opened Wrappers
  import opened Utf8
  import opened ChatHistory

  const MAX_BLOCKS: nat := 1024
  const MAX_TOKEN_BYTES: nat := 256

  datatype Relay = Relay(seen: set<string>, pending: set<string>)

  predicate Token(s: Option<string>) {
    s.Some? && s.value != "" && ByteLen(s.value) <= MAX_TOKEN_BYTES
  }

  function BlocksOf(content: Content): Option<seq<Block>> {
    match content
    case Blocks(blocks) => Some(blocks)
    case TextContent(_) => Some([])
    case NoContent => Some([])
    case BadContent => None
  }

  function OnCall(r: Relay, b: Block): Result<Relay, string> {
    match b
    case ToolResultBlock(_, _) => Err("relay history tool_result must have the user role")
    case ToolUseBlock(id, name, input) =>
      if !Token(id) then Err("relay history tool_use id is invalid")
      else if !Token(name) then Err("relay history tool_use name is invalid")
      else if input.None? || !input.value.JObject? then Err("relay history tool_use input is invalid")
      else if id.value in r.seen then Err("relay history contains a duplicate tool_use id")
      else Ok(Relay(r.seen + {id.value}, r.pending + {id.value}))
    case _ => Ok(r)
  }

  function OnCalls(r: Relay, blocks: seq<Block>): Result<Relay, string> {
    if blocks == [] then Ok(r)
    else
      var before :- OnCalls(r, blocks[..|blocks| - 1]);
      OnCall(before, blocks[|blocks| - 1])
  }

  function OnResult(pending: set<string>, results: set<string>, b: Block): Result<set<string>, string> {
    match b
    case ToolUseBlock(_, _, _) => Err("relay history tool_use must have the assistant role")
    case ToolResultBlock(id, _) =>
      if !Token(id) then Err("relay history tool_result id is invalid")
      else if id.value !in pending || id.value in results then
        Err("relay history contains an orphan or duplicate tool_result")
      else Ok(results + {id.value})
    case _ => Ok(results)
  }

  function OnResults(pending: set<string>, blocks: seq<Block>): Result<set<string>, string> {
    if blocks == [] then Ok({})
    else
      var before :- OnResults(pending, blocks[..|blocks| - 1]);
      OnResult(pending, before, blocks[|blocks| - 1])
  }

  function OnRelayMessage(r: Relay, msg: Message): Result<Relay, string> {
    if msg.role.None? then Err("relay history message role is invalid")
    else if BlocksOf(msg.content).None? then Err("relay history message content is invalid")
    else
      var blocks := BlocksOf(msg.content).value;
      if |blocks| > MAX_BLOCKS then Err("relay history message has too many content blocks")
      else
        match msg.role.value
        case Assistant =>
          if r.pending != {} then Err("relay history has unresolved tool calls before an assistant turn")
          else OnCalls(r, blocks)
        case User =>
          var results :- OnResults(r.pending, blocks);
          if results != r.pending then Err("relay history has incomplete tool results") else Ok(r.(pending := {}))
  }

  function OnRelayMessages(messages: seq<Message>): Result<Relay, string> {
    if messages == [] then Ok(Relay({}, {}))
    else
      var before :- OnRelayMessages(messages[..|messages| - 1]);
      OnRelayMessage(before, messages[|messages| - 1])
  }

  predicate Valid(messages: seq<Message>) {
    OnRelayMessages(messages).Ok? && OnRelayMessages(messages).value.pending == {}
  }

  method ValidateRelayToolHistory(messages: seq<Message>) returns (r: Result<(), string>)
    ensures r.Ok? <==> Valid(messages)
  {
    var seen: set<string>, pending: set<string> := {}, {};
    for i := 0 to |messages|
      invariant OnRelayMessages(messages[..i]) == Ok(Relay(seen, pending))
    {
      var msg := messages[i];
      RelaySoFar(messages, i);
      if msg.role.None? {
        return Err("relay history message role is invalid");
      }
      var blocks := BlocksOf(msg.content);
      if blocks.None? {
        return Err("relay history message content is invalid");
      }
      if |blocks.value| > MAX_BLOCKS {
        return Err("relay history message has too many content blocks");
      }
      if msg.role.value == Assistant {
        if pending != {} {
          return Err("relay history has unresolved tool calls before an assistant turn");
        }
        var next := CheckCalls(Relay(seen, pending), blocks.value);
        if next.Err? {
          return Err(next.error);
        }
        seen, pending := next.value.seen, next.value.pending;
      } else {
        var results := CheckResults(pending, blocks.value);
        if results.Err? {
          return Err(results.error);
        }
        if pending != {} {
          if results.value != pending {
            return Err("relay history has incomplete tool results");
          }
          pending := {};
        } else if results.value != {} {
          return Err("relay history contains an orphan tool_result");
        }
      }
    }
    assert messages[..|messages|] == messages;
    if pending != {} {
      return Err("relay history ends with unresolved tool calls");
    }
    r := Ok(());
  }

  method CheckCalls(r: Relay, blocks: seq<Block>) returns (next: Result<Relay, string>)
    ensures next == OnCalls(r, blocks)
  {
    var now := r;
    for i := 0 to |blocks|
      invariant OnCalls(r, blocks[..i]) == Ok(now)
    {
      assert blocks[..i + 1][..i] == blocks[..i];
      var one := OnCall(now, blocks[i]);
      if one.Err? {
        CallsFail(r, blocks, i + 1);
        return Err(one.error);
      }
      now := one.value;
    }
    assert blocks[..|blocks|] == blocks;
    next := Ok(now);
  }

  method CheckResults(pending: set<string>, blocks: seq<Block>) returns (next: Result<set<string>, string>)
    ensures next == OnResults(pending, blocks)
  {
    var now: set<string> := {};
    for i := 0 to |blocks|
      invariant OnResults(pending, blocks[..i]) == Ok(now)
    {
      assert blocks[..i + 1][..i] == blocks[..i];
      var one := OnResult(pending, now, blocks[i]);
      if one.Err? {
        ResultsFail(pending, blocks, i + 1);
        return Err(one.error);
      }
      now := one.value;
    }
    assert blocks[..|blocks|] == blocks;
    next := Ok(now);
  }

  lemma {:induction false} CallsFail(r: Relay, blocks: seq<Block>, i: nat)
    requires i <= |blocks| && OnCalls(r, blocks[..i]).Err?
    ensures OnCalls(r, blocks) == OnCalls(r, blocks[..i])
    decreases |blocks| - i
  {
    if i == |blocks| {
      assert blocks[..i] == blocks;
    } else {
      assert blocks[..i + 1][..i] == blocks[..i];
      CallsFail(r, blocks, i + 1);
    }
  }

  lemma {:induction false} ResultsFail(pending: set<string>, blocks: seq<Block>, i: nat)
    requires i <= |blocks| && OnResults(pending, blocks[..i]).Err?
    ensures OnResults(pending, blocks) == OnResults(pending, blocks[..i])
    decreases |blocks| - i
  {
    if i == |blocks| {
      assert blocks[..i] == blocks;
    } else {
      assert blocks[..i + 1][..i] == blocks[..i];
      ResultsFail(pending, blocks, i + 1);
    }
  }

  lemma {:induction false} RelayFails(messages: seq<Message>, i: nat)
    requires i <= |messages| && OnRelayMessages(messages[..i]).Err?
    ensures OnRelayMessages(messages) == OnRelayMessages(messages[..i])
    decreases |messages| - i
  {
    if i == |messages| {
      assert messages[..i] == messages;
    } else {
      assert messages[..i + 1][..i] == messages[..i];
      RelayFails(messages, i + 1);
    }
  }

  lemma RelaySoFar(messages: seq<Message>, i: nat)
    requires i < |messages| && OnRelayMessages(messages[..i]).Ok?
    ensures OnRelayMessages(messages[..i + 1]) == OnRelayMessage(OnRelayMessages(messages[..i]).value, messages[i])
    ensures OnRelayMessages(messages[..i + 1]).Err? ==> OnRelayMessages(messages).Err?
  {
    assert messages[..i + 1][..i] == messages[..i];
    if OnRelayMessages(messages[..i + 1]).Err? {
      RelayFails(messages, i + 1);
    }
  }

  // ---------- Against the chat translator ----------

  ghost predicate NoPairingProblem<T>(r: Result<T, Problem>) {
    r.Err? ==> r.error.Other?
  }

  /** As long as the translator got through, it tracks the same calls. */
  ghost predicate SameCalls(r: Relay, m: Midway) {
    m.seen == r.seen && m.pending == r.pending && m.answers == []
  }

  lemma {:induction false} CallsAgree(c: Context, st: State, r: Relay, blocks: seq<Block>)
    requires st.seen == r.seen && st.pending == r.pending && OnCalls(r, blocks).Ok?
    ensures
      var chat := OnBlocks(c, Assistant, Begin(st), blocks);
      NoPairingProblem(chat) && (chat.Ok? ==> SameCalls(OnCalls(r, blocks).value, chat.value))
  {
    if blocks != [] {
      CallsAgree(c, st, r, blocks[..|blocks| - 1]);
    }
  }

  ghost predicate SameResults(pending: set<string>, results: set<string>, st: State, m: Midway) {
    && m.seen == st.seen && results <= pending && m.pending == pending - results
    && (m.answers == [] <==> results == {})
  }

  lemma {:induction false} ResultsAgree(c: Context, st: State, blocks: seq<Block>)
    requires OnResults(st.pending, blocks).Ok?
    ensures
      var chat := OnBlocks(c, User, Begin(st), blocks);
      NoPairingProblem(chat) && (chat.Ok? ==> SameResults(st.pending, OnResults(st.pending, blocks).value, st, chat.value))
  {
    if blocks != [] {
      ResultsAgree(c, st, blocks[..|blocks| - 1]);
    }
  }

  lemma MessageAgrees(c: Context, st: State, r: Relay, msg: Message)
    requires st.seen == r.seen && st.pending == r.pending && OnRelayMessage(r, msg).Ok?
    ensures
      var chat, r' := OnMessage(c, st, msg), OnRelayMessage(r, msg).value;
      NoPairingProblem(chat) && (chat.Ok? ==> chat.value.seen == r'.seen && chat.value.pending == r'.pending)
  {
    if msg.content.Blocks? {
      if msg.role.value == Assistant {
        CallsAgree(c, st, r, msg.content.blocks);
      } else {
        ResultsAgree(c, st, msg.content.blocks);
      }
    } else if msg.role.value == User {
      assert OnResults(r.pending, []) == Ok({});
    }
  }

  lemma {:induction false} MessagesAgree(c: Context, messages: seq<Message>)
    requires OnRelayMessages(messages).Ok?
    ensures
      var chat, r := OnMessages(c, messages), OnRelayMessages(messages).value;
      NoPairingProblem(chat) && (chat.Ok? ==> chat.value.seen == r.seen && chat.value.pending == r.pending)
  {
    if messages != [] {
      MessagesAgree(c, messages[..|messages| - 1]);
      if OnMessages(c, messages[..|messages| - 1]).Ok? {
        MessageAgrees(c, OnMessages(c, messages[..|messages| - 1]).value, OnRelayMessages(messages[..|messages| - 1]).value,
                      messages[|messages| - 1]);
      }
    }
  }

  /** A history whose calls and results the relay accepts is never refused by the chat translator for their pairing. */
  lemma RelayedHistoriesPair(c: Context, messages: seq<Message>)
    requires Valid(messages)
    ensures NoPairingProblem(Transcript(c, messages))
  {
    MessagesAgree(c, messages);
  }
}
