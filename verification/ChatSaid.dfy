/** What a chat history says upstream. */
module ChatSaid {
  // Which messages are accepted, and the turns each becomes, read off its blocks.

  import opened Wrappers
  import Sequences
  import opened Utf8
  import opened JsonValues
  import opened JsonSpacing
  import opened ChatSigning
  import opened ChatHistory

  // ---------- What the blocks hold ----------

  function TextIn(blocks: seq<Block>): string {
    if blocks == [] then ""
    else
      var last := blocks[|blocks| - 1];
      TextIn(blocks[..|blocks| - 1]) + (if last.TextBlock? && last.text.Some? then last.text.value else "")
  }

  predicate IsUse(b: Block) {
    b.ToolUseBlock? && b.id.Some? && b.name.Some? && b.input.Some?
  }

  predicate IsAnswer(b: Block) {
    b.ToolResultBlock? && b.id.Some? && b.output.Some?
  }

  /** Calls as the upstream is told of them, arguments spelled with spaces. */
  function CallsIn(c: Context, blocks: seq<Block>): seq<Call> {
    if blocks == [] then []
    else
      var last := blocks[|blocks| - 1];
      CallsIn(c, blocks[..|blocks| - 1])
      + (if IsUse(last) then [Call(last.id.value, last.name.value, Spaced(c.write(last.input.value)))] else [])
  }

  function BindingsIn(c: Context, blocks: seq<Block>): seq<ToolBinding> {
    if blocks == [] then []
    else
      var last := blocks[|blocks| - 1];
      BindingsIn(c, blocks[..|blocks| - 1])
      + (if IsUse(last) then [ToolBinding(last.id.value, last.name.value, c.digestOf(last.input.value))] else [])
  }

  function AnswersIn(blocks: seq<Block>): seq<Turn> {
    if blocks == [] then []
    else
      var last := blocks[|blocks| - 1];
      AnswersIn(blocks[..|blocks| - 1]) + (if IsAnswer(last) then [Answer(last.id.value, last.output.value)] else [])
  }

  /** The thinking and its signature, if there is any. */
  function ThoughtIn(blocks: seq<Block>): Option<(string, string)> {
    if blocks == [] then None
    else
      var last := blocks[|blocks| - 1];
      if last.ThinkingBlock? && last.thinking.Some? && last.signature.Some?
      then Some((last.thinking.value, last.signature.value)) else ThoughtIn(blocks[..|blocks| - 1])
  }

  function UsedIn(blocks: seq<Block>): set<string> {
    set i | 0 <= i < |blocks| && IsUse(blocks[i]) :: blocks[i].id.value
  }

  function AnsweredIn(blocks: seq<Block>): set<string> {
    set i | 0 <= i < |blocks| && IsAnswer(blocks[i]) :: blocks[i].id.value
  }

  // ---------- What is accepted ----------

  /** An id or name: something, at most 256 bytes, without control or blank characters. */
  predicate Proper(blank: Blank, s: Option<string>) {
    s.Some? && s.value != "" && ByteLen(s.value) <= 256 && forall i | 0 <= i < |s.value| :: !blank(s.value[i])
  }

  predicate Admissible(c: Context, st: State, role: Role, before: seq<Block>, b: Block) {
    match b
    case TextBlock(text) => text.Some?
    case ThinkingBlock(thinking, signature) =>
      role.Assistant? && ThoughtIn(before).None? && thinking.Some? && signature.Some?
    case ToolUseBlock(id, name, input) =>
      && role.Assistant? && |CallsIn(c, before)| < 128 && Proper(c.signer.blank, id) && Proper(c.signer.blank, name)
      && id.value !in st.seen && id.value !in UsedIn(before) && input.Some? && input.value.JObject?
    case ToolResultBlock(id, output) =>
      role.User? && Proper(c.signer.blank, id) && id.value in st.pending && id.value !in AnsweredIn(before) && output.Some?
    case OtherBlock => false
  }

  ghost predicate AllAdmissible(c: Context, st: State, role: Role, blocks: seq<Block>) {
    forall i | 0 <= i < |blocks| :: Admissible(c, st, role, blocks[..i], blocks[i])
  }

  /** What a message needs as a whole. */
  predicate Complete(c: Context, st: State, role: Role, blocks: seq<Block>) {
    && (st.pending != {} ==> role.User? && AnswersIn(blocks) != [] && (TextIn(blocks) == "" || st.pending <= AnsweredIn(blocks)))
    && (role.Assistant? ==>
      && (TextIn(blocks) != "" || CallsIn(c, blocks) != [] || ThoughtIn(blocks).Some?)
      && (ThoughtIn(blocks).Some? ==>
            var (thinking, signature) := ThoughtIn(blocks).value;
            c.signer.Verify(signature, c.model, thinking, BindingsIn(c, blocks))))
  }

  ghost predicate Acceptable(c: Context, st: State, msg: Message) {
    && msg.role.Some?
    && match msg.content
       case TextContent(_) => st.pending == {}
       case Blocks(blocks) =>
         AllAdmissible(c, st, msg.role.value, blocks) && Complete(c, st, msg.role.value, blocks)
       case _ => false
  }

  /** The turns of a message: one that says its text, a reply with its calls, or answers and then any text. */
  function TurnsOf(c: Context, msg: Message): seq<Turn> {
    if msg.role.None? then []
    else
      match msg.content
      case TextContent(text) => [Said(msg.role.value, text)]
      case Blocks(blocks) =>
        if msg.role.value.Assistant? then
          [Reply(if TextIn(blocks) == "" then None else Some(TextIn(blocks)), CallsIn(c, blocks),
                 if ThoughtIn(blocks).Some? then Some(ThoughtIn(blocks).value.0) else None)]
        else
          AnswersIn(blocks) + (if AnswersIn(blocks) != [] && TextIn(blocks) == "" then [] else [Said(User, TextIn(blocks))])
      case _ => []
  }

  function BlocksIn(msg: Message): seq<Block> {
    if msg.content.Blocks? then msg.content.blocks else []
  }

  // ---------- Block by block ----------

  /** What the translator holds midway. */
  ghost predicate HoldsBlocks(c: Context, st: State, blocks: seq<Block>, m: Midway) {
    && m.text == TextIn(blocks) && m.calls == CallsIn(c, blocks) && m.answers == AnswersIn(blocks)
    && m.bindings == BindingsIn(c, blocks) && m.reasoning == ThoughtIn(blocks)
    && m.pending == st.pending + UsedIn(blocks) - AnsweredIn(blocks) && m.seen == st.seen + UsedIn(blocks)
  }

  lemma {:induction false} AsManyBindings(c: Context, blocks: seq<Block>)
    ensures |BindingsIn(c, blocks)| == |CallsIn(c, blocks)|
  {
    if blocks != [] {
      AsManyBindings(c, blocks[..|blocks| - 1]);
    }
  }

  lemma IdsSnoc(front: seq<Block>, b: Block)
    ensures UsedIn(front + [b]) == UsedIn(front) + (if IsUse(b) then {b.id.value} else {})
    ensures AnsweredIn(front + [b]) == AnsweredIn(front) + (if IsAnswer(b) then {b.id.value} else {})
  {
    var blocks := front + [b];
    assert forall i | 0 <= i < |front| :: blocks[i] == front[i];
    assert blocks[|front|] == b;
    forall x | x in UsedIn(front) ensures x in UsedIn(blocks) {
      var i :| 0 <= i < |front| && IsUse(front[i]) && front[i].id.value == x;
      assert IsUse(blocks[i]);
    }
    forall x | x in AnsweredIn(front) ensures x in AnsweredIn(blocks) {
      var i :| 0 <= i < |front| && IsAnswer(front[i]) && front[i].id.value == x;
      assert IsAnswer(blocks[i]);
    }
  }

  /** By role, a message only uses tools or only answers. */
  ghost predicate OneSided(role: Role, blocks: seq<Block>) {
    if role.User? then UsedIn(blocks) == {} else AnsweredIn(blocks) == {}
  }

  ghost predicate Midst(c: Context, st: State, role: Role, blocks: seq<Block>, m: Midway) {
    HoldsBlocks(c, st, blocks, m) && OneSided(role, blocks)
  }

  lemma Unfold(c: Context, front: seq<Block>, b: Block)
    ensures
      var blocks := front + [b];
      && TextIn(blocks) == TextIn(front) + (if b.TextBlock? && b.text.Some? then b.text.value else "")
      && CallsIn(c, blocks) == CallsIn(c, front)
           + (if IsUse(b) then [Call(b.id.value, b.name.value, Spaced(c.write(b.input.value)))] else [])
      && BindingsIn(c, blocks) == BindingsIn(c, front)
           + (if IsUse(b) then [ToolBinding(b.id.value, b.name.value, c.digestOf(b.input.value))] else [])
      && AnswersIn(blocks) == AnswersIn(front) + (if IsAnswer(b) then [Answer(b.id.value, b.output.value)] else [])
      && ThoughtIn(blocks) == (if b.ThinkingBlock? && b.thinking.Some? && b.signature.Some?
                               then Some((b.thinking.value, b.signature.value)) else ThoughtIn(front))
  {
    Sequences.Snoc(front, b);
  }

  lemma NothingMore(c: Context, front: seq<Block>)
    ensures TextIn(front) + "" == TextIn(front) && CallsIn(c, front) + [] == CallsIn(c, front)
    ensures BindingsIn(c, front) + [] == BindingsIn(c, front) && AnswersIn(front) + [] == AnswersIn(front)
  {
  }

  lemma PlainHolds(c: Context, st: State, role: Role, front: seq<Block>, b: Block, m: Midway)
    requires Midst(c, st, role, front, m) && (b.TextBlock? || b.ThinkingBlock? || b.OtherBlock?)
    ensures OnBlock(c, role, m, b).Ok? <==> Admissible(c, st, role, front, b)
    ensures OnBlock(c, role, m, b).Ok? ==> Midst(c, st, role, front + [b], OnBlock(c, role, m, b).value)
  {
    Unfold(c, front, b);
    NothingMore(c, front);
    IdsSnoc(front, b);
  }

  lemma UseHolds(c: Context, st: State, role: Role, front: seq<Block>, b: Block, m: Midway)
    requires Midst(c, st, role, front, m) && b.ToolUseBlock?
    ensures OnBlock(c, role, m, b).Ok? <==> Admissible(c, st, role, front, b)
    ensures OnBlock(c, role, m, b).Ok? ==> Midst(c, st, role, front + [b], OnBlock(c, role, m, b).value)
  {
    Unfold(c, front, b);
    NothingMore(c, front);
    IdsSnoc(front, b);
    AsManyBindings(c, front);
  }

  lemma AnswerHolds(c: Context, st: State, role: Role, front: seq<Block>, b: Block, m: Midway)
    requires Midst(c, st, role, front, m) && b.ToolResultBlock?
    ensures OnBlock(c, role, m, b).Ok? <==> Admissible(c, st, role, front, b)
    ensures OnBlock(c, role, m, b).Ok? ==> Midst(c, st, role, front + [b], OnBlock(c, role, m, b).value)
  {
    Unfold(c, front, b);
    NothingMore(c, front);
    IdsSnoc(front, b);
  }

  lemma BlockHolds(c: Context, st: State, role: Role, front: seq<Block>, b: Block, m: Midway)
    requires Midst(c, st, role, front, m)
    ensures OnBlock(c, role, m, b).Ok? <==> Admissible(c, st, role, front, b)
    ensures OnBlock(c, role, m, b).Ok? ==> Midst(c, st, role, front + [b], OnBlock(c, role, m, b).value)
  {
    if b.ToolUseBlock? {
      UseHolds(c, st, role, front, b, m);
    } else if b.ToolResultBlock? {
      AnswerHolds(c, st, role, front, b, m);
    } else {
      PlainHolds(c, st, role, front, b, m);
    }
  }

  lemma AdmissibleSnoc(c: Context, st: State, role: Role, blocks: seq<Block>)
    requires blocks != []
    ensures
      var n := |blocks| - 1;
      AllAdmissible(c, st, role, blocks)
      <==> AllAdmissible(c, st, role, blocks[..n]) && Admissible(c, st, role, blocks[..n], blocks[n])
  {
    var n := |blocks| - 1;
    forall i | 0 <= i < n ensures blocks[..n][..i] == blocks[..i] && blocks[..n][i] == blocks[i] {
    }
  }

  lemma {:induction false} BlocksHold(c: Context, st: State, role: Role, blocks: seq<Block>)
    ensures OnBlocks(c, role, Begin(st), blocks).Ok? <==> AllAdmissible(c, st, role, blocks)
    ensures OnBlocks(c, role, Begin(st), blocks).Ok? ==> Midst(c, st, role, blocks, OnBlocks(c, role, Begin(st), blocks).value)
  {
    if blocks != [] {
      var front, b := blocks[..|blocks| - 1], blocks[|blocks| - 1];
      BlocksHold(c, st, role, front);
      AdmissibleSnoc(c, st, role, blocks);
      if OnBlocks(c, role, Begin(st), front).Ok? {
        BlockHolds(c, st, role, front, b, OnBlocks(c, role, Begin(st), front).value);
        Sequences.Unsnoc(blocks);
      }
    }
  }

  // ---------- Message by message ----------

  lemma ConcludesAsSaid(c: Context, st: State, role: Role, blocks: seq<Block>, m: Midway)
    requires Midst(c, st, role, blocks, m) && (st.pending != {} ==> role.User?)
    ensures
      var r := Conclude(c, st, role, m);
      && (r.Ok? <==> Complete(c, st, role, blocks))
      && (r.Ok? ==>
        && r.value.turns == st.turns + TurnsOf(c, Message(Some(role), Blocks(blocks)))
        && r.value.pending == m.pending && r.value.seen == m.seen)
  {
    var answers, said := AnswersIn(blocks), [Said(User, TextIn(blocks))];
    Sequences.Associate(st.turns, answers, said);
    Sequences.ConcatEmpty(st.turns + answers);
    Sequences.ConcatEmpty(answers);
  }

  /**
    A message is accepted exactly if every block may stand where it does and the message is complete: what awaits an
    answer is answered first, and a reply says something and carries a signature for it. It adds its turns, and the
    calls it makes and answers are counted.
   */
  lemma MessageSays(c: Context, st: State, msg: Message)
    ensures
      var r := OnMessage(c, st, msg);
      && (r.Ok? <==> Acceptable(c, st, msg))
      && (r.Ok? ==>
        && r.value.turns == st.turns + TurnsOf(c, msg)
        && r.value.pending == st.pending + UsedIn(BlocksIn(msg)) - AnsweredIn(BlocksIn(msg))
        && r.value.seen == st.seen + UsedIn(BlocksIn(msg)))
  {
    if msg.role.Some? && msg.content.Blocks? {
      var role, blocks := msg.role.value, msg.content.blocks;
      BlocksHold(c, st, role, blocks);
      if OnBlocks(c, role, Begin(st), blocks).Ok? && (st.pending != {} ==> role.User?) {
        ConcludesAsSaid(c, st, role, blocks, OnBlocks(c, role, Begin(st), blocks).value);
      }
    }
  }

  function AllTurns(c: Context, messages: seq<Message>): seq<Turn> {
    if messages == [] then [] else AllTurns(c, messages[..|messages| - 1]) + TurnsOf(c, messages[|messages| - 1])
  }

  /** Calls made, and those not answered yet. */
  ghost function Standing(messages: seq<Message>): (set<string>, set<string>) {
    if messages == [] then ({}, {})
    else
      var (seen, pending) := Standing(messages[..|messages| - 1]);
      var blocks := BlocksIn(messages[|messages| - 1]);
      (seen + UsedIn(blocks), pending + UsedIn(blocks) - AnsweredIn(blocks))
  }

  ghost predicate AllAcceptable(c: Context, messages: seq<Message>)
    decreases |messages|
  {
    messages == [] ||
    (&& AllAcceptable(c, messages[..|messages| - 1])
     && var (seen, pending) := Standing(messages[..|messages| - 1]);
     Acceptable(c, State([], pending, seen), messages[|messages| - 1]))
  }

  lemma AcceptableAnywhere(c: Context, st: State, msg: Message)
    ensures Acceptable(c, st, msg) <==> Acceptable(c, st.(turns := []), msg)
  {
    if msg.role.Some? && msg.content.Blocks? {
      forall i | 0 <= i < |msg.content.blocks|
        ensures Admissible(c, st, msg.role.value, msg.content.blocks[..i], msg.content.blocks[i])
                <==> Admissible(c, st.(turns := []), msg.role.value, msg.content.blocks[..i], msg.content.blocks[i])
      {
      }
    }
  }

  lemma {:induction false} MessagesSay(c: Context, messages: seq<Message>)
    ensures OnMessages(c, messages).Ok? <==> AllAcceptable(c, messages)
    ensures OnMessages(c, messages).Ok? ==>
      var (seen, pending) := Standing(messages);
      OnMessages(c, messages).value == State(AllTurns(c, messages), pending, seen)
  {
    if messages != [] {
      var front, last := messages[..|messages| - 1], messages[|messages| - 1];
      MessagesSay(c, front);
      if OnMessages(c, front).Ok? {
        MessageSays(c, OnMessages(c, front).value, last);
        AcceptableAnywhere(c, OnMessages(c, front).value, last);
      }
    }
  }

  /** A history is accepted exactly if each message is, and no call is left open; its transcript is what they say. */
  lemma HistorySays(c: Context, messages: seq<Message>)
    ensures Transcript(c, messages).Ok? <==> AllAcceptable(c, messages) && Standing(messages).1 == {}
    ensures Transcript(c, messages).Ok? ==> Transcript(c, messages).value == AllTurns(c, messages)
  {
    MessagesSay(c, messages);
  }
}
