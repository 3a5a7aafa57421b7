/**
  What an upstream response says, read off its events alone: the items in the order in which they were completed, each
  with its text, summary, ciphertext or arguments. And that the reducer holds just that, event by event: completed
  items in its block order, and what was streamed so far for the others.
 */
module UpstreamAccount {
  import opened Wrappers
  import Sequences
  import opened MessageStream
  import opened Reducer
  import opened ReducerInvariant
  import opened ReducerBudgets
  import opened ReducerSteps
  import opened ReducerRuns

  // ---------- The account ----------

  /** An output item as its completion reports it; what was streamed before counts where the completion is silent. */
  datatype Told =
    | ToldText(id: string, text: string)
    | ToldReasoning(id: string, text: string, encrypted: string)
    | ToldTool(id: string, callId: string, name: string, arguments: string)

  /** The reasoning text streamed for an item. */
  function ReasoningSent(es: seq<UpstreamEvent>, id: string): string {
    if es == [] then ""
    else
      var e := es[|es| - 1];
      ReasoningSent(es[..|es| - 1], id) + (if e.ReasoningTextDelta? && e.itemId == Some(id) then e.delta else "")
  }

  /** The arguments streamed for a call. */
  function ArgumentsSent(es: seq<UpstreamEvent>, id: string): string {
    if es == [] then ""
    else
      var e := es[|es| - 1];
      ArgumentsSent(es[..|es| - 1], id) + (if e.ArgumentsDelta? && e.itemId == Some(id) then e.delta else "")
  }

  function CallIdOf(item: Item): string
    requires item.id.Some?
  {
    if item.callId.Some? then item.callId.value else item.id.value
  }

  function SummaryTold(before: seq<UpstreamEvent>, item: Item): string
    requires item.id.Some?
  {
    if item.summary != "" then item.summary else ReasoningSent(before, item.id.value)
  }

  /** Arguments that never came stand for the empty object. */
  function ArgumentsTold(before: seq<UpstreamEvent>, item: Item): string
    requires item.id.Some?
  {
    if item.arguments != "" then item.arguments
    else if ArgumentsSent(before, item.id.value) != "" then ArgumentsSent(before, item.id.value)
    else "{}"
  }

  function ToldBy(before: seq<UpstreamEvent>, item: Item): Option<Told> {
    if item.id.None? then None
    else if item.kind == Some("message") then Some(ToldText(item.id.value, item.content))
    else if item.kind == Some("reasoning") && item.encrypted.Some? then
      Some(ToldReasoning(item.id.value, SummaryTold(before, item), item.encrypted.value))
    else if item.kind == Some("function_call") then
      Some(ToldTool(item.id.value, CallIdOf(item), item.name, ArgumentsTold(before, item)))
    else None
  }

  /** What one more event adds. */
  function ToldNext(before: seq<UpstreamEvent>, e: UpstreamEvent): seq<Told> {
    if e.OutputItemDone? && e.item.Some? && ToldBy(before, e.item.value).Some? then [ToldBy(before, e.item.value).value] else []
  }

  /** The messages, reasoning items and calls of a response, in the order in which they were completed. */
  function Account(es: seq<UpstreamEvent>): seq<Told> {
    if es == [] then [] else Account(es[..|es| - 1]) + ToldNext(es[..|es| - 1], es[|es| - 1])
  }

  /** A response that said nothing is given an empty text. */
  function WholeAccount(es: seq<UpstreamEvent>): seq<Told> {
    if Account(es) == [] then [ToldText(EMPTY_OUTPUT, "")] else Account(es)
  }

  function KeyOf(t: Told): BlockKey {
    match t
    case ToldText(id, _) => TextKey(id)
    case ToldReasoning(id, _, _) => ReasoningKey(id)
    case ToldTool(id, _, _, _) => ToolKey(id)
  }

  function Keys(told: seq<Told>): seq<BlockKey> {
    seq(|told|, i requires 0 <= i < |told| => KeyOf(told[i]))
  }

  // ---------- What the reducer holds ----------

  /** The ciphertext of a reasoning item, held or sealed. */
  function Cipher(s: State, k: string): Option<string> {
    if k in s.reasoning && s.reasoning[k].encrypted.Some? then s.reasoning[k].encrypted
    else if k in s.seals then Some(s.seals[k].encrypted)
    else None
  }

  /** An item is held as told, and for good. */
  ghost predicate HoldsTold(c: Context, s: State, t: Told) {
    match t
    case ToldText(id, text) => id in s.texts && s.texts[id].closed && s.texts[id].text == text
    case ToldReasoning(id, text, encrypted) =>
      id in s.reasoning && s.reasoning[id].done && s.reasoning[id].text == text && Cipher(s, id) == Some(encrypted)
    case ToldTool(id, callId, name, arguments) =>
      && id in s.tools && s.tools[id].closed && s.tools[id].callId == callId
      && s.tools[id].name == c.toolNames.AnthropicName(name) && s.tools[id].arguments == arguments
  }

  /** A block is open and its item not completed. */
  predicate Open(s: State) {
    s.active.Some? && !(s.active.value.ReasoningKey? && s.pending == Some(s.active.value.id))
  }

  /** The blocks of completed items. */
  function Finished(s: State): seq<BlockKey> {
    if Open(s) && s.blockOrder != [] then s.blockOrder[..|s.blockOrder| - 1] else s.blockOrder
  }

  function ReasoningText(s: State, k: string): string { if k in s.reasoning then s.reasoning[k].text else "" }

  function Arguments(s: State, k: string): string { if k in s.tools then s.tools[k].arguments else "" }

  /** Items not completed hold what was streamed. */
  ghost predicate Streams(es: seq<UpstreamEvent>, s: State) {
    && (forall k :: !(k in s.reasoning && s.reasoning[k].done) ==> ReasoningText(s, k) == ReasoningSent(es, k))
    && (forall k :: !(k in s.tools && s.tools[k].closed) ==> Arguments(s, k) == ArgumentsSent(es, k))
  }

  ghost predicate Recorded(c: Context, es: seq<UpstreamEvent>, s: State) {
    && Finished(s) == Keys(Account(es))
    && (forall t | t in Account(es) :: HoldsTold(c, s, t))
    && Streams(es, s)
  }

  // ---------- Steps ----------

  /** Completed items stay as they are. */
  ghost predicate Preserves(s: State, s': State) {
    && (forall k | k in s.texts && s.texts[k].closed :: k in s'.texts && s'.texts[k] == s.texts[k])
    && (forall k | k in s.reasoning && s.reasoning[k].done ::
          && k in s'.reasoning && s'.reasoning[k].done && s'.reasoning[k].text == s.reasoning[k].text
          && Cipher(s', k) == Cipher(s, k))
    && (forall k | k in s.tools && s.tools[k].closed :: k in s'.tools && s'.tools[k] == s.tools[k])
  }

  /** Of items not completed afterwards, only the named ones change what they hold. */
  ghost predicate SameStreams(s: State, s': State, reasoning: Option<string>, tool: Option<string>) {
    && (forall k | Some(k) != reasoning && !(k in s'.reasoning && s'.reasoning[k].done) ::
          !(k in s.reasoning && s.reasoning[k].done) && ReasoningText(s', k) == ReasoningText(s, k))
    && (forall k | Some(k) != tool && !(k in s'.tools && s'.tools[k].closed) ::
          !(k in s.tools && s.tools[k].closed) && Arguments(s', k) == Arguments(s, k))
  }

  ghost predicate Moves(s: State, s': State, reasoning: Option<string>, tool: Option<string>, more: seq<BlockKey>) {
    && Preserves(s, s') && SameStreams(s, s', reasoning, tool) && Finished(s') == Finished(s) + more
    && (ActiveLast(s) ==> ActiveLast(s'))
  }

  /** The open block is the last. */
  predicate ActiveLast(s: State) {
    s.active.Some? ==> s.blockOrder != [] && s.blockOrder[|s.blockOrder| - 1] == s.active.value
  }

  /** A step that completes nothing and streams nothing. */
  ghost predicate Quiet(s: State, s': State) {
    Moves(s, s', None, None, [])
  }

  lemma Stays(s: State)
    ensures Quiet(s, s)
  {
    Sequences.ConcatEmpty(Finished(s));
  }

  /** Only the byte counters, the envelope or the claims change. */
  predicate SameTables(s: State, s': State) {
    && s'.texts == s.texts && s'.reasoning == s.reasoning && s'.tools == s.tools && s'.seals == s.seals
    && s'.blockOrder == s.blockOrder && s'.active == s.active && s'.pending == s.pending
  }

  lemma SameIsQuiet(s: State, s': State)
    requires SameTables(s, s')
    ensures Quiet(s, s')
  {
    Sequences.ConcatEmpty(Finished(s));
  }

  lemma QuietThen(s: State, s1: State, s2: State, reasoning: Option<string>, tool: Option<string>, more: seq<BlockKey>)
    requires Quiet(s, s1) && Moves(s1, s2, reasoning, tool, more)
    ensures Moves(s, s2, reasoning, tool, more)
  {
    Sequences.ConcatEmpty(Finished(s));
  }

  /** What was streamed to an item that is then completed. */
  lemma ThenDone(s: State, s1: State, s2: State, reasoning: Option<string>, tool: Option<string>, more: seq<BlockKey>)
    requires Moves(s, s1, reasoning, tool, []) && Moves(s1, s2, None, None, more)
    requires reasoning.Some? ==> reasoning.value in s2.reasoning && s2.reasoning[reasoning.value].done
    requires tool.Some? ==> tool.value in s2.tools && s2.tools[tool.value].closed
    ensures Moves(s, s2, None, None, more)
  {
    Sequences.ConcatEmpty(Finished(s));
  }

  lemma ClosePendingIsQuiet(c: Context, s: State, toolId: Option<string>)
    requires ClosePendingReasoning(c, s, toolId).Ok?
    ensures Quiet(s, ClosePendingReasoning(c, s, toolId).value.state)
  {
    var s' := ClosePendingReasoning(c, s, toolId).value.state;
    if s.pending.Some? {
      var signature := ClosePendingState(c, s, toolId);
      ClosePendingFrame(c, s, toolId);
      SealingIsQuiet(s, s', s.pending.value, s'.reasoning[s.pending.value], s'.seals[s.pending.value]);
    } else {
      Stays(s);
    }
  }

  lemma SealingIsQuiet(s: State, s': State, id: string, r: ReasoningState, seal: Seal)
    requires s.pending == Some(id) && s.active == Some(ReasoningKey(id)) && s'.active.None?
    requires id in s.reasoning && s.reasoning[id].encrypted == Some(seal.encrypted)
    requires r.text == s.reasoning[id].text && r.done == s.reasoning[id].done && r.encrypted.None?
    requires s'.reasoning == s.reasoning[id := r] && s'.seals == s.seals[id := seal]
    requires s'.texts == s.texts && s'.tools == s.tools && s'.blockOrder == s.blockOrder
    ensures Quiet(s, s')
  {
    Sequences.ConcatEmpty(s.blockOrder);
    forall k | k in s.reasoning && s.reasoning[k].done ensures Cipher(s', k) == Cipher(s, k) {
      if k != id {
        assert s'.reasoning[k] == s.reasoning[k];
      }
    }
  }

  // ---------- Text ----------

  lemma OpenTextIsQuiet(s: State, id: string)
    requires id !in s.texts && OpenText(s, id).Ok?
    ensures Quiet(s, OpenText(s, id).value.state)
  {
    Opened(s.blockOrder, TextKey(id));
  }

  lemma Opened(order: seq<BlockKey>, key: BlockKey)
    ensures (order + [key])[..|order + [key]| - 1] == order && order + [] == order
  {
  }

  lemma PushTextIsQuiet(s: State, id: string, delta: string)
    requires PushText(s, id, delta).Ok?
    ensures Quiet(s, PushText(s, id, delta).value.state)
  {
    Sequences.ConcatEmpty(Finished(s));
  }

  lemma AppendTextIsQuiet(c: Context, s: State, id: string, delta: string)
    requires AppendText(c, s, id, delta).Ok?
    ensures Quiet(s, AppendText(c, s, id, delta).value.state)
  {
    var s1 := ClosePendingReasoning(c, s, None).value.state;
    var s2 := EnsureText(s1, id).value.state;
    ClosePendingIsQuiet(c, s, None);
    if id in s1.texts {
      Stays(s1);
    } else {
      OpenTextIsQuiet(s1, id);
    }
    PushTextIsQuiet(s2, id, delta);
    QuietThen(s, s1, s2, None, None, []);
    QuietThen(s, s2, PushText(s2, id, delta).value.state, None, None, []);
  }

  /** An item whose text comes all at once. */
  lemma AppendedAtOnce(c: Context, s: State, id: string, text: string)
    requires AppendText(c, s, id, text).Ok? && id !in s.texts
    ensures
      var s' := AppendText(c, s, id, text).value.state;
      id in s'.texts && s'.texts[id].text == text && !s'.texts[id].closed
  {
    ClosePendingFrame(c, s, None);
    Sequences.ConcatEmpty(text);
  }

  lemma FinishTextMoves(s: State, id: string)
    requires FinishText(s, id).Ok? && ActiveLast(s)
    ensures
      var s' := FinishText(s, id).value.state;
      && Moves(s, s', None, None, [TextKey(id)])
      && id in s'.texts && s'.texts[id].closed && s'.texts[id].text == s.texts[id].text
  {
    Sequences.Unsnoc(s.blockOrder);
  }

  // ---------- Reasoning ----------

  lemma OpenReasoningIsQuiet(s: State, id: string)
    requires id !in s.reasoning && id !in s.seals && s.pending != Some(id) && OpenReasoning(s, id).Ok?
    ensures Quiet(s, OpenReasoning(s, id).value.state)
  {
    Opened(s.blockOrder, ReasoningKey(id));
  }

  lemma PushReasoningMoves(s: State, id: string, delta: string)
    requires PushReasoning(s, id, delta).Ok?
    ensures
      var s' := PushReasoning(s, id, delta).value.state;
      && Moves(s, s', Some(id), None, [])
      && id in s.reasoning && id in s'.reasoning && !s'.reasoning[id].done
      && s'.reasoning[id].text == s.reasoning[id].text + delta && s'.active == s.active == Some(ReasoningKey(id))
      && s'.blockOrder == s.blockOrder && s'.pending == s.pending
  {
    Sequences.ConcatEmpty(Finished(s));
  }

  lemma SealOtherIsQuiet(c: Context, s: State, id: string)
    requires SealOther(c, s, id).Ok?
    ensures
      var s' := SealOther(c, s, id).value.state;
      Quiet(s, s') && (id in s'.reasoning <==> id in s.reasoning) && ReasoningText(s', id) == ReasoningText(s, id)
  {
    if s.pending.Some? && s.pending.value != id {
      ClosePendingIsQuiet(c, s, None);
      var signature := ClosePendingState(c, s, None);
    } else {
      Stays(s);
    }
  }

  lemma EnsureReasoningIsQuiet(s: State, id: string)
    requires EnsureReasoning(s, id).Ok? && (id in s.reasoning || (id !in s.seals && s.pending != Some(id)))
    ensures
      var s' := EnsureReasoning(s, id).value.state;
      Quiet(s, s') && id in s'.reasoning && s'.reasoning[id].text == ReasoningText(s, id)
  {
    if id in s.reasoning {
      Stays(s);
    } else {
      OpenReasoningIsQuiet(s, id);
    }
  }

  /** A streamed part of a reasoning item. */
  lemma AppendReasoningMoves(c: Context, s: State, id: string, delta: string)
    requires Ciphered(c, s) && AppendReasoning(c, s, id, delta).Ok?
    ensures
      var s' := AppendReasoning(c, s, id, delta).value.state;
      && Moves(s, s', Some(id), None, [])
      && id in s'.reasoning && !s'.reasoning[id].done && s'.reasoning[id].text == ReasoningText(s, id) + delta
      && Open(s') && s'.active == Some(ReasoningKey(id)) && !(id in s.reasoning && s.reasoning[id].done)
  {
    var s1 := SealOther(c, s, id).value.state;
    var s2 := EnsureReasoning(s1, id).value.state;
    SealOtherIsQuiet(c, s, id);
    if s.pending.Some? && s.pending.value != id {
      ClosePendingCiphered(c, s, None);
    }
    EnsureReasoningIsQuiet(s1, id);
    PushReasoningMoves(s2, id, delta);
    var s3 := PushReasoning(s2, id, delta).value.state;
    QuietThen(s1, s2, s3, Some(id), None, []);
    QuietThen(s, s1, s3, Some(id), None, []);
    NotPending(c, s, id, delta);
  }

  lemma SealOtherSpares(c: Context, s: State, id: string)
    requires SealOther(c, s, id).Ok?
    ensures
      var s' := SealOther(c, s, id).value.state;
      && (id in s.reasoning ==> id in s'.reasoning && s'.reasoning[id] == s.reasoning[id])
      && s'.pending == (if s.pending == Some(id) then s.pending else None)
  {
    if s.pending.Some? && s.pending.value != id {
      ClosePendingFrame(c, s, None);
      var signature := ClosePendingState(c, s, None);
    }
  }

  lemma PushedWhileOpen(s: State, id: string, delta: string)
    requires EnsureReasoning(s, id).Ok? && PushReasoning(EnsureReasoning(s, id).value.state, id, delta).Ok?
    ensures
      var s' := PushReasoning(EnsureReasoning(s, id).value.state, id, delta).value.state;
      s'.pending == s.pending && (id in s.reasoning ==> !s.reasoning[id].done)
  {
  }

  /** More text is refused once the item is completed, so none comes while its ciphertext waits. */
  lemma NotPending(c: Context, s: State, id: string, delta: string)
    requires Ciphered(c, s) && AppendReasoning(c, s, id, delta).Ok?
    ensures
      var s' := AppendReasoning(c, s, id, delta).value.state;
      s'.pending != Some(id) && !(id in s.reasoning && s.reasoning[id].done)
  {
    SealOtherSpares(c, s, id);
    PushedWhileOpen(SealOther(c, s, id).value.state, id, delta);
    if id in s.reasoning {
      assert Stage(c, s, id);
    }
  }

  lemma HoldCiphertextMoves(s: State, id: string, encrypted: string)
    requires HoldCiphertext(s, id, encrypted).Ok? && s.active == Some(ReasoningKey(id)) && s.pending != Some(id)
    requires ActiveLast(s)
    ensures
      var s' := HoldCiphertext(s, id, encrypted).value;
      && Moves(s, s', None, None, [ReasoningKey(id)])
      && id in s'.reasoning && s'.reasoning[id].done && s'.reasoning[id].text == s.reasoning[id].text
      && Cipher(s', id) == Some(encrypted)
  {
    Sequences.Unsnoc(s.blockOrder);
  }

  // ---------- Tools ----------

  lemma AddToolIsQuiet(s: State, id: string, callId: string, name: string)
    requires id !in s.tools && AddTool(s, id, callId, name).Ok?
    ensures Quiet(s, AddTool(s, id, callId, name).value)
  {
    Sequences.ConcatEmpty(Finished(s));
  }

  /** A call is registered under what its item says. */
  ghost predicate RegisteredAs(c: Context, s: State, item: Item) {
    && item.id.Some? && item.id.value in s.tools && !s.tools[item.id.value].closed
    && s.tools[item.id.value].callId == CallIdOf(item)
    && s.tools[item.id.value].name == c.toolNames.AnthropicName(item.name)
  }

  lemma RegisterToolIsQuiet(c: Context, s: State, item: Item)
    requires RegisterTool(c, s, item).Ok?
    ensures
      var s' := RegisterTool(c, s, item).value.state;
      && Quiet(s, s') && RegisteredAs(c, s', item)
      && Arguments(s', item.id.value) == Arguments(s, item.id.value)
  {
    var id, callId := item.id.value, CallIdOf(item);
    if id in s.tools {
      Stays(s);
    } else {
      var s1 := ClosePendingReasoning(c, s, Some(callId)).value.state;
      ClosePendingIsQuiet(c, s, Some(callId));
      ClosePendingFrame(c, s, Some(callId));
      AddToolIsQuiet(s1, id, callId, c.toolNames.AnthropicName(item.name));
      QuietThen(s, s1, RegisterTool(c, s, item).value.state, None, None, []);
    }
  }

  lemma StartToolIsQuiet(s: State, id: string)
    requires id in s.tools && !s.tools[id].closed && StartRegisteredTool(s, id).Ok?
    ensures
      var s' := StartRegisteredTool(s, id).value.state;
      && Quiet(s, s') && id in s'.tools && s'.tools[id] == s.tools[id].(index := s'.tools[id].index)
      && s'.active == Some(ToolKey(id))
  {
    if s.tools[id].index.Some? {
      Stays(s);
    } else {
      var s' := StartRegisteredTool(s, id).value.state;
      assert s'.tools == s.tools[id := s'.tools[id]];
      ToolOpened(s, s', id, s'.tools[id]);
    }
  }

  lemma ToolOpened(s: State, s': State, id: string, t: ToolState)
    requires id in s.tools && !s.tools[id].closed && !t.closed && t.arguments == s.tools[id].arguments
    requires s'.tools == s.tools[id := t] && s'.texts == s.texts && s'.reasoning == s.reasoning && s'.seals == s.seals
    requires s.active.None? && s'.active == Some(ToolKey(id)) && s'.blockOrder == s.blockOrder + [ToolKey(id)]
    ensures Quiet(s, s')
  {
    Opened(s.blockOrder, ToolKey(id));
  }

  lemma PushArgumentsMoves(s: State, id: string, delta: string)
    requires PushArguments(s, id, delta).Ok? && id in s.tools && !s.tools[id].closed
    ensures
      var s' := PushArguments(s, id, delta).value.state;
      && Moves(s, s', None, Some(id), [])
      && id in s'.tools && s'.tools[id] == s.tools[id].(arguments := s.tools[id].arguments + delta)
      && s'.active == s.active && s'.blockOrder == s.blockOrder
  {
    Sequences.ConcatEmpty(Finished(s));
  }

  /** A streamed part of a call's arguments. */
  lemma AppendToolMoves(s: State, id: string, callId: Option<string>, delta: string)
    requires AppendTool(s, id, callId, delta).Ok?
    ensures
      var s' := AppendTool(s, id, callId, delta).value.state;
      && Moves(s, s', None, Some(id), [])
      && id in s.tools && id in s'.tools && !s.tools[id].closed && s'.active == Some(ToolKey(id))
      && s'.tools[id] == s.tools[id].(index := s'.tools[id].index, arguments := s.tools[id].arguments + delta)
  {
    StartToolIsQuiet(s, id);
    var s1 := StartRegisteredTool(s, id).value.state;
    PushArgumentsMoves(s1, id, delta);
    QuietThen(s, s1, PushArguments(s1, id, delta).value.state, None, Some(id), []);
  }

  lemma FillAndCloseMoves(c: Context, s: State, id: string)
    requires FillAndClose(c, s, id).Ok? && ActiveLast(s)
    ensures
      var s' := FillAndClose(c, s, id).value.state;
      && id in s.tools && id in s'.tools && s'.tools[id].closed
      && s'.tools[id].callId == s.tools[id].callId && s'.tools[id].name == s.tools[id].name
      && s'.tools[id].arguments == (if s.tools[id].arguments == "" then "{}" else s.tools[id].arguments)
      && Moves(s, s', None, None, [ToolKey(id)])
  {
    ToolFilledAndClosed(c, s, id);
    Sequences.Unsnoc(s.blockOrder);
    var s' := FillAndClose(c, s, id).value.state;
    assert s'.tools == s.tools[id := s'.tools[id]];
  }

  lemma ToolFilledAndClosed(c: Context, s: State, id: string)
    requires FillAndClose(c, s, id).Ok?
    ensures
      var s' := FillAndClose(c, s, id).value.state;
      && id in s.tools && id in s'.tools && !s.tools[id].closed && s.active == Some(ToolKey(id))
      && s'.tools == s.tools[id := s'.tools[id]] && s'.tools[id].closed
      && s'.tools[id].callId == s.tools[id].callId && s'.tools[id].name == s.tools[id].name
      && s'.tools[id].arguments == (if s.tools[id].arguments == "" then "{}" else s.tools[id].arguments)
      && s'.texts == s.texts && s'.reasoning == s.reasoning && s'.seals == s.seals
      && s'.blockOrder == s.blockOrder && s'.active.None?
  {
  }

  // ---------- Completed items ----------

  lemma FinishMessageMoves(c: Context, s: State, item: Item)
    requires FinishMessageItem(c, s, item).Ok? && ActiveLast(s)
    ensures
      var s' := FinishMessageItem(c, s, item).value.state;
      && item.id.Some? && Moves(s, s', None, None, [TextKey(item.id.value)])
      && HoldsTold(c, s', ToldText(item.id.value, item.content))
  {
    var id, s1 := item.id.value, s;
    if id !in s.texts {
      AppendTextIsQuiet(c, s, id, item.content);
      AppendedAtOnce(c, s, id, item.content);
      s1 := AppendText(c, s, id, item.content).value.state;
    } else {
      Stays(s);
    }
    FinishTextMoves(s1, id);
    QuietThen(s, s1, FinishText(s1, id).value.state, None, None, [TextKey(id)]);
  }

  /** The summary, from what was streamed and what the completed item says. */
  lemma SettleSummaryMoves(c: Context, s: State, es: seq<UpstreamEvent>, item: Item)
    requires item.id.Some? && SettleSummary(c, s, item.id.value, item.summary).Ok?
    requires Ordered(s) && Ciphered(c, s) && Streams(es, s) && !(item.id.value in s.reasoning && s.reasoning[item.id.value].done)
    ensures
      var id, s' := item.id.value, SettleSummary(c, s, item.id.value, item.summary).value.state;
      && Moves(s, s', Some(id), None, [])
      && id in s'.reasoning && !s'.reasoning[id].done && s'.reasoning[id].text == SummaryTold(es, item)
      && s'.active == Some(ReasoningKey(id)) && s'.pending != Some(id) && ActiveLast(s')
  {
    var id := item.id.value;
    assert ReasoningText(s, id) == ReasoningSent(es, id);
    if id !in s.reasoning || (s.reasoning[id].text == "" && item.summary != "") {
      AppendReasoningMoves(c, s, id, item.summary);
      Sequences.ConcatEmpty(item.summary);
    } else {
      Sequences.ConcatEmpty(Finished(s));
      assert Stage(c, s, id);
      UnclosedIsActive(s, ReasoningKey(id));
    }
  }

  lemma FinishReasoningMoves(c: Context, s: State, es: seq<UpstreamEvent>, item: Item)
    requires FinishReasoning(c, s, item).Ok? && Ordered(s) && Ciphered(c, s) && Streams(es, s)
    ensures
      var s' := FinishReasoning(c, s, item).value.state;
      && item.id.Some? && item.encrypted.Some? && Moves(s, s', None, None, [ReasoningKey(item.id.value)])
      && HoldsTold(c, s', ToldReasoning(item.id.value, SummaryTold(es, item), item.encrypted.value))
  {
    var id := item.id.value;
    var s1 := SettleSummary(c, s, id, item.summary).value.state;
    OnceOnly(c, s, item);
    SettleSummaryMoves(c, s, es, item);
    HoldCiphertextMoves(s1, id, item.encrypted.value);
    ThenDone(s, s1, HoldCiphertext(s1, id, item.encrypted.value).value, Some(id), None, [ReasoningKey(id)]);
  }

  /** An item is completed once. */
  lemma OnceOnly(c: Context, s: State, item: Item)
    requires FinishReasoning(c, s, item).Ok? && Ciphered(c, s)
    ensures item.id.Some? && !(item.id.value in s.reasoning && s.reasoning[item.id.value].done)
  {
    var id := item.id.value;
    if id !in s.reasoning || (s.reasoning[id].text == "" && item.summary != "") {
      NotPending(c, s, id, item.summary);
    }
  }

  lemma SettleArgumentsMoves(s: State, id: string, item: Item)
    requires SettleArguments(s, id, item).Ok? && id in s.tools && s.active == Some(ToolKey(id)) && !s.tools[id].closed
    ensures
      var s' := SettleArguments(s, id, item).value.state;
      && Moves(s, s', None, Some(id), [])
      && id in s'.tools && s'.active == Some(ToolKey(id))
      && s'.tools[id] == s.tools[id].(
           index := s'.tools[id].index, arguments := if item.arguments != "" then item.arguments else s.tools[id].arguments)
  {
    if s.tools[id].arguments == "" && item.arguments != "" {
      AppendToolMoves(s, id, item.callId, item.arguments);
      Sequences.ConcatEmpty(item.arguments);
    } else {
      Sequences.ConcatEmpty(Finished(s));
    }
  }

  lemma FinishToolMoves(c: Context, s: State, es: seq<UpstreamEvent>, item: Item)
    requires FinishTool(c, s, item).Ok? && Streams(es, s) && ActiveLast(s)
    ensures
      var s' := FinishTool(c, s, item).value.state;
      && item.id.Some? && Moves(s, s', None, None, [ToolKey(item.id.value)])
      && HoldsTold(c, s', ToldTool(item.id.value, CallIdOf(item), item.name, ArgumentsTold(es, item)))
  {
    var id := item.id.value;
    var s1 := RegisterTool(c, s, item).value.state;
    RegisterToolIsQuiet(c, s, item);
    assert Arguments(s, id) == ArgumentsSent(es, id);
    var s2 := StartRegisteredTool(s1, id).value.state;
    StartToolIsQuiet(s1, id);
    QuietThen(s, s1, s2, None, None, []);
    StartedToolFinishes(c, s, s2, es, item);
  }

  lemma StartedToolFinishes(c: Context, s: State, s2: State, es: seq<UpstreamEvent>, item: Item)
    requires item.id.Some? && Quiet(s, s2) && ActiveLast(s) && RegisteredAs(c, s2, item) && s2.active == Some(ToolKey(item.id.value))
    requires s2.tools[item.id.value].arguments == ArgumentsSent(es, item.id.value)
    requires SettleArguments(s2, item.id.value, item).Ok?
    requires FillAndClose(c, SettleArguments(s2, item.id.value, item).value.state, item.id.value).Ok?
    ensures
      var s' := FillAndClose(c, SettleArguments(s2, item.id.value, item).value.state, item.id.value).value.state;
      && Moves(s, s', None, None, [ToolKey(item.id.value)])
      && HoldsTold(c, s', ToldTool(item.id.value, CallIdOf(item), item.name, ArgumentsTold(es, item)))
  {
    var id := item.id.value;
    var s3 := SettleArguments(s2, id, item).value.state;
    SettleArgumentsMoves(s2, id, item);
    FillAndCloseMoves(c, s3, id);
    QuietThen(s, s2, s3, None, Some(id), []);
    ThenDone(s, s3, FillAndClose(c, s3, id).value.state, None, Some(id), [ToolKey(id)]);
  }

  // ---------- One event ----------

  /** An event that only changes what is held of the items named, if any, and completes those it tells of. */
  lemma StillRecorded(c: Context, es: seq<UpstreamEvent>, e: UpstreamEvent, s: State, s': State, told: seq<Told>)
    requires Recorded(c, es, s) && Moves(s, s', None, None, Keys(told)) && told == ToldNext(es, e)
    requires forall t | t in told :: HoldsTold(c, s', t)
    requires !e.ReasoningTextDelta? && !e.ArgumentsDelta?
    ensures Recorded(c, es + [e], s')
  {
    AccountNext(es, e);
    KeysConcat(Account(es), told);
    ToldStay(c, s, s', Account(es));
    SentNext(es, e);
  }

  /** An event that tells of nothing and streams nothing. */
  lemma QuietRecorded(c: Context, es: seq<UpstreamEvent>, e: UpstreamEvent, s: State, s': State)
    requires Recorded(c, es, s) && Quiet(s, s') && ToldNext(es, e) == [] && !e.ReasoningTextDelta? && !e.ArgumentsDelta?
    ensures Recorded(c, es + [e], s')
  {
    assert Keys([]) == [];
    StillRecorded(c, es, e, s, s', []);
  }

  lemma AccountNext(es: seq<UpstreamEvent>, e: UpstreamEvent)
    ensures Account(es + [e]) == Account(es) + ToldNext(es, e)
  {
    Sequences.Snoc(es, e);
  }

  lemma SentNext(es: seq<UpstreamEvent>, e: UpstreamEvent)
    ensures forall k :: ReasoningSent(es + [e], k)
                        == ReasoningSent(es, k) + (if e.ReasoningTextDelta? && e.itemId == Some(k) then e.delta else "")
    ensures forall k :: ArgumentsSent(es + [e], k)
                        == ArgumentsSent(es, k) + (if e.ArgumentsDelta? && e.itemId == Some(k) then e.delta else "")
  {
    Sequences.Snoc(es, e);
  }

  lemma KeysConcat(a: seq<Told>, b: seq<Told>)
    ensures Keys(a + b) == Keys(a) + Keys(b)
  {
  }

  lemma ToldStay(c: Context, s: State, s': State, told: seq<Told>)
    requires Preserves(s, s') && forall t | t in told :: HoldsTold(c, s, t)
    ensures forall t | t in told :: HoldsTold(c, s', t)
  {
  }

  /** A streamed part of a reasoning item. */
  lemma ReasoningRecorded(c: Context, es: seq<UpstreamEvent>, e: UpstreamEvent, s: State, s': State, id: string)
    requires Recorded(c, es, s) && e.ReasoningTextDelta? && e.itemId == Some(id)
    requires Moves(s, s', Some(id), None, []) && !(id in s.reasoning && s.reasoning[id].done)
    requires ReasoningText(s', id) == ReasoningText(s, id) + e.delta
    ensures Recorded(c, es + [e], s')
  {
    StreamAccount(c, es, e, s, s', Some(id), None);
    forall k | !(k in s'.reasoning && s'.reasoning[k].done) ensures ReasoningText(s', k) == ReasoningSent(es + [e], k) {
      SentOf(es, e, k);
    }
    forall k | !(k in s'.tools && s'.tools[k].closed) ensures Arguments(s', k) == ArgumentsSent(es + [e], k) {
      SentOf(es, e, k);
    }
  }

  /** A streamed part of a call's arguments. */
  lemma ArgumentsRecorded(c: Context, es: seq<UpstreamEvent>, e: UpstreamEvent, s: State, s': State, id: string)
    requires Recorded(c, es, s) && e.ArgumentsDelta? && e.itemId == Some(id)
    requires Moves(s, s', None, Some(id), []) && !(id in s.tools && s.tools[id].closed)
    requires Arguments(s', id) == Arguments(s, id) + e.delta
    ensures Recorded(c, es + [e], s')
  {
    StreamAccount(c, es, e, s, s', None, Some(id));
    forall k | !(k in s'.reasoning && s'.reasoning[k].done) ensures ReasoningText(s', k) == ReasoningSent(es + [e], k) {
      SentOf(es, e, k);
    }
    forall k | !(k in s'.tools && s'.tools[k].closed) ensures Arguments(s', k) == ArgumentsSent(es + [e], k) {
      SentOf(es, e, k);
    }
  }

  lemma SentOf(es: seq<UpstreamEvent>, e: UpstreamEvent, k: string)
    ensures ReasoningSent(es + [e], k)
            == ReasoningSent(es, k) + (if e.ReasoningTextDelta? && e.itemId == Some(k) then e.delta else "")
    ensures ArgumentsSent(es + [e], k)
            == ArgumentsSent(es, k) + (if e.ArgumentsDelta? && e.itemId == Some(k) then e.delta else "")
    ensures !(e.ReasoningTextDelta? && e.itemId == Some(k)) ==> ReasoningSent(es + [e], k) == ReasoningSent(es, k)
    ensures !(e.ArgumentsDelta? && e.itemId == Some(k)) ==> ArgumentsSent(es + [e], k) == ArgumentsSent(es, k)
  {
    Sequences.Snoc(es, e);
    Sequences.ConcatEmpty(ReasoningSent(es, k));
    Sequences.ConcatEmpty(ArgumentsSent(es, k));
  }

  lemma StreamAccount(
      c: Context, es: seq<UpstreamEvent>, e: UpstreamEvent, s: State, s': State, reasoning: Option<string>, tool: Option<string>)
    requires Recorded(c, es, s) && Moves(s, s', reasoning, tool, []) && ToldNext(es, e) == []
    ensures Finished(s') == Keys(Account(es + [e])) && forall t | t in Account(es + [e]) :: HoldsTold(c, s', t)
  {
    AccountNext(es, e);
    Sequences.ConcatEmpty(Account(es));
    Sequences.ConcatEmpty(Finished(s));
    ToldStay(c, s, s', Account(es));
  }

  // ---------- Runs ----------

  /** The blocks of a completed response are its items, in the order in which they were completed, as told. */
  ghost predicate HoldsAccount(c: Context, es: seq<UpstreamEvent>, s: State) {
    s.blockOrder == Keys(WholeAccount(es)) && forall t | t in WholeAccount(es) :: HoldsTold(c, s, t)
  }

  lemma ClaimedIsQuiet(s: State, id: string, kind: string)
    requires ClaimOutputItem(s, id, kind).Ok?
    ensures SameTables(s, ClaimOutputItem(s, id, kind).value) && Quiet(s, ClaimOutputItem(s, id, kind).value)
  {
    SameIsQuiet(s, ClaimOutputItem(s, id, kind).value);
  }

  lemma ClaimedStreams(es: seq<UpstreamEvent>, s: State, s': State)
    requires Streams(es, s) && SameTables(s, s')
    ensures Streams(es, s')
  {
    assert forall k :: ReasoningText(s', k) == ReasoningText(s, k) && Arguments(s', k) == Arguments(s, k);
  }

  lemma TextDeltaRecorded(c: Context, es: seq<UpstreamEvent>, e: UpstreamEvent, s: State)
    requires Recorded(c, es, s) && s.started && e.OutputTextDelta? && ApplyTextDelta(c, s, e.itemId, e.delta).Ok?
    ensures Recorded(c, es + [e], ApplyTextDelta(c, s, e.itemId, e.delta).value.state)
  {
    var id := e.itemId.value;
    var claimed := ClaimOutputItem(s, id, "message").value;
    ClaimedIsQuiet(s, id, "message");
    AppendTextIsQuiet(c, claimed, id, e.delta);
    QuietThen(s, claimed, AppendText(c, claimed, id, e.delta).value.state, None, None, []);
    QuietRecorded(c, es, e, s, AppendText(c, claimed, id, e.delta).value.state);
  }

  lemma ReasoningDeltaRecorded(c: Context, es: seq<UpstreamEvent>, e: UpstreamEvent, s: State)
    requires Recorded(c, es, s) && Ciphered(c, s) && s.started
    requires e.ReasoningTextDelta? && ApplyReasoningDelta(c, s, e.itemId, e.delta).Ok?
    ensures Recorded(c, es + [e], ApplyReasoningDelta(c, s, e.itemId, e.delta).value.state)
  {
    var id := e.itemId.value;
    var claimed := ClaimOutputItem(s, id, "reasoning").value;
    ClaimedIsQuiet(s, id, "reasoning");
    CipheredFrame(c, s, claimed);
    AppendReasoningMoves(c, claimed, id, e.delta);
    var s' := AppendReasoning(c, claimed, id, e.delta).value.state;
    QuietThen(s, claimed, s', Some(id), None, []);
    ReasoningRecorded(c, es, e, s, s', id);
  }

  lemma ArgumentsDeltaRecorded(c: Context, es: seq<UpstreamEvent>, e: UpstreamEvent, s: State)
    requires Recorded(c, es, s) && s.started
    requires e.ArgumentsDelta? && ApplyArgumentsDelta(c, s, e.itemId, e.callId, e.delta).Ok?
    ensures Recorded(c, es + [e], ApplyArgumentsDelta(c, s, e.itemId, e.callId, e.delta).value.state)
  {
    var id := e.itemId.value;
    var claimed := ClaimOutputItem(s, id, "function_call").value;
    ClaimedIsQuiet(s, id, "function_call");
    AppendToolMoves(claimed, id, e.callId, e.delta);
    var s' := AppendTool(claimed, id, e.callId, e.delta).value.state;
    QuietThen(s, claimed, s', None, Some(id), []);
    ArgumentsRecorded(c, es, e, s, s', id);
  }

  lemma NotedIsQuiet(s: State, item: Item)
    requires NoteOutputItem(s, item).Ok?
    ensures SameTables(s, NoteOutputItem(s, item).value) && Quiet(s, NoteOutputItem(s, item).value)
  {
    ClaimedIsQuiet(s, if item.id.Some? then item.id.value else item.digestId, item.kind.value);
  }

  lemma ItemAddedRecorded(c: Context, es: seq<UpstreamEvent>, e: UpstreamEvent, s: State)
    requires Recorded(c, es, s) && s.started && e.OutputItemAdded? && e.item.Some? && ApplyItemAdded(c, s, e.item.value).Ok?
    ensures Recorded(c, es + [e], ApplyItemAdded(c, s, e.item.value).value.state)
  {
    ItemAddedIsQuiet(c, s, e.item.value);
    QuietRecorded(c, es, e, s, ApplyItemAdded(c, s, e.item.value).value.state);
  }

  lemma ItemAddedIsQuiet(c: Context, s: State, item: Item)
    requires s.started && ApplyItemAdded(c, s, item).Ok?
    ensures Quiet(s, ApplyItemAdded(c, s, item).value.state)
  {
    var noted := NoteOutputItem(s, item).value;
    NotedIsQuiet(s, item);
    if item.kind == Some("function_call") {
      RegisterToolIsQuiet(c, noted, item);
      QuietThen(s, noted, RegisterTool(c, noted, item).value.state, None, None, []);
    }
  }

  /** The part of a completed item's event that depends on its kind. */
  function Finish(c: Context, s: State, item: Item): Outcome {
    if item.kind == Some("reasoning") then FinishReasoning(c, s, item)
    else if item.kind == Some("function_call") then FinishTool(c, s, item)
    else if item.kind == Some("message") then FinishMessageItem(c, s, item)
    else Ok(Emission(s, []))
  }

  lemma ItemDoneIs(c: Context, s: State, item: Item)
    requires s.started && ApplyItemDone(c, s, item).Ok?
    ensures NoteOutputItem(s, item).Ok? && Finish(c, NoteOutputItem(s, item).value, item).Ok?
    ensures ApplyItemDone(c, s, item).value.state == Finish(c, NoteOutputItem(s, item).value, item).value.state
  {
  }

  /** What finishing an item does to the state is what the event tells. */
  lemma FinishMoves(c: Context, es: seq<UpstreamEvent>, s: State, item: Item)
    requires Finish(c, s, item).Ok? && Ordered(s) && Ciphered(c, s) && ActiveLast(s) && Streams(es, s)
    ensures
      var s', told := Finish(c, s, item).value.state, ToldBy(es, item);
      if told.Some? then Moves(s, s', None, None, [KeyOf(told.value)]) && HoldsTold(c, s', told.value) else Quiet(s, s')
  {
    if item.kind == Some("reasoning") {
      FinishReasoningMoves(c, s, es, item);
    } else if item.kind == Some("function_call") {
      FinishToolMoves(c, s, es, item);
    } else if item.kind == Some("message") {
      FinishMessageMoves(c, s, item);
    } else {
      Stays(s);
    }
  }

  lemma ItemDoneRecorded(c: Context, es: seq<UpstreamEvent>, e: UpstreamEvent, s: State, l: Life, m: Message)
    requires Recorded(c, es, s) && Underway(c, s, l, m)
    requires e.OutputItemDone? && e.item.Some? && ApplyItemDone(c, s, e.item.value).Ok?
    ensures Recorded(c, es + [e], ApplyItemDone(c, s, e.item.value).value.state)
  {
    var item := e.item.value;
    ItemDoneIs(c, s, item);
    var noted := NoteOutputItem(s, item).value;
    NotedIsQuiet(s, item);
    ClaimedStreams(es, s, noted);
    NoteKeeps(c, s, l, m, item);
    FinishMoves(c, es, noted, item);
    var s' := Finish(c, noted, item).value.state;
    if ToldBy(es, item).Some? {
      DoneRecorded(c, es, e, s, noted, s');
    } else {
      QuietThen(s, noted, s', None, None, []);
      QuietRecorded(c, es, e, s, s');
    }
  }

  /** A completed item is told of, and held as told. */
  lemma DoneRecorded(c: Context, es: seq<UpstreamEvent>, e: UpstreamEvent, s: State, noted: State, s': State)
    requires Recorded(c, es, s) && Quiet(s, noted)
    requires e.OutputItemDone? && e.item.Some? && ToldBy(es, e.item.value).Some?
    requires
      var told := ToldBy(es, e.item.value).value;
      Moves(noted, s', None, None, [KeyOf(told)]) && HoldsTold(c, s', told)
    ensures Recorded(c, es + [e], s')
  {
    var told := ToldBy(es, e.item.value).value;
    QuietThen(s, noted, s', None, None, [KeyOf(told)]);
    assert Keys([told]) == [KeyOf(told)];
    StillRecorded(c, es, e, s, s', [told]);
  }

  lemma TerminalHolds(c: Context, es: seq<UpstreamEvent>, e: UpstreamEvent, s: State, usage: Usage, maxTokens: bool)
    requires Recorded(c, es, s) && s.started && (e.Completed? || e.Incomplete?)
    requires FinishTerminal(c, s, usage, maxTokens).Ok?
    ensures HoldsAccount(c, es + [e], FinishTerminal(c, s, usage, maxTokens).value.state)
  {
    var s1 := ClosePendingReasoning(c, s, None).value.state;
    ClosePendingIsQuiet(c, s, None);
    QuietRecorded(c, es, e, s, s1);
    ContentHolds(c, es + [e], s1);
    ConcludedHolds(c, es + [e], EnsureContent(c, s1).value.state, usage, maxTokens);
  }

  lemma ContentHolds(c: Context, es: seq<UpstreamEvent>, s: State)
    requires Recorded(c, es, s) && EnsureContent(c, s).Ok?
    ensures HoldsAccount(c, es, EnsureContent(c, s).value.state)
  {
    ContentIs(c, s);
    SomeToldIff(es, s);
    if s.blockOrder == [] {
      EmptyOutputHolds(c, s);
      OnlyEmptyHolds(c, es, EnsureContent(c, s).value.state);
    } else {
      AllToldHolds(c, es, s);
    }
  }

  lemma ContentIs(c: Context, s: State)
    requires EnsureContent(c, s).Ok?
    ensures s.active.None?
    ensures EnsureContent(c, s) == (if s.blockOrder == [] then EmptyOutput(c, s) else Ok(Emission(s, [])))
  {
  }

  lemma SomeToldIff(es: seq<UpstreamEvent>, s: State)
    requires Finished(s) == Keys(Account(es)) && s.active.None?
    ensures s.blockOrder == Keys(Account(es)) && (s.blockOrder == [] <==> Account(es) == [])
  {
    assert |Account(es)| == |Keys(Account(es))|;
  }

  lemma OnlyEmptyHolds(c: Context, es: seq<UpstreamEvent>, s: State)
    requires Account(es) == []
    requires s.blockOrder == [TextKey(EMPTY_OUTPUT)] && HoldsTold(c, s, ToldText(EMPTY_OUTPUT, ""))
    ensures HoldsAccount(c, es, s)
  {
    assert Keys([ToldText(EMPTY_OUTPUT, "")]) == [TextKey(EMPTY_OUTPUT)];
  }

  lemma AllToldHolds(c: Context, es: seq<UpstreamEvent>, s: State)
    requires Account(es) != [] && s.blockOrder == Keys(Account(es))
    requires forall t | t in Account(es) :: HoldsTold(c, s, t)
    ensures HoldsAccount(c, es, s)
  {
  }

  lemma ConcludedHolds(c: Context, es: seq<UpstreamEvent>, s: State, usage: Usage, maxTokens: bool)
    requires HoldsAccount(c, es, s)
    ensures HoldsAccount(c, es, Conclude(s, usage, maxTokens).state)
  {
    SameIsQuiet(s, Conclude(s, usage, maxTokens).state);
    ToldStay(c, s, Conclude(s, usage, maxTokens).state, WholeAccount(es));
  }

  lemma EmptyOutputHolds(c: Context, s: State)
    requires s.blockOrder == [] && s.active.None? && EmptyOutput(c, s).Ok?
    ensures
      var s' := EmptyOutput(c, s).value.state;
      s'.blockOrder == [TextKey(EMPTY_OUTPUT)] && HoldsTold(c, s', ToldText(EMPTY_OUTPUT, ""))
  {
    var claimed := ClaimOutputItem(s, EMPTY_OUTPUT, "message").value;
    EmptyTextHolds(c, claimed);
  }

  lemma EmptyTextHolds(c: Context, s: State)
    requires s.blockOrder == [] && s.active.None? && AppendText(c, s, EMPTY_OUTPUT, "").Ok?
    requires FinishText(AppendText(c, s, EMPTY_OUTPUT, "").value.state, EMPTY_OUTPUT).Ok?
    ensures
      var s' := FinishText(AppendText(c, s, EMPTY_OUTPUT, "").value.state, EMPTY_OUTPUT).value.state;
      s'.blockOrder == [TextKey(EMPTY_OUTPUT)] && HoldsTold(c, s', ToldText(EMPTY_OUTPUT, ""))
  {
    var s1 := AppendText(c, s, EMPTY_OUTPUT, "").value.state;
    ClosePendingFrame(c, s, None);
    OnlyIfNew(c, s, EMPTY_OUTPUT, "");
    AppendedAtOnce(c, s, EMPTY_OUTPUT, "");
    AppendTextIsQuiet(c, s, EMPTY_OUTPUT, "");
    FinishTextMoves(s1, EMPTY_OUTPUT);
  }

  /** With no block open, text goes to a new item. */
  lemma OnlyIfNew(c: Context, s: State, id: string, delta: string)
    requires s.active.None? && AppendText(c, s, id, delta).Ok?
    ensures id !in s.texts && s.pending.None? && Finished(s) == s.blockOrder
  {
    var s1 := ClosePendingReasoning(c, s, None).value.state;
    var s2 := EnsureText(s1, id).value.state;
    assert PushText(s2, id, delta).Ok?;
  }

  /** While a response is under way, what its events told; once it is completed, that and nothing else. */
  ghost predicate Kept(c: Context, es: seq<UpstreamEvent>, s: State) {
    if s.completed then HoldsAccount(c, es, s) else Recorded(c, es, s)
  }

  lemma DeltaKept(c: Context, es: seq<UpstreamEvent>, e: UpstreamEvent, s: State, l: Life, m: Message)
    requires Underway(c, s, l, m) && Recorded(c, es, s) && Apply(c, s, e).Ok?
    requires e.OutputTextDelta? || e.ReasoningTextDelta? || e.ArgumentsDelta?
    ensures Kept(c, es + [e], Apply(c, s, e).value.state)
  {
    match e
    case OutputTextDelta(itemId, delta) =>
      TextDeltaKeeps(c, s, l, m, itemId, delta);
      TextDeltaRecorded(c, es, e, s);
    case ReasoningTextDelta(itemId, delta) =>
      ReasoningDeltaKeeps(c, s, l, m, itemId, delta);
      ReasoningDeltaRecorded(c, es, e, s);
    case ArgumentsDelta(itemId, callId, delta) =>
      ArgumentsDeltaKeeps(c, s, l, m, itemId, callId, delta);
      ArgumentsDeltaRecorded(c, es, e, s);
  }

  lemma ItemKept(c: Context, es: seq<UpstreamEvent>, e: UpstreamEvent, s: State, l: Life, m: Message)
    requires Underway(c, s, l, m) && Recorded(c, es, s) && Apply(c, s, e).Ok?
    requires e.OutputItemAdded? || e.OutputItemDone?
    ensures Kept(c, es + [e], Apply(c, s, e).value.state)
  {
    match e
    case OutputItemAdded(item) =>
      ItemAddedKeeps(c, s, l, m, item.value);
      ItemAddedRecorded(c, es, e, s);
    case OutputItemDone(item) =>
      ItemDoneKeeps(c, s, l, m, item.value);
      ItemDoneRecorded(c, es, e, s, l, m);
  }

  lemma OtherKept(c: Context, es: seq<UpstreamEvent>, e: UpstreamEvent, s: State)
    requires Recorded(c, es, s) && !s.completed && Apply(c, s, e).Ok? && (e.Created? || e.OtherEvent?)
    ensures Kept(c, es + [e], Apply(c, s, e).value.state)
  {
    SameIsQuiet(s, Apply(c, s, e).value.state);
    QuietRecorded(c, es, e, s, Apply(c, s, e).value.state);
  }

  lemma TerminalKept(c: Context, es: seq<UpstreamEvent>, e: UpstreamEvent, s: State)
    requires Recorded(c, es, s) && s.started && Apply(c, s, e).Ok? && (e.Completed? || e.Incomplete?)
    ensures Kept(c, es + [e], Apply(c, s, e).value.state)
  {
    TerminalHolds(c, es, e, s, e.usage, e.Incomplete?);
  }

  lemma ApplyKept(c: Context, es: seq<UpstreamEvent>, e: UpstreamEvent, s: State, l: Life, m: Message)
    requires RunInv(c, s, l, m) && Kept(c, es, s) && Apply(c, s, e).Ok?
    ensures Kept(c, es + [e], Apply(c, s, e).value.state)
  {
    if e.Created? || e.OtherEvent? {
      OtherKept(c, es, e, s);
    } else if e.Completed? || e.Incomplete? {
      TerminalKept(c, es, e, s);
    } else if e.OutputItemAdded? || e.OutputItemDone? {
      ItemKept(c, es, e, s, l, m);
    } else {
      DeltaKept(c, es, e, s, l, m);
    }
  }

  /** Every reachable state holds what the events told, and a completed one nothing else. */
  lemma {:induction false} RunHoldsAccount(c: Context, es: seq<UpstreamEvent>)
    requires RunAll(c, es).Ok?
    ensures Kept(c, es, RunAll(c, es).value.state)
  {
    if es != [] {
      var before := es[..|es| - 1];
      RunHoldsAccount(c, before);
      RunKeeps(c, before);
      var e := RunAll(c, before).value;
      ApplyKept(c, before, es[|es| - 1], e.state, Run(Initial, e.out).value, Assemble(EmptyMessage, e.out));
      Sequences.Unsnoc(es);
    }
  }
}
