/** What a completed answer reports, read off the upstream events. */
module ReducerEnding {
  // Its id and model, why it stopped, the tokens it counts, and block by block what it holds.

  import opened Wrappers
  import Sequences
  import opened Utf8
  import opened MessageStream
  import opened Reducer
  import opened ReducerInvariant
  import opened ReducerSteps
  import opened ReducerRuns
  import opened OneShotAnswer
  import opened UpstreamAccount

  // ---------- The events ----------

  /** The id the first event gives the response, or the one it has without. */
  function IdTold(es: seq<UpstreamEvent>): string {
    if es != [] && es[0].Created? && es[0].responseId.Some? then es[0].responseId.value else "msg_codex"
  }

  function UsageTold(e: UpstreamEvent): Usage {
    match e
    case Created(_, usage) => usage
    case Completed(usage) => usage
    case Incomplete(_, usage) => usage
    case _ => Usage(None, None)
  }

  /** The number of input tokens reported last. */
  function InputTold(es: seq<UpstreamEvent>): nat {
    if es == [] then 0
    else if UsageTold(es[|es| - 1]).input.Some? then UsageTold(es[|es| - 1]).input.value
    else InputTold(es[..|es| - 1])
  }

  function OutputTold(es: seq<UpstreamEvent>): nat {
    if es == [] then 0
    else if UsageTold(es[|es| - 1]).output.Some? then UsageTold(es[|es| - 1]).output.value
    else OutputTold(es[..|es| - 1])
  }

  predicate EndsAnswer(e: UpstreamEvent) {
    e.Completed? || (e.Incomplete? && e.reason == Some("max_output_tokens"))
  }

  predicate CallTold(told: seq<Told>) {
    exists t | t in told :: t.ToldTool?
  }

  /** Cut short by its length, or waiting for the results of calls, or done. */
  function StopTold(es: seq<UpstreamEvent>): string
    requires es != []
  {
    if es[|es| - 1].Incomplete? then "max_tokens"
    else if CallTold(WholeAccount(es)) then "tool_use"
    else "end_turn"
  }

  // ---------- Along a run ----------

  /** The state's envelope is that of the events so far. */
  ghost predicate Follows(c: Context, es: seq<UpstreamEvent>, s: State) {
    && (s.created <==> es != [])
    && (es != [] ==> es[0].Created? && s.messageId == IdTold(es))
    && s.inputTokens == InputTold(es) && s.outputTokens == OutputTold(es)
    && (s.completed <==> es != [] && EndsAnswer(es[|es| - 1]))
    && (s.completed ==> s.stopReason == Stop(s, es[|es| - 1].Incomplete?))
  }

  function Stop(s: State, cutShort: bool): string {
    if cutShort then "max_tokens" else if s.tools == map[] then "end_turn" else "tool_use"
  }

  predicate SameReport(s: State, s': State) {
    && s'.messageId == s.messageId && s'.created == s.created && s'.completed == s.completed
    && s'.inputTokens == s.inputTokens && s'.outputTokens == s.outputTokens
  }

  lemma TokensNext(es: seq<UpstreamEvent>, e: UpstreamEvent)
    ensures
      InputTold(es + [e]) == if UsageTold(e).input.Some? then UsageTold(e).input.value else InputTold(es)
    ensures
      OutputTold(es + [e]) == if UsageTold(e).output.Some? then UsageTold(e).output.value else OutputTold(es)
    ensures es != [] ==> IdTold(es + [e]) == IdTold(es) && (es + [e])[0] == es[0]
    ensures (es + [e])[|es + [e]| - 1] == e
  {
    Sequences.Snoc(es, e);
  }

  lemma SameFollows(c: Context, es: seq<UpstreamEvent>, e: UpstreamEvent, s: State, s': State)
    requires Follows(c, es, s) && es != [] && !s.completed && SameReport(s, s')
    requires UsageTold(e) == Usage(None, None) && !EndsAnswer(e)
    ensures Follows(c, es + [e], s')
  {
    TokensNext(es, e);
  }

  lemma BeginFollows(c: Context, es: seq<UpstreamEvent>, e: UpstreamEvent, s: State)
    requires Follows(c, es, s) && !s.completed && e.Created? && Begin(c, s, e.responseId, e.usage).Ok?
    requires s.messageId == IdTold([])
    ensures Follows(c, es + [e], Begin(c, s, e.responseId, e.usage).value.state)
  {
    TokensNext(es, e);
  }

  lemma ConcludeFollows(c: Context, es: seq<UpstreamEvent>, e: UpstreamEvent, s: State, filled: State)
    requires Follows(c, es, s) && es != [] && !s.completed && SameReport(s, filled) && EndsAnswer(e)
    ensures Follows(c, es + [e], Conclude(filled, e.usage, e.Incomplete?).state)
  {
    TokensNext(es, e);
  }

  lemma TerminalFollows(c: Context, es: seq<UpstreamEvent>, e: UpstreamEvent, s: State, l: Life, m: Message)
    requires Underway(c, s, l, m) && Follows(c, es, s) && EndsAnswer(e)
    requires FinishTerminal(c, s, e.usage, e.Incomplete?).Ok?
    ensures Follows(c, es + [e], FinishTerminal(c, s, e.usage, e.Incomplete?).value.state)
  {
    var closed := ClosePendingReasoning(c, s, None).value;
    ClosePendingKeeps(c, s, l, m, None);
    EnsureContentKeeps(c, closed.state, Run(l, closed.out).value, Assemble(m, closed.out));
    ConcludeFollows(c, es, e, s, EnsureContent(c, closed.state).value.state);
  }

  lemma TextFollows(c: Context, es: seq<UpstreamEvent>, e: UpstreamEvent, s: State, l: Life, m: Message)
    requires Underway(c, s, l, m) && Follows(c, es, s) && e.OutputTextDelta? && ApplyTextDelta(c, s, e.itemId, e.delta).Ok?
    ensures Follows(c, es + [e], ApplyTextDelta(c, s, e.itemId, e.delta).value.state)
  {
    TextDeltaKeeps(c, s, l, m, e.itemId, e.delta);
    SameFollows(c, es, e, s, ApplyTextDelta(c, s, e.itemId, e.delta).value.state);
  }

  lemma ReasoningFollows(c: Context, es: seq<UpstreamEvent>, e: UpstreamEvent, s: State, l: Life, m: Message)
    requires Underway(c, s, l, m) && Follows(c, es, s)
    requires e.ReasoningTextDelta? && ApplyReasoningDelta(c, s, e.itemId, e.delta).Ok?
    ensures Follows(c, es + [e], ApplyReasoningDelta(c, s, e.itemId, e.delta).value.state)
  {
    ReasoningDeltaKeeps(c, s, l, m, e.itemId, e.delta);
    SameFollows(c, es, e, s, ApplyReasoningDelta(c, s, e.itemId, e.delta).value.state);
  }

  lemma ArgumentsFollow(c: Context, es: seq<UpstreamEvent>, e: UpstreamEvent, s: State, l: Life, m: Message)
    requires Underway(c, s, l, m) && Follows(c, es, s)
    requires e.ArgumentsDelta? && ApplyArgumentsDelta(c, s, e.itemId, e.callId, e.delta).Ok?
    ensures Follows(c, es + [e], ApplyArgumentsDelta(c, s, e.itemId, e.callId, e.delta).value.state)
  {
    ArgumentsDeltaKeeps(c, s, l, m, e.itemId, e.callId, e.delta);
    SameFollows(c, es, e, s, ApplyArgumentsDelta(c, s, e.itemId, e.callId, e.delta).value.state);
  }

  lemma AddedFollows(c: Context, es: seq<UpstreamEvent>, e: UpstreamEvent, s: State, l: Life, m: Message)
    requires Underway(c, s, l, m) && Follows(c, es, s) && e.OutputItemAdded? && e.item.Some?
    requires ApplyItemAdded(c, s, e.item.value).Ok?
    ensures Follows(c, es + [e], ApplyItemAdded(c, s, e.item.value).value.state)
  {
    ItemAddedKeeps(c, s, l, m, e.item.value);
    SameFollows(c, es, e, s, ApplyItemAdded(c, s, e.item.value).value.state);
  }

  lemma DoneFollows(c: Context, es: seq<UpstreamEvent>, e: UpstreamEvent, s: State, l: Life, m: Message)
    requires Underway(c, s, l, m) && Follows(c, es, s) && e.OutputItemDone? && e.item.Some?
    requires ApplyItemDone(c, s, e.item.value).Ok?
    ensures Follows(c, es + [e], ApplyItemDone(c, s, e.item.value).value.state)
  {
    ItemDoneKeeps(c, s, l, m, e.item.value);
    SameFollows(c, es, e, s, ApplyItemDone(c, s, e.item.value).value.state);
  }

  lemma ApplyFollows(c: Context, es: seq<UpstreamEvent>, e: UpstreamEvent, s: State, l: Life, m: Message)
    requires RunInv(c, s, l, m) && Follows(c, es, s) && Apply(c, s, e).Ok? && (es == [] ==> s == Fresh)
    ensures Follows(c, es + [e], Apply(c, s, e).value.state)
  {
    if e.Created? {
      BeginFollows(c, es, e, s);
    } else if e.Completed? || e.Incomplete? {
      TerminalFollows(c, es, e, s, l, m);
    } else if e.OutputItemAdded? {
      AddedFollows(c, es, e, s, l, m);
    } else if e.OutputItemDone? {
      DoneFollows(c, es, e, s, l, m);
    } else if e.OtherEvent? {
      SameFollows(c, es, e, s, s);
    } else if e.OutputTextDelta? {
      TextFollows(c, es, e, s, l, m);
    } else if e.ReasoningTextDelta? {
      ReasoningFollows(c, es, e, s, l, m);
    } else if e.ArgumentsDelta? {
      ArgumentsFollow(c, es, e, s, l, m);
    }
  }

  lemma {:induction false} RunFollows(c: Context, es: seq<UpstreamEvent>)
    requires RunAll(c, es).Ok?
    ensures Follows(c, es, RunAll(c, es).value.state)
  {
    if es != [] {
      var before := es[..|es| - 1];
      RunFollows(c, before);
      RunKeeps(c, before);
      var e := RunAll(c, before).value;
      ApplyFollows(c, before, es[|es| - 1], e.state, Run(Initial, e.out).value, Assemble(EmptyMessage, e.out));
      Sequences.Unsnoc(es);
    }
  }

  // ---------- What is refused ----------

  /** An event that may come: the first opens the response, and none reports a failure. */
  predicate MayCome(e: UpstreamEvent, first: bool) {
    match e
    case Created(id, _) => first && (id.Some? ==> id.value != "" && ByteLen(id.value) <= 512)
    case Incomplete(reason, _) => !first && reason == Some("max_output_tokens")
    case ResponseFailed => false
    case StreamError => false
    case UntypedEvent => false
    case OutputItemAdded(item) => !first && item.Some?
    case OutputItemDone(item) => !first && item.Some?
    case _ => !first
  }

  lemma StepMayCome(c: Context, es: seq<UpstreamEvent>, e: UpstreamEvent, s: State)
    requires Follows(c, es, s) && Apply(c, s, e).Ok?
    ensures MayCome(e, es == []) && (es != [] ==> !EndsAnswer(es[|es| - 1]))
  {
  }

  ghost predicate AllMayCome(es: seq<UpstreamEvent>) {
    forall i | 0 <= i < |es| :: MayCome(es[i], i == 0) && (i < |es| - 1 ==> !EndsAnswer(es[i]))
  }

  lemma OneMoreMayCome(front: seq<UpstreamEvent>, e: UpstreamEvent)
    requires AllMayCome(front) && MayCome(e, front == []) && (front != [] ==> !EndsAnswer(front[|front| - 1]))
    ensures AllMayCome(front + [e])
  {
  }

  /** A run without an error has nothing but events that may come where they do, and nothing after the last. */
  lemma {:induction false} AcceptedMayCome(c: Context, es: seq<UpstreamEvent>)
    requires RunAll(c, es).Ok?
    ensures AllMayCome(es)
  {
    if es != [] {
      var front, e := es[..|es| - 1], es[|es| - 1];
      AcceptedMayCome(c, front);
      RunFollows(c, front);
      StepMayCome(c, front, e, RunAll(c, front).value.state);
      OneMoreMayCome(front, e);
      Sequences.Unsnoc(es);
    }
  }

  // ---------- The answer ----------

  /** A completed run has a call exactly if one was told of. */
  lemma CallsTold(c: Context, es: seq<UpstreamEvent>, s: State, l: Life, m: Message)
    requires RunInv(c, s, l, m) && s.completed && HoldsAccount(c, es, s)
    ensures s.tools != map[] <==> CallTold(WholeAccount(es))
  {
    var told := WholeAccount(es);
    if s.tools != map[] {
      var k :| k in s.tools;
      assert s.tools[k].closed && Listed(s, ToolKey(k));
      var i := s.tools[k].index.value;
      assert |told| == |s.blockOrder| && KeyOf(told[i]) == ToolKey(k) && told[i] in told;
    }
    if CallTold(told) {
      var t :| t in told && t.ToldTool?;
      assert HoldsTold(c, s, t) && t.id in s.tools;
    }
  }

  /**
    A run is complete exactly after response.completed, or response.incomplete for reaching the output limit, and before
    that there is no one-shot answer. Then the
    stream and the one-shot answer both carry the id of the first event, say "max_tokens" exactly if it was cut short,
    else "tool_use" exactly if a call was told of, else "end_turn", and count the tokens reported last.
   */
  lemma CompletedReports(c: Context, es: seq<UpstreamEvent>, size: Response -> nat)
    requires RunAll(c, es).Ok?
    ensures RunAll(c, es).value.state.completed <==> es != [] && EndsAnswer(es[|es| - 1])
    ensures NonstreamResponse(c, RunAll(c, es).value.state, size).Ok? ==> es != [] && EndsAnswer(es[|es| - 1])
    ensures RunAll(c, es).value.state.completed ==>
      var m := Assemble(EmptyMessage, RunAll(c, es).value.out);
      && es[0].Created? && m.id == IdTold(es) && m.model == c.model
      && m.stopReason == Some(StopTold(es))
      && m.inputTokens == InputTold(es) && m.outputTokens == OutputTold(es)
      && var r := NonstreamResponse(c, RunAll(c, es).value.state, size);
      r.Ok? ==>
        && r.value.id == IdTold(es) && r.value.model == c.model && r.value.stopReason == StopTold(es)
        && r.value.inputTokens == InputTold(es) && r.value.outputTokens == OutputTold(es)
  {
    RunFollows(c, es);
    RunKeeps(c, es);
    var e := RunAll(c, es).value;
    if e.state.completed {
      RunHoldsAccount(c, es);
      CallsTold(c, es, e.state, Run(Initial, e.out).value, Assemble(EmptyMessage, e.out));
      StreamAndAnswerAgree(c, es, size);
    }
  }

  /** A block of the answer against the item it was told as: text, summary and sealed ciphertext, or a parsed call. */
  ghost predicate Tells(c: Context, t: Told, x: Content) {
    match t
    case ToldText(_, text) => x == Text(text)
    case ToldReasoning(id, text, encrypted) =>
      && x.Thinking? && x.thinking == text
      && exists tool :: c.signer.Seal(c.authEpoch, c.accountHash, id, tool, encrypted) == Ok(x.signature)
    case ToldTool(_, callId, name, arguments) =>
      && c.codec.parse(arguments).Some?
      && x == ToolUse(callId, c.toolNames.AnthropicName(name), c.codec.parse(arguments).value)
  }

  lemma BlockTells(c: Context, es: seq<UpstreamEvent>, s: State, l: Life, m: Message, i: nat)
    requires RunInv(c, s, l, m) && s.completed && HoldsAccount(c, es, s) && i < |s.blockOrder|
    ensures i < |WholeAccount(es)| && ContentOf(c, s, s.blockOrder[i]).Some?
    ensures Tells(c, WholeAccount(es)[i], ContentOf(c, s, s.blockOrder[i]).value)
  {
    var told := WholeAccount(es);
    assert |told| == |s.blockOrder| && KeyOf(told[i]) == s.blockOrder[i] && told[i] in told;
    BlockAgrees(c, s, l, m, i);
    assert HoldsTold(c, s, told[i]);
    if told[i].ToldReasoning? {
      assert Stage(c, s, told[i].id) && s.reasoning[told[i].id].closed;
    }
  }

  /** Both answers hold the items told of, one block each, in the order in which they were completed. */
  lemma CompletedTells(c: Context, es: seq<UpstreamEvent>, size: Response -> nat)
    requires RunAll(c, es).Ok? && RunAll(c, es).value.state.completed
    ensures
      var m, told := Assemble(EmptyMessage, RunAll(c, es).value.out), WholeAccount(es);
      && |m.blocks| == |told|
      && (forall i | 0 <= i < |told| :: Read(c, m.blocks[i]).Some? && Tells(c, told[i], Read(c, m.blocks[i]).value))
      && var r := NonstreamResponse(c, RunAll(c, es).value.state, size);
      r.Ok? ==> |r.value.content| == |told| && forall i | 0 <= i < |told| :: Tells(c, told[i], r.value.content[i])
  {
    RunKeeps(c, es);
    RunHoldsAccount(c, es);
    StreamAndAnswerAgree(c, es, size);
    var e := RunAll(c, es).value;
    var m := Assemble(EmptyMessage, e.out);
    forall i | 0 <= i < |e.state.blockOrder|
      ensures Read(c, m.blocks[i]).Some? && Tells(c, WholeAccount(es)[i], Read(c, m.blocks[i]).value)
    {
      BlockTells(c, es, e.state, Run(Initial, e.out).value, m, i);
      BlockAgrees(c, e.state, Run(Initial, e.out).value, m, i);
    }
  }
}
