/** What an upstream chat answer becomes. */
module ChatAnswer {
  // Which answers are accepted, and what each says to the client, read off its members.

  import opened Wrappers
  import opened Utf8
  import opened JsonValues
  import opened ChatSigning
  import opened ChatReplay
  import ChatSaid

  predicate Said(s: Option<string>) {
    s.Some? && s.value != ""
  }

  /** The i-th call is a function call with proper names, an id of its own, and a JSON object for its arguments. */
  predicate GoodCall(c: Context, calls: seq<UpstreamCall>, i: nat)
    requires i < |calls|
  {
    var x := calls[i];
    && x.isFunction && ChatSaid.Proper(c.signer.blank, x.id) && ChatSaid.Proper(c.signer.blank, x.name)
    && (forall j | 0 <= j < i :: calls[j].id != x.id)
    && x.arguments.Some? && ByteLen(x.arguments.value) <= 1024 * 1024
    && c.codec.parse(x.arguments.value).Some? && c.codec.parse(x.arguments.value).value.JObject?
  }

  ghost predicate GoodCalls(c: Context, calls: seq<UpstreamCall>) {
    forall i: nat | i < |calls| :: GoodCall(c, calls, i)
  }

  function InputOf(c: Context, x: UpstreamCall): Json {
    match x.arguments
    case None => JNull
    case Some(text) => match c.codec.parse(text) case None => JNull case Some(v) => v
  }

  function IdOf(x: UpstreamCall): string { if x.id.Some? then x.id.value else "" }

  function NameOf(x: UpstreamCall): string { if x.name.Some? then x.name.value else "" }

  function ToolsOf(c: Context, calls: seq<UpstreamCall>): seq<AnswerBlock> {
    seq(|calls|, i requires 0 <= i < |calls| => Tool(IdOf(calls[i]), NameOf(calls[i]), InputOf(c, calls[i])))
  }

  function BindingsOf(c: Context, calls: seq<UpstreamCall>): seq<ToolBinding> {
    seq(|calls|, i requires 0 <= i < |calls| => ToolBinding(IdOf(calls[i]), NameOf(calls[i]), c.digestOf(InputOf(c, calls[i]))))
  }

  ghost function IdsOf(calls: seq<UpstreamCall>): set<string> {
    set i | 0 <= i < |calls| :: IdOf(calls[i])
  }

  /** Enough is said, not too much, and the reason for stopping is one of the three and fits. */
  predicate GoodUpstream(c: Context, up: Upstream) {
    && up.choices == 1 && up.assistant && !up.refused && !up.finish.OtherFinish?
    && |up.calls| <= 128 && (up.finish.ToolCalls? <==> up.calls != [])
    && (Said(up.reasoning) || Said(up.content) || up.calls != [])
    && ChatSaid.Proper(c.signer.blank, up.id)
    && (Said(up.reasoning) ==>
          && ByteLen(up.reasoning.value) <= 1024 * 1024
          && c.signer.Seal(c.target, up.reasoning.value, BindingsOf(c, up.calls)).Some?)
  }

  // ---------- The calls ----------

  lemma GoodSnoc(c: Context, calls: seq<UpstreamCall>)
    requires calls != []
    ensures
      var n := |calls| - 1;
      && (GoodCalls(c, calls) <==> GoodCalls(c, calls[..n]) && GoodCall(c, calls, n))
      && ToolsOf(c, calls) == ToolsOf(c, calls[..n]) + [Tool(IdOf(calls[n]), NameOf(calls[n]), InputOf(c, calls[n]))]
      && BindingsOf(c, calls)
         == BindingsOf(c, calls[..n]) + [ToolBinding(IdOf(calls[n]), NameOf(calls[n]), c.digestOf(InputOf(c, calls[n])))]
      && IdsOf(calls) == IdsOf(calls[..n]) + {IdOf(calls[n])}
  {
    var n := |calls| - 1;
    var front := calls[..n];
    forall i: nat | i < n ensures GoodCall(c, calls, i) <==> GoodCall(c, front, i) {
      assert forall j | 0 <= j < i :: calls[j] == front[j];
    }
    if GoodCalls(c, calls) {
      forall i: nat | i < n ensures GoodCall(c, front, i) {
        assert GoodCall(c, calls, i);
      }
    }
    forall x ensures x in IdsOf(calls) <==> x in IdsOf(front) || x == IdOf(calls[n]) {
      if x in IdsOf(front) {
        var i :| 0 <= i < n && IdOf(front[i]) == x;
        assert IdOf(calls[i]) == x;
      }
    }
  }

  lemma CallMaps(c: Context, calls: seq<UpstreamCall>, m: Mapped)
    requires calls != []
    requires
      var front := calls[..|calls| - 1];
      GoodCalls(c, front) && m == Mapped(BindingsOf(c, front), ToolsOf(c, front), IdsOf(front))
    ensures
      var n := |calls| - 1;
      && (MapCall(c, m, calls[n]).Ok? <==> GoodCall(c, calls, n))
      && (MapCall(c, m, calls[n]).Ok? ==> MapCall(c, m, calls[n]).value == Mapped(BindingsOf(c, calls), ToolsOf(c, calls), IdsOf(calls)))
  {
    var n := |calls| - 1;
    GoodSnoc(c, calls);
    NewId(c, calls);
  }

  lemma NewId(c: Context, calls: seq<UpstreamCall>)
    requires calls != [] && GoodCalls(c, calls[..|calls| - 1])
    ensures
      var n := |calls| - 1;
      calls[n].id.Some? ==> (calls[n].id.value !in IdsOf(calls[..n]) <==> forall j | 0 <= j < n :: calls[j].id != calls[n].id)
  {
    var n := |calls| - 1;
    var front := calls[..n];
    forall j | 0 <= j < n ensures calls[j].id == Some(IdOf(front[j])) {
      assert GoodCall(c, front, j);
    }
    if calls[n].id.Some? {
      forall j | 0 <= j < n && calls[j].id == calls[n].id ensures calls[n].id.value in IdsOf(front) {
        assert IdOf(front[j]) == calls[n].id.value;
      }
    }
  }

  lemma {:induction false} CallsMap(c: Context, calls: seq<UpstreamCall>)
    ensures MapCalls(c, calls).Ok? <==> GoodCalls(c, calls)
    ensures MapCalls(c, calls).Ok? ==> MapCalls(c, calls).value == Mapped(BindingsOf(c, calls), ToolsOf(c, calls), IdsOf(calls))
  {
    if calls != [] {
      var front := calls[..|calls| - 1];
      CallsMap(c, front);
      GoodSnoc(c, calls);
      if MapCalls(c, front).Ok? {
        CallMaps(c, calls, MapCalls(c, front).value);
      }
    }
  }

  // ---------- The answer ----------

  /** What the client is told, block by block. */
  predicate Answers(c: Context, model: string, up: Upstream, a: Answer) {
    && Some(a.id) == up.id && a.model == model
    && a.inputTokens == up.inputTokens && a.outputTokens == up.outputTokens
    && (up.finish.Stop? ==> a.stopReason == "end_turn")
    && (up.finish.Length? ==> a.stopReason == "max_tokens")
    && (up.finish.ToolCalls? ==> a.stopReason == "tool_use")
    && var thought := if Said(up.reasoning) then 1 else 0;
    var text := if Said(up.content) then 1 else 0;
    && |a.content| == thought + text + |up.calls|
    && (Said(up.reasoning) ==>
          c.signer.Seal(c.target, up.reasoning.value, BindingsOf(c, up.calls)).Some?
          && a.content[0] == Thinking(up.reasoning.value,
                                      c.signer.Seal(c.target, up.reasoning.value, BindingsOf(c, up.calls)).value))
    && (Said(up.content) ==> a.content[thought] == Text(up.content.value))
    && a.content[thought + text..] == ToolsOf(c, up.calls)
  }


  /**
    An answer is accepted exactly if it is a good one with good calls. Then the client is told its reasoning, sealed
    with the calls it led to, its text, and its calls, in that order, and why it stopped.
   */
  lemma AnswerSays(c: Context, model: string, up: Upstream)
    ensures ToAnthropic(c, model, up).Ok? <==> GoodUpstream(c, up) && GoodCalls(c, up.calls)
    ensures ToAnthropic(c, model, up).Ok? ==> Answers(c, model, up, ToAnthropic(c, model, up).value)
  {
    CallsMap(c, up.calls);
    if MapCalls(c, up.calls).Ok? {
      ContentSays(c, up, MapCalls(c, up.calls).value.tools);
    }
  }

  lemma ContentSays(c: Context, up: Upstream, tools: seq<AnswerBlock>)
    ensures
      var thought, text := if Said(up.reasoning) then 1 else 0, if Said(up.content) then 1 else 0;
      forall signature :: var content := ContentOf(NonEmpty(up.reasoning), signature, NonEmpty(up.content), tools);
        && |content| == thought + text + |tools| && content[thought + text..] == tools
        && (Said(up.reasoning) ==> content[0] == Thinking(up.reasoning.value, signature))
        && (Said(up.content) ==> content[thought] == Text(up.content.value))
  {
  }

  /** Reasoning is sealed exactly if model, reasoning and calls are proper and the signature is not too long. */
  lemma SealedIfProper(s: ReasoningSigner, model: string, reasoning: string, tools: seq<ToolBinding>)
    ensures
      s.Seal(model, reasoning, tools).Some?
      <==> && model != "" && ByteLen(model) <= 256
           && reasoning != "" && ByteLen(reasoning) <= 1024 * 1024 && |tools| <= 128
           && (forall i | 0 <= i < |tools| ::
                 ChatSaid.Proper(s.blank, Some(tools[i].id)) && ChatSaid.Proper(s.blank, Some(tools[i].name)))
           && ByteLen(s.Compose(Payload(1, PURPOSE, model, s.digest(reasoning), tools))) <= 64 * 1024
  {
    forall t ensures ShortToken(s.blank, t) <==> ChatSaid.Proper(s.blank, Some(t)) {
    }
  }
}
