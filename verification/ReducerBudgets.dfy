/**
  Every change to what the reducer holds is matched by the byte counters, to the byte.

  What is held is a sum over the entries of four tables. One operation changes one entry, so a sum changes by the
  difference of two costs, and each reservation is that difference. Sealing gives back what the ciphertext took.
 */
module ReducerBudgets {
  import opened Wrappers
  import opened Utf8
  import opened MapSums
  import opened MessageStream
  import opened ThinkingSignature
  import opened Reducer
  import opened ReducerInvariant

  lemma TextUpdated(m: map<string, TextState>, k: string, t: TextState)
    ensures Sum(m[k := t], TextStored) + (if k in m then TextStored(k, m[k]) else 0) == Sum(m, TextStored) + TextStored(k, t)
    ensures Sum(m[k := t], TextJson) + (if k in m then TextJson(k, m[k]) else 0) == Sum(m, TextJson) + TextJson(k, t)
    ensures Sum(m[k := t], TextBytes) + (if k in m then TextBytes(k, m[k]) else 0) == Sum(m, TextBytes) + TextBytes(k, t)
  {
    Update(m, k, t, TextStored);
    Update(m, k, t, TextJson);
    Update(m, k, t, TextBytes);
  }

  lemma ReasoningUpdated(m: map<string, ReasoningState>, k: string, r: ReasoningState)
    ensures
      Sum(m[k := r], ReasoningStored) + (if k in m then ReasoningStored(k, m[k]) else 0)
      == Sum(m, ReasoningStored) + ReasoningStored(k, r)
    ensures
      Sum(m[k := r], ReasoningJson) + (if k in m then ReasoningJson(k, m[k]) else 0)
      == Sum(m, ReasoningJson) + ReasoningJson(k, r)
    ensures
      Sum(m[k := r], ReasoningBytes) + (if k in m then ReasoningBytes(k, m[k]) else 0)
      == Sum(m, ReasoningBytes) + ReasoningBytes(k, r)
  {
    Update(m, k, r, ReasoningStored);
    Update(m, k, r, ReasoningJson);
    Update(m, k, r, ReasoningBytes);
  }

  lemma ToolUpdated(m: map<string, ToolState>, k: string, t: ToolState)
    ensures Sum(m[k := t], ToolStored) + (if k in m then ToolStored(k, m[k]) else 0) == Sum(m, ToolStored) + ToolStored(k, t)
    ensures Sum(m[k := t], ToolJson) + (if k in m then ToolJson(k, m[k]) else 0) == Sum(m, ToolJson) + ToolJson(k, t)
  {
    Update(m, k, t, ToolStored);
    Update(m, k, t, ToolJson);
  }

  lemma BalancedFrame(s: State, s': State)
    requires Balanced(s)
    requires s'.texts == s.texts && s'.reasoning == s.reasoning && s'.tools == s.tools && s'.seals == s.seals
    requires s'.stored == s.stored && s'.estimated == s.estimated
    requires s'.totalText == s.totalText && s'.totalReasoning == s.totalReasoning
    ensures Balanced(s')
  {
  }

  lemma OpenTextBalanced(s: State, id: string)
    requires Balanced(s) && id !in s.texts && OpenText(s, id).Ok?
    ensures Balanced(OpenText(s, id).value.state)
  {
    TextUpdated(s.texts, id, TextState(s.nextIndex, "", false));
  }

  lemma TextGrows(m: map<string, TextState>, k: string, delta: string)
    requires k in m
    ensures
      var m' := m[k := m[k].(text := m[k].text + delta)];
      && Sum(m', TextStored) == Sum(m, TextStored) + ByteLen(delta)
      && Sum(m', TextJson) == Sum(m, TextJson) + EscapedJsonLen(delta)
      && Sum(m', TextBytes) == Sum(m, TextBytes) + ByteLen(delta)
  {
    ByteLenConcat(m[k].text, delta);
    EscapedJsonLenConcat(m[k].text, delta);
    TextUpdated(m, k, m[k].(text := m[k].text + delta));
  }

  lemma PushTextBalanced(s: State, id: string, delta: string)
    requires Balanced(s) && PushText(s, id, delta).Ok?
    ensures Balanced(PushText(s, id, delta).value.state)
  {
    TextGrows(s.texts, id, delta);
  }

  lemma FinishTextBalanced(s: State, id: string)
    requires Balanced(s) && FinishText(s, id).Ok?
    ensures Balanced(FinishText(s, id).value.state)
  {
    TextUpdated(s.texts, id, s.texts[id].(closed := true));
  }

  lemma OpenReasoningBalanced(s: State, id: string)
    requires Balanced(s) && id !in s.reasoning && OpenReasoning(s, id).Ok?
    ensures Balanced(OpenReasoning(s, id).value.state)
  {
    ReasoningUpdated(s.reasoning, id, ReasoningState(s.nextIndex, "", None, None, false, false));
  }

  lemma ReasoningGrows(m: map<string, ReasoningState>, k: string, delta: string)
    requires k in m
    ensures
      var m' := m[k := m[k].(text := m[k].text + delta)];
      && Sum(m', ReasoningStored) == Sum(m, ReasoningStored) + ByteLen(delta)
      && Sum(m', ReasoningJson) == Sum(m, ReasoningJson) + EscapedJsonLen(delta)
      && Sum(m', ReasoningBytes) == Sum(m, ReasoningBytes) + ByteLen(delta)
  {
    ByteLenConcat(m[k].text, delta);
    EscapedJsonLenConcat(m[k].text, delta);
    ReasoningUpdated(m, k, m[k].(text := m[k].text + delta));
  }

  lemma PushReasoningBalanced(s: State, id: string, delta: string)
    requires Balanced(s) && PushReasoning(s, id, delta).Ok?
    ensures Balanced(PushReasoning(s, id, delta).value.state)
  {
    ReasoningGrows(s.reasoning, id, delta);
  }

  lemma HoldCiphertextBalanced(s: State, id: string, encrypted: string)
    requires Balanced(s) && HoldCiphertext(s, id, encrypted).Ok?
    requires s.reasoning[id].encrypted.None?
    ensures Balanced(HoldCiphertext(s, id, encrypted).value)
  {
    ReasoningUpdated(s.reasoning, id, s.reasoning[id].(encrypted := Some(encrypted), done := true));
  }

  /** The ciphertext released is part of the stored total, so the subtraction never saturates. */
  lemma ReleaseIsExact(s: State, id: string)
    requires Balanced(s) && id in s.reasoning && s.reasoning[id].encrypted.Some?
    ensures ByteLen(s.reasoning[id].encrypted.value) <= s.stored
    ensures ReleaseStored(s, ByteLen(s.reasoning[id].encrypted.value)).stored
            == s.stored - ByteLen(s.reasoning[id].encrypted.value)
  {
    Remove(s.reasoning, id, ReasoningStored);
  }

  /** What sealing does to the tables and the counters. */
  lemma ClosePendingState(c: Context, s: State, toolId: Option<string>) returns (signature: string)
    requires s.pending.Some? && ClosePendingReasoning(c, s, toolId).Ok?
    ensures s.pending.value in s.reasoning && s.reasoning[s.pending.value].encrypted.Some?
    ensures
      var s', id := ClosePendingReasoning(c, s, toolId).value.state, s.pending.value;
      var r := s.reasoning[id];
      var released := ReleaseStored(s, ByteLen(r.encrypted.value)).stored;
      && s'.reasoning == s.reasoning[id := r.(encrypted := None, signature := Some(signature), closed := true)]
      && s'.seals == s.seals[id := Seal(toolId, r.encrypted.value)]
      && s'.texts == s.texts && s'.tools == s.tools
      && s'.stored == released + ByteLen(signature) <= MAX_NONSTREAM_BYTES
      && s'.estimated == s.estimated + EscapedJsonLen(signature) <= MAX_NONSTREAM_BYTES
      && s'.totalText == s.totalText && s'.totalReasoning == s.totalReasoning
  {
    var id := s.pending.value;
    signature := ClosePendingReasoning(c, s, toolId).value.state.reasoning[id].signature.value;
  }

  lemma ClosePendingBalanced(c: Context, s: State, toolId: Option<string>)
    requires Balanced(s) && Ciphered(c, s) && ClosePendingReasoning(c, s, toolId).Ok?
    ensures Balanced(ClosePendingReasoning(c, s, toolId).value.state)
  {
    if s.pending.Some? {
      var id := s.pending.value;
      var r := s.reasoning[id];
      assert Stage(c, s, id);
      var signature := ClosePendingState(c, s, toolId);
      SealedBalanced(s, ClosePendingReasoning(c, s, toolId).value.state, id, toolId, signature);
    }
  }

  lemma SealedBalanced(s: State, s': State, id: string, toolId: Option<string>, signature: string)
    requires Balanced(s) && id in s.reasoning && id !in s.seals
    requires s.reasoning[id].encrypted.Some? && s.reasoning[id].signature.None?
    requires
      var r := s.reasoning[id];
      && s'.reasoning == s.reasoning[id := r.(encrypted := None, signature := Some(signature), closed := true)]
      && s'.seals == s.seals[id := Seal(toolId, r.encrypted.value)]
      && s'.texts == s.texts && s'.tools == s.tools
      && s'.stored == ReleaseStored(s, ByteLen(r.encrypted.value)).stored + ByteLen(signature) <= MAX_NONSTREAM_BYTES
      && s'.estimated == s.estimated + EscapedJsonLen(signature) <= MAX_NONSTREAM_BYTES
      && s'.totalText == s.totalText && s'.totalReasoning == s.totalReasoning
    ensures Balanced(s')
  {
    var r := s.reasoning[id];
    ReleaseIsExact(s, id);
    ReasoningUpdated(s.reasoning, id, r.(encrypted := None, signature := Some(signature), closed := true));
    Update(s.seals, id, Seal(toolId, r.encrypted.value), SealBytes);
  }

  lemma AddToolBalanced(s: State, id: string, callId: string, name: string)
    requires Balanced(s) && id !in s.tools && AddTool(s, id, callId, name).Ok?
    ensures Balanced(AddTool(s, id, callId, name).value)
  {
    ToolUpdated(s.tools, id, ToolState(None, callId, name, "", false));
  }

  lemma StartToolBalanced(s: State, id: string)
    requires Balanced(s) && StartRegisteredTool(s, id).Ok?
    ensures Balanced(StartRegisteredTool(s, id).value.state)
  {
    if id in s.tools && s.tools[id].index.None? {
      ToolUpdated(s.tools, id, s.tools[id].(index := Some(s.nextIndex)));
    }
  }

  lemma PushArgumentsBalanced(s: State, id: string, delta: string)
    requires Balanced(s) && PushArguments(s, id, delta).Ok?
    ensures Balanced(PushArguments(s, id, delta).value.state)
  {
    var t := s.tools[id];
    ByteLenConcat(t.arguments, delta);
    ToolUpdated(s.tools, id, t.(arguments := t.arguments + delta));
  }

  lemma FillArgumentsBalanced(s: State, id: string)
    requires Balanced(s) && id in s.tools && FillArguments(s, id).Ok?
    ensures Balanced(FillArguments(s, id).value)
  {
    if s.tools[id].arguments == "" {
      assert ByteLen("{}") == 2;
      ToolUpdated(s.tools, id, s.tools[id].(arguments := "{}"));
    }
  }

  lemma CloseToolBalanced(c: Context, s: State, id: string)
    requires Balanced(s) && id in s.tools && CloseTool(c, s, id).Ok?
    ensures Balanced(CloseTool(c, s, id).value.state)
  {
    ToolUpdated(s.tools, id, s.tools[id].(closed := true));
  }

  lemma FillAndCloseBalanced(c: Context, s: State, id: string)
    requires Balanced(s) && FillAndClose(c, s, id).Ok?
    ensures Balanced(FillAndClose(c, s, id).value.state)
  {
    FillArgumentsBalanced(s, id);
    CloseToolBalanced(c, FillArguments(s, id).value, id);
  }
}
