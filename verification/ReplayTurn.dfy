/** The round trip of a completed run's answer, handed back as an assistant turn. */
module ReplayTurn {
  // The turn restores what the reducer holds; that this is what upstream sent is another module.

  import opened Wrappers
  import Sequences
  import opened Utf8
  import opened MapSums
  import opened JsonValues
  import opened MessageStream
  import opened ThinkingSignature
  import opened ToolNames
  import opened Reducer
  import opened ReducerInvariant
  import opened OneShotAnswer
  import opened SealOrder
  import opened CloserWatch
  import opened HistoryTranslation

  /** A client sends the content of an answer back unchanged. */
  function AsHistory(content: Content): HistoryBlock {
    match content
    case Text(text) => TextBlock(text)
    case Thinking(thinking, signature) => ThinkingBlock(thinking, Some(signature))
    case ToolUse(id, name, input) => ToolUseBlock(Some(id), Some(name), Some(input))
  }

  function Replay(contents: seq<Content>): seq<HistoryBlock> {
    seq(|contents|, i requires 0 <= i < |contents| => AsHistory(contents[i]))
  }

  /** What the rest needs of a completed state: every block closed, sealed, accounted for and readable. */
  ghost predicate Finished(c: Context, s: State) {
    && Ordered(s) && Ciphered(c, s) && Identified(c, s) && Balanced(s)
    && s.active.None? && Readable(c, s)
  }

  ghost predicate Replays(c: Context, s: State, blocks: seq<HistoryBlock>) {
    && |blocks| == |s.blockOrder|
    && forall i: nat | i < |blocks| ::
         ContentOf(c, s, s.blockOrder[i]).Some? && blocks[i] == AsHistory(ContentOf(c, s, s.blockOrder[i]).value)
  }

  // ---------- What is restored ----------

  /** The upstream item a block came from. */
  function Original(c: Context, s: State, key: BlockKey): InputItem {
    match key
    case TextKey(k) => MessageItem(Assistant, [OutputText(if k in s.texts then s.texts[k].text else "")])
    case ReasoningKey(k) =>
      ReasoningItem(k, if k in s.reasoning then s.reasoning[k].text else "", if k in s.seals then s.seals[k].encrypted else "")
    case ToolKey(k) =>
      if k in s.tools && c.codec.parse(s.tools[k].arguments).Some? then
        FunctionCall(s.tools[k].callId, c.toolNames.CodexName(s.tools[k].name),
                     c.codec.write(c.codec.parse(s.tools[k].arguments).value))
      else FunctionCall("", "", "")
  }

  /** Adjacent messages of one turn are sent as one message. */
  function Merge(items: seq<InputItem>): seq<InputItem> {
    if items == [] then []
    else
      Joined(Merge(items[..|items| - 1]), items[|items| - 1])
  }

  /** One more item, joined to a message before it if it is a message too. */
  function Joined(merged: seq<InputItem>, item: InputItem): seq<InputItem> {
    if merged != [] && merged[|merged| - 1].MessageItem? && item.MessageItem? then
      merged[..|merged| - 1] + [MessageItem(item.role, merged[|merged| - 1].parts + item.parts)]
    else merged + [item]
  }

  function Originals(c: Context, s: State, n: nat): seq<InputItem>
    requires n <= |s.blockOrder|
  {
    seq(n, i requires 0 <= i < n => Original(c, s, s.blockOrder[i]))
  }

  // ---------- When signatures open ----------

  ghost predicate SealMatches(s: State, i: nat) {
    i < |s.blockOrder| && s.blockOrder[i].ReasoningKey? && s.blockOrder[i].id in s.seals ==>
      s.seals[s.blockOrder[i].id].toolId == NextCall(s, i)
  }

  lemma SealsMatchIffClosersFollow(s: State)
    requires Followed(s)
    ensures ClosersFollow(s) <==> forall i: nat :: SealMatches(s, i)
  {
    if ClosersFollow(s) {
      forall i: nat ensures SealMatches(s, i) {
        if i < |s.blockOrder| && s.blockOrder[i].ReasoningKey? && s.blockOrder[i].id in s.seals {
          assert CloserFollows(s, i);
          assert Unbound(s, i) ==> NextCall(s, i).None?;
        }
      }
    }
    if forall i: nat :: SealMatches(s, i) {
      forall i: nat | i < |s.blockOrder| ensures CloserFollows(s, i) {
        assert SealMatches(s, i);
      }
    }
  }

  // ---------- Sizes ----------

  /** Room in the request: the turn is between messages, its calls are new, and the totals have space. */
  ghost predicate Fits(c: Context, s: State, start: Turn) {
    && start.ordinary == []
    && start.textBytes + s.totalText <= Reducer.MAX_TEXT_BYTES
    && start.reasoningBytes + s.totalReasoning <= Reducer.MAX_REASONING_BYTES
    && (forall k | k in s.tools ::
      && s.tools[k].callId !in start.calls
      && (c.codec.parse(s.tools[k].arguments).Some? ==>
        ByteLen(c.codec.write(c.codec.parse(s.tools[k].arguments).value)) <= Reducer.MAX_TOOL_ARGUMENT_BYTES))
  }

  ghost function Ids(s: State, n: nat): set<string>
    requires n <= |s.blockOrder|
  {
    set i | 0 <= i < n :: s.blockOrder[i].id
  }

  function TextCost(s: State, key: BlockKey): nat {
    if key.TextKey? && key.id in s.texts then TextBytes(key.id, s.texts[key.id]) else 0
  }

  function ReasoningCost(s: State, key: BlockKey): nat {
    if key.ReasoningKey? && key.id in s.reasoning && key.id in s.seals
    then ReasoningBytes(key.id, s.reasoning[key.id]) + SealBytes(key.id, s.seals[key.id])
    else 0
  }

  ghost function TextUpTo(s: State, n: nat): nat
    requires n <= |s.blockOrder|
  {
    if n == 0 then 0 else TextUpTo(s, n - 1) + TextCost(s, s.blockOrder[n - 1])
  }

  ghost function ReasoningUpTo(s: State, n: nat): nat
    requires n <= |s.blockOrder|
  {
    if n == 0 then 0 else ReasoningUpTo(s, n - 1) + ReasoningCost(s, s.blockOrder[n - 1])
  }

  ghost function TextAround(s: State, n: nat): nat
    requires n <= |s.blockOrder|
  {
    TextUpTo(s, n) + Sum(s.texts - Ids(s, n), TextBytes)
  }

  ghost function ReasoningAround(s: State, n: nat): nat
    requires n <= |s.blockOrder|
  {
    ReasoningUpTo(s, n) + ReasoningLeft(s, Ids(s, n))
  }

  /** The bytes of the first blocks, and of the entries not among them, make up the totals. */
  lemma PrefixBytes(c: Context, s: State, n: nat)
    requires Finished(c, s) && n <= |s.blockOrder|
    ensures TextAround(s, n) == Sum(s.texts, TextBytes)
    ensures ReasoningAround(s, n) == Sum(s.reasoning, ReasoningBytes) + Sum(s.seals, SealBytes)
  {
    AllSame(c, s, n);
    AroundStays(s, n);
    NothingBefore(s);
  }

  lemma AllSame(c: Context, s: State, n: nat)
    requires Finished(c, s) && n <= |s.blockOrder|
    ensures forall m: nat | m < n :: SameAround(s, m)
  {
    forall m: nat | m < n ensures SameAround(s, m) {
      SameOneFurther(c, s, m);
    }
  }

  lemma SameOneFurther(c: Context, s: State, m: nat)
    requires Finished(c, s) && m < |s.blockOrder|
    ensures SameAround(s, m)
  {
    NextBytes(c, s, m + 1);
  }

  lemma NothingBefore(s: State)
    ensures TextAround(s, 0) == Sum(s.texts, TextBytes)
    ensures ReasoningAround(s, 0) == Sum(s.reasoning, ReasoningBytes) + Sum(s.seals, SealBytes)
  {
    NoIds(s);
  }

  ghost predicate SameAround(s: State, m: nat)
    requires m < |s.blockOrder|
  {
    TextAround(s, m + 1) == TextAround(s, m) && ReasoningAround(s, m + 1) == ReasoningAround(s, m)
  }

  lemma {:induction false} AroundStays(s: State, n: nat)
    requires n <= |s.blockOrder| && forall m: nat | m < n :: SameAround(s, m)
    ensures TextAround(s, n) == TextAround(s, 0) && ReasoningAround(s, n) == ReasoningAround(s, 0)
  {
    if n > 0 {
      AroundStays(s, n - 1);
      assert SameAround(s, n - 1);
    }
  }

  /** Reasoning and unsealed bytes of all entries but those of some ids. */
  ghost function ReasoningLeft(s: State, done: set<string>): nat {
    Sum(s.reasoning - done, ReasoningBytes) + Sum(s.seals - done, SealBytes)
  }

  lemma NextBytes(c: Context, s: State, n: nat)
    requires Finished(c, s) && 0 < n <= |s.blockOrder|
    ensures
      TextUpTo(s, n) + Sum(s.texts - Ids(s, n), TextBytes) == TextUpTo(s, n - 1) + Sum(s.texts - Ids(s, n - 1), TextBytes)
    ensures
      ReasoningUpTo(s, n) + ReasoningLeft(s, Ids(s, n)) == ReasoningUpTo(s, n - 1) + ReasoningLeft(s, Ids(s, n - 1))
  {
    NewId(c, s, n);
    OneBlockBytes(c, s, n, s.blockOrder[n - 1], Ids(s, n - 1));
  }

  lemma NoIds(s: State)
    ensures s.texts - Ids(s, 0) == s.texts && Ids(s, 0) == {}
    ensures ReasoningLeft(s, {}) == Sum(s.reasoning, ReasoningBytes) + Sum(s.seals, SealBytes)
  {
    assert s.reasoning - {} == s.reasoning && s.seals - {} == s.seals;
    assert Ids(s, 0) == {};
  }

  lemma NewId(c: Context, s: State, n: nat)
    requires Ordered(s) && Identified(c, s) && 0 < n <= |s.blockOrder|
    ensures s.blockOrder[n - 1].id !in Ids(s, n - 1)
    ensures Ids(s, n) == Ids(s, n - 1) + {s.blockOrder[n - 1].id}
  {
    if s.blockOrder[n - 1].id in Ids(s, n - 1) {
      var i :| 0 <= i < n - 1 && s.blockOrder[i].id == s.blockOrder[n - 1].id;
      DistinctIds(c, s, i, n - 1);
    }
  }

  /** An id is in the table of its own kind only. */
  lemma OneKind(c: Context, s: State, i: nat)
    requires Ordered(s) && Identified(c, s) && i < |s.blockOrder|
    ensures
      var key := s.blockOrder[i];
      && (key.id in s.texts <==> key.TextKey?)
      && (key.id in s.reasoning <==> key.ReasoningKey?)
  {
    BlockClaimed(c, s, i);
    assert Backed(s, i);
  }

  lemma OneBlockBytes(c: Context, s: State, n: nat, key: BlockKey, done: set<string>)
    requires Finished(c, s)
    requires 0 < n <= |s.blockOrder| && key == s.blockOrder[n - 1] && key.id !in done
    ensures
      TextCost(s, key) + Sum(s.texts - (done + {key.id}), TextBytes) == Sum(s.texts - done, TextBytes)
    ensures ReasoningCost(s, key) + ReasoningLeft(s, done + {key.id}) == ReasoningLeft(s, done)
  {
    OneKind(c, s, n - 1);
    assert Backed(s, n - 1);
    RemoveOne(s.texts, done, key.id, TextBytes);
    RemoveOne(s.reasoning, done, key.id, ReasoningBytes);
    RemoveOne(s.seals, done, key.id, SealBytes);
    if key.ReasoningKey? {
      assert Stage(c, s, key.id);
    }
  }

  lemma RemoveOne<V(!new)>(m: map<string, V>, done: set<string>, k: string, cost: (string, V) -> nat)
    requires k !in done
    ensures Sum(m - done, cost) == (if k in m then cost(k, m[k]) else 0) + Sum(m - (done + {k}), cost)
  {
    assert m - (done + {k}) == (m - done) - {k};
    if k in m {
      Remove(m - done, k, cost);
    } else {
      assert (m - done) - {k} == m - done;
    }
  }

  // ---------- Progress through the turn ----------

  /** The calls of the first n blocks. */
  ghost function Calls(s: State, n: nat): set<string>
    requires n <= |s.blockOrder|
  {
    set i | 0 <= i < n && s.blockOrder[i].ToolKey? && s.blockOrder[i].id in s.tools :: s.tools[s.blockOrder[i].id].callId
  }

  /** The items so far, with a message still being gathered kept back. */
  ghost predicate Gathered(t: Turn, start: Turn, merged: seq<InputItem>) {
    if merged != [] && merged[|merged| - 1].MessageItem? then
      && t.input == start.input + merged[..|merged| - 1]
      && merged[|merged| - 1] == MessageItem(Assistant, t.ordinary) && t.ordinary != []
    else t.input == start.input + merged && t.ordinary == []
  }

  ghost predicate Progress(c: Context, s: State, start: Turn, t: Turn, n: nat)
    requires n <= |s.blockOrder|
  {
    && t.textBytes == start.textBytes + TextUpTo(s, n)
    && t.reasoningBytes == start.reasoningBytes + ReasoningUpTo(s, n)
    && t.calls == start.calls + Calls(s, n)
    && Gathered(t, start, Merge(Originals(c, s, n)))
  }

  lemma FlushedIsMerged(t: Turn, start: Turn, merged: seq<InputItem>)
    requires Gathered(t, start, merged)
    ensures Flush(t, Assistant).input == start.input + merged && Flush(t, Assistant).ordinary == []
    ensures Flush(t, Assistant) == t.(input := start.input + merged, ordinary := [])
  {
    if merged != [] && merged[|merged| - 1].MessageItem? {
      assert merged[..|merged| - 1] + [merged[|merged| - 1]] == merged;
    }
  }

  lemma MergeNext(c: Context, s: State, n: nat)
    requires n < |s.blockOrder|
    ensures Merge(Originals(c, s, n + 1)) == Joined(Merge(Originals(c, s, n)), Original(c, s, s.blockOrder[n]))
  {
    assert Originals(c, s, n + 1)[..n] == Originals(c, s, n);
  }

  /** The totals and calls one block further. */
  lemma CountNext(s: State, n: nat)
    requires n < |s.blockOrder|
    ensures TextUpTo(s, n + 1) == TextUpTo(s, n) + TextCost(s, s.blockOrder[n])
    ensures ReasoningUpTo(s, n + 1) == ReasoningUpTo(s, n) + ReasoningCost(s, s.blockOrder[n])
    ensures
      var key := s.blockOrder[n];
      Calls(s, n + 1) == Calls(s, n) + (if key.ToolKey? && key.id in s.tools then {s.tools[key.id].callId} else {})
  {
    var key := s.blockOrder[n];
    var more := if key.ToolKey? && key.id in s.tools then {s.tools[key.id].callId} else {};
    forall call ensures call in Calls(s, n + 1) <==> call in Calls(s, n) + more {
    }
  }

  lemma TextGathered(t: Turn, start: Turn, merged: seq<InputItem>, text: string, t': Turn)
    requires Gathered(t, start, merged)
    requires t'.input == t.input && t'.ordinary == t.ordinary + [OutputText(text)]
    ensures Gathered(t', start, Joined(merged, MessageItem(Assistant, [OutputText(text)])))
  {
    if merged != [] && merged[|merged| - 1].MessageItem? {
      Sequences.Snoc(merged[..|merged| - 1], MessageItem(Assistant, t'.ordinary));
    } else {
      Sequences.Snoc(merged, MessageItem(Assistant, [OutputText(text)]));
      Sequences.ConcatEmpty([OutputText(text)]);
    }
  }

  /** After a message was put in, another item follows what was merged. */
  lemma ItemGathered(t: Turn, start: Turn, merged: seq<InputItem>, item: InputItem)
    requires !item.MessageItem? && t.input == start.input + merged + [item] && t.ordinary == []
    ensures Gathered(t, start, Joined(merged, item))
  {
    Sequences.Snoc(merged, item);
    Sequences.Associate(start.input, merged, [item]);
  }

  lemma TextStep(c: Context, s: State, start: Turn, t: Turn, n: nat)
    requires n < |s.blockOrder| && Progress(c, s, start, t, n) && s.blockOrder[n].TextKey? && s.blockOrder[n].id in s.texts
    requires t.textBytes + TextCost(s, s.blockOrder[n]) <= Reducer.MAX_TEXT_BYTES
    ensures
      var r := TranslateText(t, Assistant, s.texts[s.blockOrder[n].id].text);
      r.Ok? && Progress(c, s, start, r.value, n + 1)
  {
    var text := s.texts[s.blockOrder[n].id].text;
    var t' := TranslateText(t, Assistant, text).value;
    MergeNext(c, s, n);
    CountNext(s, n);
    TextGathered(t, start, Merge(Originals(c, s, n)), text, t');
  }

  lemma ReasoningStep(c: Context, s: State, start: Turn, t: Turn, n: nat, tool: Option<string>)
    requires c.signer.Lawful()
    requires n < |s.blockOrder| && Progress(c, s, start, t, n) && s.blockOrder[n].ReasoningKey?
    requires s.blockOrder[n].id in s.reasoning && Stage(c, s, s.blockOrder[n].id) && s.reasoning[s.blockOrder[n].id].closed
    requires t.reasoningBytes + ReasoningCost(s, s.blockOrder[n]) <= Reducer.MAX_REASONING_BYTES
    ensures
      var k := s.blockOrder[n].id;
      var r := TranslateThinking(c, Flush(t, Assistant), s.reasoning[k].text, s.reasoning[k].signature, tool);
      && (r.Ok? <==> s.seals[k].toolId == tool)
      && (r.Ok? ==> Progress(c, s, start, r.value, n + 1))
  {
    var k := s.blockOrder[n].id;
    var f := Flush(t, Assistant);
    FlushedIsMerged(t, start, Merge(Originals(c, s, n)));
    ThinkingOpens(c, f, k, s.reasoning[k].text, s.reasoning[k].signature, s.seals[k], tool);
    if s.seals[k].toolId == tool {
      ReasoningProgress(c, s, start, t, n);
    }
  }

  lemma ReasoningProgress(c: Context, s: State, start: Turn, t: Turn, n: nat)
    requires n < |s.blockOrder| && Progress(c, s, start, t, n) && s.blockOrder[n].ReasoningKey?
    requires s.blockOrder[n].id in s.reasoning && s.blockOrder[n].id in s.seals && s.reasoning[s.blockOrder[n].id].encrypted.None?
    ensures
      var k := s.blockOrder[n].id;
      var text, encrypted := s.reasoning[k].text, s.seals[k].encrypted;
      var t' := t.(
        reasoningBytes := t.reasoningBytes + ByteLen(text) + ByteLen(encrypted),
        input := start.input + Merge(Originals(c, s, n)) + [ReasoningItem(k, text, encrypted)],
        ordinary := []);
      Progress(c, s, start, t', n + 1)
  {
    var k := s.blockOrder[n].id;
    var merged, item := Merge(Originals(c, s, n)), ReasoningItem(k, s.reasoning[k].text, s.seals[k].encrypted);
    var t' := t.(
      reasoningBytes := t.reasoningBytes + ByteLen(s.reasoning[k].text) + ByteLen(s.seals[k].encrypted),
      input := start.input + merged + [item], ordinary := []);
    MergeNext(c, s, n);
    CountNext(s, n);
    ItemGathered(t', start, merged, item);
  }

  lemma ThinkingOpens(
      c: Context, t: Turn, k: string, text: string, signature: Option<string>, seal: Seal, tool: Option<string>)
    requires c.signer.Lawful() && signature.Some?
    requires c.signer.Seal(c.authEpoch, c.accountHash, k, seal.toolId, seal.encrypted) == Ok(signature.value)
    requires t.reasoningBytes + ByteLen(text) + ByteLen(seal.encrypted) <= Reducer.MAX_REASONING_BYTES
    ensures
      var r := TranslateThinking(c, t, text, signature, tool);
      && (r.Ok? <==> seal.toolId == tool)
      && (r.Ok? ==> r.value == t.(
           reasoningBytes := t.reasoningBytes + ByteLen(text) + ByteLen(seal.encrypted),
           input := t.input + [ReasoningItem(k, text, seal.encrypted)]))
  {
    SealedOpensOnlyInContext(c.signer, c.authEpoch, c.accountHash, k, seal.toolId, seal.encrypted,
                             c.authEpoch, c.accountHash, tool);
  }

  lemma ToolTranslates(c: Context, f: Turn, tool: ToolState) returns (t: Turn)
    requires tool.callId != "" && ByteLen(tool.callId) <= Reducer.MAX_ID_BYTES && tool.callId !in f.calls
    requires tool.name != "" && ByteLen(tool.name) <= Reducer.MAX_ID_BYTES
    requires c.codec.parse(tool.arguments).Some? && c.codec.parse(tool.arguments).value.JObject?
    requires ByteLen(c.codec.write(c.codec.parse(tool.arguments).value)) <= Reducer.MAX_TOOL_ARGUMENT_BYTES
    ensures
      var input := c.codec.parse(tool.arguments).value;
      && TranslateToolUse(c, f, Some(tool.callId), Some(tool.name), Some(input)) == Ok(t)
      && t == f.(calls := f.calls + {tool.callId},
                 input := f.input + [FunctionCall(tool.callId, c.toolNames.CodexName(tool.name), c.codec.write(input))])
  {
    t := TranslateToolUse(c, f, Some(tool.callId), Some(tool.name), Some(c.codec.parse(tool.arguments).value)).value;
  }

  lemma ToolStep(c: Context, s: State, start: Turn, t: Turn, n: nat)
    requires n < |s.blockOrder| && Progress(c, s, start, t, n) && s.blockOrder[n].ToolKey?
    requires s.blockOrder[n].id in s.tools && ToolNamed(c, s, s.blockOrder[n].id) && s.tools[s.blockOrder[n].id].closed
    requires s.tools[s.blockOrder[n].id].callId !in t.calls
    requires Fits(c, s, start)
    ensures
      var tool := s.tools[s.blockOrder[n].id];
      var r := TranslateToolUse(
        c, Flush(t, Assistant), Some(tool.callId), Some(tool.name), Some(c.codec.parse(tool.arguments).value));
      r.Ok? && Progress(c, s, start, r.value, n + 1)
  {
    var tool, f, merged := s.tools[s.blockOrder[n].id], Flush(t, Assistant), Merge(Originals(c, s, n));
    FlushedIsMerged(t, start, merged);
    var t' := ToolTranslates(c, f, tool);
    MergeNext(c, s, n);
    CountNext(s, n);
    ItemGathered(t', start, merged, Original(c, s, s.blockOrder[n]));
  }

  lemma FreshCall(c: Context, s: State, n: nat)
    requires Ordered(s) && Identified(c, s) && n < |s.blockOrder| && s.blockOrder[n].ToolKey?
    requires s.blockOrder[n].id in s.tools
    ensures s.tools[s.blockOrder[n].id].callId !in Calls(s, n)
  {
    var call := s.tools[s.blockOrder[n].id].callId;
    if call in Calls(s, n) {
      var i :| 0 <= i < n && s.blockOrder[i].ToolKey? && s.blockOrder[i].id in s.tools
               && s.tools[s.blockOrder[i].id].callId == call;
      assert ToolNamed(c, s, s.blockOrder[i].id) && ToolNamed(c, s, s.blockOrder[n].id);
      DistinctIds(c, s, i, n);
    }
  }

  lemma RoomLeft(c: Context, s: State, start: Turn, n: nat)
    requires Finished(c, s) && n < |s.blockOrder| && Fits(c, s, start)
    ensures start.textBytes + TextUpTo(s, n) + TextCost(s, s.blockOrder[n]) <= Reducer.MAX_TEXT_BYTES
    ensures start.reasoningBytes + ReasoningUpTo(s, n) + ReasoningCost(s, s.blockOrder[n]) <= Reducer.MAX_REASONING_BYTES
  {
    PrefixBytes(c, s, n + 1);
    CountNext(s, n);
  }

  lemma BlockFacts(c: Context, s: State, n: nat)
    requires Finished(c, s) && n < |s.blockOrder|
    ensures
      var k := s.blockOrder[n].id;
      match s.blockOrder[n]
      case TextKey(_) => k in s.texts
      case ReasoningKey(_) => k in s.reasoning && Stage(c, s, k) && s.reasoning[k].closed
      case ToolKey(_) => k in s.tools && ToolNamed(c, s, k) && s.tools[k].closed
  {
    assert Backed(s, n);
  }

  /** How the n-th block is translated. */
  lemma BlockTranslation(c: Context, s: State, blocks: seq<HistoryBlock>, t: Turn, n: nat)
    requires Replays(c, s, blocks) && n < |blocks|
    ensures
      var k, r := s.blockOrder[n].id, TranslateBlock(c, t, Assistant, blocks, n);
      match s.blockOrder[n]
      case TextKey(_) => k in s.texts && r == TranslateText(t, Assistant, s.texts[k].text)
      case ReasoningKey(_) =>
        k in s.reasoning
        && r == TranslateThinking(c, Flush(t, Assistant), s.reasoning[k].text, s.reasoning[k].signature, NextCall(s, n))
      case ToolKey(_) =>
        && k in s.tools && c.codec.parse(s.tools[k].arguments).Some?
        && r == TranslateToolUse(c, Flush(t, Assistant), Some(s.tools[k].callId), Some(s.tools[k].name),
                                 Some(c.codec.parse(s.tools[k].arguments).value))
  {
    NextCallIsBound(c, s, blocks, n);
    assert blocks[n] == AsHistory(ContentOf(c, s, s.blockOrder[n]).value);
  }

  lemma TextBlockStep(c: Context, s: State, blocks: seq<HistoryBlock>, start: Turn, t: Turn, n: nat)
    requires Finished(c, s) && Replays(c, s, blocks) && Fits(c, s, start)
    requires n < |blocks| && Progress(c, s, start, t, n) && s.blockOrder[n].TextKey?
    ensures
      var r := TranslateBlock(c, t, Assistant, blocks, n);
      r.Ok? && SealMatches(s, n) && Progress(c, s, start, r.value, n + 1)
  {
    RoomLeft(c, s, start, n);
    BlockTranslation(c, s, blocks, t, n);
    TextStep(c, s, start, t, n);
  }

  lemma ReasoningBlockStep(c: Context, s: State, blocks: seq<HistoryBlock>, start: Turn, t: Turn, n: nat)
    requires c.signer.Lawful() && Finished(c, s) && Replays(c, s, blocks) && Fits(c, s, start)
    requires n < |blocks| && Progress(c, s, start, t, n) && s.blockOrder[n].ReasoningKey?
    ensures
      var r := TranslateBlock(c, t, Assistant, blocks, n);
      && (r.Ok? <==> SealMatches(s, n))
      && (r.Ok? ==> Progress(c, s, start, r.value, n + 1))
  {
    RoomLeft(c, s, start, n);
    BlockFacts(c, s, n);
    BlockTranslation(c, s, blocks, t, n);
    ReasoningStep(c, s, start, t, n, NextCall(s, n));
  }

  lemma ToolBlockStep(c: Context, s: State, blocks: seq<HistoryBlock>, start: Turn, t: Turn, n: nat)
    requires Finished(c, s) && Replays(c, s, blocks) && Fits(c, s, start)
    requires n < |blocks| && Progress(c, s, start, t, n) && s.blockOrder[n].ToolKey?
    ensures
      var r := TranslateBlock(c, t, Assistant, blocks, n);
      r.Ok? && SealMatches(s, n) && Progress(c, s, start, r.value, n + 1)
  {
    BlockFacts(c, s, n);
    BlockTranslation(c, s, blocks, t, n);
    FreshCall(c, s, n);
    ToolStep(c, s, start, t, n);
  }

  lemma NextCallIsBound(c: Context, s: State, blocks: seq<HistoryBlock>, n: nat)
    requires Replays(c, s, blocks) && n < |s.blockOrder|
    ensures BoundTool(blocks, n) == NextCall(s, n)
  {
  }

  /** The n-th block translates exactly when its signature, if it has one, was sealed for what follows it. */
  lemma BlockStep(c: Context, s: State, blocks: seq<HistoryBlock>, start: Turn, t: Turn, n: nat)
    requires c.signer.Lawful() && Finished(c, s) && Replays(c, s, blocks) && Fits(c, s, start)
    requires n < |blocks| && Progress(c, s, start, t, n)
    ensures
      var r := TranslateBlock(c, t, Assistant, blocks, n);
      && (r.Ok? <==> SealMatches(s, n))
      && (r.Ok? ==> Progress(c, s, start, r.value, n + 1))
  {
    match s.blockOrder[n]
    case TextKey(_) => TextBlockStep(c, s, blocks, start, t, n);
    case ReasoningKey(_) => ReasoningBlockStep(c, s, blocks, start, t, n);
    case ToolKey(_) => ToolBlockStep(c, s, blocks, start, t, n);
  }

  lemma StartProgress(c: Context, s: State, start: Turn)
    requires Fits(c, s, start)
    ensures Progress(c, s, start, start, 0)
  {
    assert Calls(s, 0) == {};
  }

  lemma OneMoreBlock(c: Context, start: Turn, blocks: seq<HistoryBlock>, n: nat, t: Turn)
    requires n < |blocks| && TranslateBlocks(c, start, Assistant, blocks, n) == Ok(t)
    ensures TranslateBlocks(c, start, Assistant, blocks, n + 1) == TranslateBlock(c, t, Assistant, blocks, n)
  {
  }

  ghost predicate Reached(c: Context, s: State, blocks: seq<HistoryBlock>, start: Turn, t: Turn, n: nat)
    requires n <= |s.blockOrder| && n <= |blocks|
  {
    TranslateBlocks(c, start, Assistant, blocks, n) == Ok(t) && Progress(c, s, start, t, n)
  }

  lemma {:induction false} Prefix(c: Context, s: State, blocks: seq<HistoryBlock>, start: Turn, n: nat) returns (t: Turn)
    requires c.signer.Lawful() && Finished(c, s) && Replays(c, s, blocks) && Fits(c, s, start)
    requires n <= |blocks| && forall i: nat | i < n :: SealMatches(s, i)
    ensures Reached(c, s, blocks, start, t, n)
  {
    if n == 0 {
      StartProgress(c, s, start);
      t := start;
    } else {
      var before := Prefix(c, s, blocks, start, n - 1);
      assert SealMatches(s, n - 1);
      t := PrefixStep(c, s, blocks, start, before, n - 1);
    }
  }

  lemma PrefixStep(c: Context, s: State, blocks: seq<HistoryBlock>, start: Turn, before: Turn, n: nat) returns (t: Turn)
    requires c.signer.Lawful() && Finished(c, s) && Replays(c, s, blocks) && Fits(c, s, start)
    requires n < |blocks| && Reached(c, s, blocks, start, before, n) && SealMatches(s, n)
    ensures Reached(c, s, blocks, start, t, n + 1)
  {
    BlockStep(c, s, blocks, start, before, n);
    OneMoreBlock(c, start, blocks, n, before);
    t := TranslateBlock(c, before, Assistant, blocks, n).value;
  }

  /** The first mismatch stops the turn. */
  lemma MismatchFails(c: Context, s: State, blocks: seq<HistoryBlock>, start: Turn, n: nat)
    requires c.signer.Lawful() && Finished(c, s) && Replays(c, s, blocks) && Fits(c, s, start)
    requires n < |blocks| && !SealMatches(s, n) && forall i: nat | i < n :: SealMatches(s, i)
    ensures TranslateBlocks(c, start, Assistant, blocks, n + 1).Err?
  {
    var t := Prefix(c, s, blocks, start, n);
    BlockStep(c, s, blocks, start, t, n);
    OneMoreBlock(c, start, blocks, n, t);
  }

  lemma {:induction false} FirstMismatch(s: State, n: nat) returns (first: nat)
    requires !SealMatches(s, n)
    ensures first <= n && !SealMatches(s, first) && forall i: nat | i < first :: SealMatches(s, i)
  {
    if i: nat :| i < n && !SealMatches(s, i) {
      first := FirstMismatch(s, i);
    } else {
      first := n;
    }
  }

  lemma AllMatchRestores(c: Context, s: State, blocks: seq<HistoryBlock>, start: Turn)
    requires c.signer.Lawful() && Finished(c, s) && Replays(c, s, blocks) && Fits(c, s, start)
    requires forall i: nat :: SealMatches(s, i)
    ensures
      var r := HistoryTranslation.TranslateMessage(c, start, Assistant, blocks);
      && r.Ok?
      && r.value.input == start.input + Merge(Originals(c, s, |s.blockOrder|))
      && r.value.calls == start.calls + Calls(s, |s.blockOrder|)
  {
    var n := |s.blockOrder|;
    var t := Prefix(c, s, blocks, start, n);
    FlushedIsMerged(t, start, Merge(Originals(c, s, n)));
  }

  lemma TurnRestores(c: Context, s: State, blocks: seq<HistoryBlock>, start: Turn)
    requires c.signer.Lawful() && Finished(c, s) && Followed(s) && Replays(c, s, blocks) && Fits(c, s, start)
    ensures
      var r := HistoryTranslation.TranslateMessage(c, start, Assistant, blocks);
      && (r.Ok? <==> ClosersFollow(s))
      && (r.Ok? ==>
        && r.value.input == start.input + Merge(Originals(c, s, |s.blockOrder|))
        && r.value.calls == start.calls + Calls(s, |s.blockOrder|))
  {
    SealsMatchIffClosersFollow(s);
    if ClosersFollow(s) {
      AllMatchRestores(c, s, blocks, start);
    } else {
      var i: nat :| !SealMatches(s, i);
      i := FirstMismatch(s, i);
      MismatchFails(c, s, blocks, start, i);
      FailsForGood(c, start, Assistant, blocks, i + 1, |blocks|);
    }
  }
}
